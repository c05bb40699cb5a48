/** Values shared by the release download task and the download listener:
    the release being downloaded, the progress record the download task reports and the
    preference keys both of them write. */
module DistributeTypes {
  import opened JavaBasics

  /** A URL scheme as `getProtocol()` reports it (lower-cased by the parser). */
  datatype Scheme = Http | Https | OtherScheme(name: string)

  /** A parsed URL: its scheme and everything after it. */
  datatype Url = Url(protocol: Scheme, rest: string)

  /** The part of a release that the download and install path reads. */
  datatype ReleaseDetails = ReleaseDetails(
    distributionGroupId: string,
    releaseHash: string,
    id: Int32,
    mandatoryUpdate: bool,
    downloadUrl: Url)

  /** `DownloadProgress(currentSize, totalSize)`; `totalSize` is -1 when the
      server did not declare a length. */
  datatype DownloadProgress = DownloadProgress(currentSize: int, totalSize: int)

  /** The shared-preference keys the core writes. */
  datatype PreferenceKey =
    | DownloadedFile
    | DownloadedDistributionGroupId
    | DownloadedReleaseHash
    | DownloadedReleaseId
}
