/** The download task feeding the listener's progress dialog: the events the
    copy loop reports, replayed on the dialog a mandatory release shows. */
module DownloadIndicator {
  import opened JavaBasics
  import opened DistributeTypes
  import Task = HttpDownloadFileTask
  import Listener = ReleaseDownloadListener

  /** When the server declares the length and sends no more than it, the
      dialog of a mandatory release becomes determinate with the length as
      maximum, its position never moves back and never passes the maximum;
      when the length is unknown (-1) the dialog stays as it was. */
  lemma TaskProgressOnDialog(s: Listener.DialogState, copied: seq<nat>, lengthOfFile: Int32)
    requires s.indeterminate
    requires lengthOfFile >= 0 ==> Task.Sum(copied) <= lengthOfFile
    ensures var ps := Task.ProgressEvents(copied, lengthOfFile);
      && (lengthOfFile < 0 ==> Listener.Replay(s, ps) == s)
      && (lengthOfFile >= 0 && ps != [] ==>
            Listener.Replay(s, ps).max == lengthOfFile / Listener.MEBIBYTE_IN_BYTES
            && !Listener.Replay(s, ps).indeterminate)
      && (lengthOfFile >= 0 ==> forall i, j :: 0 < i <= j <= |ps| ==>
            Listener.Replay(s, ps[..i]).progress <= Listener.Replay(s, ps[..j]).progress
                                                 <= Listener.Replay(s, ps[..j]).max)
  {
    var ps := Task.ProgressEvents(copied, lengthOfFile);
    Task.ProgressEventsNonDecreasing(copied, lengthOfFile);
    assert Listener.SameTotal(ps, lengthOfFile);
    if lengthOfFile < 0 {
      Listener.ReplayUnknownTotal(s, ps, lengthOfFile);
    } else {
      assert forall k :: 0 <= k < |ps| ==> 0 <= ps[k].currentSize <= lengthOfFile by {
        forall k | 0 <= k < |ps|
          ensures 0 <= ps[k].currentSize <= lengthOfFile
        {
          Task.ProgressEventAt(copied, lengthOfFile, k);
          assert ps[k].currentSize <= ps[|ps| - 1].currentSize;
        }
      }
      Listener.ReplayPositions(s, ps, lengthOfFile);
      if ps != [] {
        Listener.ReplayDeterminate(s, ps, lengthOfFile);
        Listener.MebibytesMonotone(0, lengthOfFile);
      }
    }
  }
}
