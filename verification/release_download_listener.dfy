/** The listener that turns download events into user-visible behaviour: a
    progress indicator for mandatory releases, and on completion the install
    intent, the hand-off to the distribution coordinator, the installer
    launch and the record of what was downloaded.

    The Android platform and the distribution coordinator are not modelled:
    whether an intent resolves to an activity and what `notifyDownload`
    answers are parameters, and every call the listener makes on them or on
    the preference store is appended, in order, to one trace of
    `ListenerEffect`s. */
module ReleaseDownloadListener {
  import opened JavaBasics
  import opened DistributeTypes

  const MEBIBYTE_IN_BYTES: int := 1024 * 1024

  const ACTION_INSTALL_PACKAGE: string := "android.intent.action.INSTALL_PACKAGE"
  const FLAG_GRANT_READ_URI_PERMISSION: bv32 := 0x0000_0001
  const FLAG_ACTIVITY_NEW_TASK: bv32 := 0x1000_0000
  const FLAG_ACTIVITY_SINGLE_TOP: bv32 := 0x2000_0000

  const INSTALLER_NOT_FOUND: string := "Installer not found"

  // ---------------------------------------------------------------------
  // The install intent

  /** The part of an `Intent` the listener sets: action, data URI, flags. */
  datatype Intent = Intent(action: string, data: Option<string>, flags: bv32)

  /** `new Intent(action)`: no data, no flags. */
  function NewIntent(action: string): Intent {
    Intent(action, None, 0)
  }

  /** `intent.setData(uri)`. */
  function SetData(intent: Intent, uri: string): Intent {
    intent.(data := Some(uri))
  }

  /** `intent.addFlags(flags)`: or-ed into the flags already set. */
  function AddFlags(intent: Intent, flags: bv32): Intent {
    intent.(flags := intent.flags | flags)
  }

  /** getInstallIntent: the intent that opens the package installer on the
      downloaded file. */
  function GetInstallIntent(fileUri: string): (intent: Intent)
    ensures intent.action == ACTION_INSTALL_PACKAGE
    ensures intent.data == Some(fileUri)
    ensures intent.flags == FLAG_GRANT_READ_URI_PERMISSION | FLAG_ACTIVITY_NEW_TASK | FLAG_ACTIVITY_SINGLE_TOP
  {
    var intent := SetData(NewIntent(ACTION_INSTALL_PACKAGE), fileUri);
    AddFlags(AddFlags(AddFlags(intent, FLAG_GRANT_READ_URI_PERMISSION), FLAG_ACTIVITY_NEW_TASK), FLAG_ACTIVITY_SINGLE_TOP)
  }

  /** The intent determines the file it installs, and carries each of the
      three flags. */
  lemma InstallIntentDeterminesFile(uri1: string, uri2: string)
    ensures GetInstallIntent(uri1) == GetInstallIntent(uri2) <==> uri1 == uri2
    ensures GetInstallIntent(uri1).flags & FLAG_GRANT_READ_URI_PERMISSION != 0
    ensures GetInstallIntent(uri1).flags & FLAG_ACTIVITY_NEW_TASK != 0
    ensures GetInstallIntent(uri1).flags & FLAG_ACTIVITY_SINGLE_TOP != 0
  {
  }

  // ---------------------------------------------------------------------
  // The progress indicator

  /** What the model keeps of a progress dialog. */
  datatype DialogState = DialogState(indeterminate: bool, cancelable: bool, max: Int32, progress: Int32)

  /** An Android progress dialog, reduced to the state the listener sets:
      styling, title and number formats are not modelled. */
  class ProgressDialog {
    var indeterminate: bool
    var cancelable: bool
    var max: Int32
    var progress: Int32

    function State(): DialogState
      reads this
    {
      DialogState(indeterminate, cancelable, max, progress)
    }

    /** A new dialog has the platform's defaults: determinate, cancelable,
        a maximum of 100 and no progress. */
    constructor ()
      ensures State() == DialogState(false, true, 100, 0)
    {
      indeterminate := false;
      cancelable := true;
      max := 100;
      progress := 0;
    }

    method SetIndeterminate(indeterminate: bool)
      modifies this
      ensures State() == old(State()).(indeterminate := indeterminate)
    {
      this.indeterminate := indeterminate;
    }

    method SetCancelable(cancelable: bool)
      modifies this
      ensures State() == old(State()).(cancelable := cancelable)
    {
      this.cancelable := cancelable;
    }

    method SetMax(max: Int32)
      modifies this
      ensures State() == old(State()).(max := max)
    {
      this.max := max;
    }

    method SetProgress(progress: Int32)
      modifies this
      ensures State() == old(State()).(progress := progress)
    {
      this.progress := progress;
    }
  }

  /** A byte count in whole mebibytes, as `(int) (bytes / MEBIBYTE_IN_BYTES)`
      computes it. */
  function Mebibytes(bytes: int): Int32 {
    NarrowToInt(JavaDiv(bytes, MEBIBYTE_IN_BYTES))
  }

  /** onProgress on an existing dialog: an event with a known total switches
      an indeterminate dialog to determinate with the total as maximum, and
      then sets the position; an event with an unknown total changes
      nothing. */
  function Progressed(s: DialogState, p: DownloadProgress): (t: DialogState)
    ensures p.totalSize < 0 ==> t == s
    ensures p.totalSize >= 0 ==> !t.indeterminate && t.progress == Mebibytes(p.currentSize)
    ensures t.max == if p.totalSize >= 0 && s.indeterminate then Mebibytes(p.totalSize) else s.max
    ensures t.cancelable == s.cancelable
  {
    if p.totalSize < 0 then s
    else
      var switched := if s.indeterminate then s.(indeterminate := false, max := Mebibytes(p.totalSize)) else s;
      switched.(progress := Mebibytes(p.currentSize))
  }

  /** The dialog after a sequence of events, in order. */
  function Replay(s: DialogState, ps: seq<DownloadProgress>): DialogState {
    if ps == [] then s else Progressed(Replay(s, ps[..|ps| - 1]), ps[|ps| - 1])
  }

  /** Every event declares the same total. */
  predicate SameTotal(ps: seq<DownloadProgress>, total: int) {
    forall k :: 0 <= k < |ps| ==> ps[k].totalSize == total
  }

  /** Events with an unknown total leave the dialog as it was. */
  lemma {:induction false} ReplayUnknownTotal(s: DialogState, ps: seq<DownloadProgress>, total: int)
    requires SameTotal(ps, total) && total < 0
    ensures Replay(s, ps) == s
  {
    if ps != [] {
      ReplayUnknownTotal(s, ps[..|ps| - 1], total);
    }
  }

  /** From an indeterminate dialog, events with a known total leave it
      determinate, with the maximum set once from the total and the position
      taken from the last event. */
  lemma {:induction false} ReplayDeterminate(s: DialogState, ps: seq<DownloadProgress>, total: int)
    requires s.indeterminate && ps != []
    requires SameTotal(ps, total) && total >= 0
    ensures Replay(s, ps)
            == DialogState(false, s.cancelable, Mebibytes(total), Mebibytes(ps[|ps| - 1].currentSize))
  {
    if |ps| > 1 {
      ReplayDeterminate(s, ps[..|ps| - 1], total);
    }
  }

  /** Totals below this have a mebibyte count that fits in an `int`. */
  const TRACKABLE_TOTAL: int := (INT_MAX + 1) * MEBIBYTE_IN_BYTES

  lemma MulMonotone(d: int, x: int, y: int)
    requires d > 0 && x <= y
    ensures d * x <= d * y
  {
  }

  lemma DivMonotone(a: int, b: int, d: int)
    requires 0 <= a <= b && d > 0
    ensures a / d <= b / d
  {
    if a / d > b / d {
      MulMonotone(d, b / d + 1, a / d);
      assert false;
    }
  }

  /** Mebibytes is monotone on byte counts up to a trackable total, and the
      count of such a total fits in an `int`. */
  lemma MebibytesMonotone(a: int, b: int)
    requires 0 <= a <= b < TRACKABLE_TOTAL
    ensures 0 <= Mebibytes(a) <= Mebibytes(b)
    ensures Mebibytes(b) == b / MEBIBYTE_IN_BYTES
  {
    DivMonotone(a, b, MEBIBYTE_IN_BYTES);
    DivMonotone(b, TRACKABLE_TOTAL - 1, MEBIBYTE_IN_BYTES);
    NarrowToIntInRange(a / MEBIBYTE_IN_BYTES);
    NarrowToIntInRange(b / MEBIBYTE_IN_BYTES);
  }

  /** For events whose current sizes do not decrease and stay within a
      trackable total, the position never moves back and never passes the
      maximum. */
  lemma ReplayPositions(s: DialogState, ps: seq<DownloadProgress>, total: int)
    requires s.indeterminate
    requires SameTotal(ps, total) && 0 <= total < TRACKABLE_TOTAL
    requires forall k :: 0 <= k < |ps| ==> 0 <= ps[k].currentSize <= total
    requires forall i, j :: 0 <= i <= j < |ps| ==> ps[i].currentSize <= ps[j].currentSize
    ensures forall i, j :: 0 < i <= j <= |ps| ==>
      Replay(s, ps[..i]).progress <= Replay(s, ps[..j]).progress <= Replay(s, ps[..j]).max
  {
    forall i, j | 0 < i <= j <= |ps|
      ensures Replay(s, ps[..i]).progress <= Replay(s, ps[..j]).progress <= Replay(s, ps[..j]).max
    {
      ReplayDeterminate(s, ps[..i], total);
      ReplayDeterminate(s, ps[..j], total);
      MebibytesMonotone(ps[i - 1].currentSize, ps[j - 1].currentSize);
      MebibytesMonotone(ps[j - 1].currentSize, total);
    }
  }

  // ---------------------------------------------------------------------
  // Completion and errors

  /** Calls on the platform, the distribution coordinator and the
      preference store, in the order the listener makes them. */
  datatype ListenerEffect =
    | NotifyDownload(release: ReleaseDetails, intent: Intent)
    | StartActivity(intent: Intent)
    | SetInstalling(release: ReleaseDetails)
    | CompleteWorkflow(release: ReleaseDetails)
    | PutString(key: PreferenceKey, text: string)
    | PutInt(key: PreferenceKey, number: Int32)
    | HideOnUiThread(dialog: ProgressDialog)
    | RemoveCheckProgressCallbacks

  /** storeReleaseDetails: group id, release hash, release id. */
  function StoreEffects(release: ReleaseDetails): seq<ListenerEffect> {
    [ PutString(DownloadedDistributionGroupId, release.distributionGroupId),
      PutString(DownloadedReleaseHash, release.releaseHash),
      PutInt(DownloadedReleaseId, release.id) ]
  }

  /** onError: the workflow is completed (the message is only logged). */
  function ErrorEffects(release: ReleaseDetails): seq<ListenerEffect> {
    [CompleteWorkflow(release)]
  }

  /** onComplete, specified. `resolves` says whether the platform finds an
      installer for an intent, `installLater` what `notifyDownload` answers. */
  function CompletionEffects(release: ReleaseDetails, localUri: string, resolves: Intent -> bool,
                             installLater: (ReleaseDetails, Intent) -> bool): seq<ListenerEffect>
  {
    var intent := GetInstallIntent(localUri);
    if !resolves(intent) then ErrorEffects(release)
    else if installLater(release, intent) then [NotifyDownload(release, intent)]
    else
      [NotifyDownload(release, intent), StartActivity(intent)]
      + (if release.mandatoryUpdate then [SetInstalling(release)] else [])
      + StoreEffects(release)
  }

  /** How many times the installer is launched. */
  function Launches(effects: seq<ListenerEffect>): nat {
    if effects == [] then 0
    else Launches(effects[..|effects| - 1]) + (if effects[|effects| - 1].StartActivity? then 1 else 0)
  }

  lemma {:induction false} LaunchesAppend(a: seq<ListenerEffect>, b: seq<ListenerEffect>)
    ensures Launches(a + b) == Launches(a) + Launches(b)
  {
    if b != [] {
      assert (a + b)[..|a + b| - 1] == a + b[..|b| - 1];
      assert (a + b)[|a + b| - 1] == b[|b| - 1];
      LaunchesAppend(a, b[..|b| - 1]);
    } else {
      assert a + b == a;
    }
  }

  /** Without an installer, completion is exactly the error path: the
      workflow is completed and nothing is launched or stored. */
  lemma UnresolvedCompletionIsError(release: ReleaseDetails, localUri: string, resolves: Intent -> bool,
                                    installLater: (ReleaseDetails, Intent) -> bool)
    requires !resolves(GetInstallIntent(localUri))
    ensures CompletionEffects(release, localUri, resolves, installLater) == ErrorEffects(release)
    ensures Launches(CompletionEffects(release, localUri, resolves, installLater)) == 0
  {
    assert ErrorEffects(release)[..0] == [];
  }

  /** A trace without `StartActivity` launches nothing. */
  lemma {:induction false} NoLaunches(effects: seq<ListenerEffect>)
    requires forall e :: e in effects ==> !e.StartActivity?
    ensures Launches(effects) == 0
  {
    if effects != [] {
      NoLaunches(effects[..|effects| - 1]);
    }
  }

  /** The installer is launched exactly once when the coordinator declines
      to install later, and never otherwise. */
  lemma CompletionLaunchesOnce(release: ReleaseDetails, localUri: string, resolves: Intent -> bool,
                               installLater: (ReleaseDetails, Intent) -> bool)
    ensures var intent := GetInstallIntent(localUri);
      Launches(CompletionEffects(release, localUri, resolves, installLater))
      == if resolves(intent) && !installLater(release, intent) then 1 else 0
  {
    var intent := GetInstallIntent(localUri);
    var effects := CompletionEffects(release, localUri, resolves, installLater);
    if resolves(intent) && !installLater(release, intent) {
      var rest := (if release.mandatoryUpdate then [SetInstalling(release)] else []) + StoreEffects(release);
      assert effects == [NotifyDownload(release, intent)] + [StartActivity(intent)] + rest;
      LaunchesAppend([NotifyDownload(release, intent)] + [StartActivity(intent)], rest);
      LaunchesAppend([NotifyDownload(release, intent)], [StartActivity(intent)]);
      NoLaunches([NotifyDownload(release, intent)]);
      NoLaunches(rest);
      assert [StartActivity(intent)][..0] == [];
    } else {
      NoLaunches(effects);
    }
  }

  /** In the launching case the order is: hand-off, launch, then
      setInstalling for a mandatory release, then the three writes. */
  lemma CompletionOrder(release: ReleaseDetails, localUri: string, resolves: Intent -> bool,
                        installLater: (ReleaseDetails, Intent) -> bool)
    requires resolves(GetInstallIntent(localUri))
    requires !installLater(release, GetInstallIntent(localUri))
    ensures var effects := CompletionEffects(release, localUri, resolves, installLater);
            var intent := GetInstallIntent(localUri);
      && effects[..2] == [NotifyDownload(release, intent), StartActivity(intent)]
      && (release.mandatoryUpdate <==> effects[2] == SetInstalling(release))
      && effects[|effects| - 3..] == StoreEffects(release)
      && |effects| == if release.mandatoryUpdate then 6 else 5
  {
  }

  /** setInstalling is called if and only if the installer is launched for
      a mandatory release. */
  lemma SetInstallingIffMandatoryLaunch(release: ReleaseDetails, localUri: string, resolves: Intent -> bool,
                                        installLater: (ReleaseDetails, Intent) -> bool)
    ensures var intent := GetInstallIntent(localUri);
      SetInstalling(release) in CompletionEffects(release, localUri, resolves, installLater)
      <==> resolves(intent) && !installLater(release, intent) && release.mandatoryUpdate
  {
    var intent := GetInstallIntent(localUri);
    var effects := CompletionEffects(release, localUri, resolves, installLater);
    if resolves(intent) && !installLater(release, intent) && !release.mandatoryUpdate {
      assert effects == [NotifyDownload(release, intent), StartActivity(intent)] + StoreEffects(release);
    }
  }

  /** A stored preference value. */
  datatype PreferenceValue = StringValue(text: string) | IntValue(number: Int32)

  /** The preference store after a trace: the writes applied in order. */
  function Persist(prefs: map<PreferenceKey, PreferenceValue>, effects: seq<ListenerEffect>): map<PreferenceKey, PreferenceValue> {
    if effects == [] then prefs
    else
      var before := Persist(prefs, effects[..|effects| - 1]);
      match effects[|effects| - 1]
      case PutString(key, text) => before[key := StringValue(text)]
      case PutInt(key, number) => before[key := IntValue(number)]
      case _ => before
  }

  lemma {:induction false} PersistAppend(prefs: map<PreferenceKey, PreferenceValue>, a: seq<ListenerEffect>, b: seq<ListenerEffect>)
    ensures Persist(prefs, a + b) == Persist(Persist(prefs, a), b)
  {
    if b != [] {
      assert (a + b)[..|a + b| - 1] == a + b[..|b| - 1];
      assert (a + b)[|a + b| - 1] == b[|b| - 1];
      PersistAppend(prefs, a, b[..|b| - 1]);
    } else {
      assert a + b == a;
    }
  }

  /** A trace without preference writes leaves the store as it was. */
  lemma {:induction false} NoWrites(prefs: map<PreferenceKey, PreferenceValue>, effects: seq<ListenerEffect>)
    requires forall e :: e in effects ==> !e.PutString? && !e.PutInt?
    ensures Persist(prefs, effects) == prefs
  {
    if effects != [] {
      NoWrites(prefs, effects[..|effects| - 1]);
    }
  }

  /** After a completion that launches the installer the store holds the
      release's group id, hash and id; after any other completion it is as
      it was. */
  lemma CompletionPersistsRelease(prefs: map<PreferenceKey, PreferenceValue>, release: ReleaseDetails, localUri: string,
                                  resolves: Intent -> bool, installLater: (ReleaseDetails, Intent) -> bool)
    ensures var intent := GetInstallIntent(localUri);
            var stored := Persist(prefs, CompletionEffects(release, localUri, resolves, installLater));
      if resolves(intent) && !installLater(release, intent) then
        stored == prefs[DownloadedDistributionGroupId := StringValue(release.distributionGroupId)]
                       [DownloadedReleaseHash := StringValue(release.releaseHash)]
                       [DownloadedReleaseId := IntValue(release.id)]
      else stored == prefs
  {
    var intent := GetInstallIntent(localUri);
    var effects := CompletionEffects(release, localUri, resolves, installLater);
    if resolves(intent) && !installLater(release, intent) {
      var launch := [NotifyDownload(release, intent), StartActivity(intent)]
                    + (if release.mandatoryUpdate then [SetInstalling(release)] else []);
      var store := StoreEffects(release);
      assert effects == launch + store;
      PersistAppend(prefs, launch, store);
      NoWrites(prefs, launch);
      var first := prefs[DownloadedDistributionGroupId := StringValue(release.distributionGroupId)];
      assert Persist(prefs, store[..1]) == first by {
        assert store[..1][..0] == [];
      }
      assert Persist(prefs, store[..2]) == first[DownloadedReleaseHash := StringValue(release.releaseHash)] by {
        assert store[..2][..1] == store[..1];
      }
      assert store[..|store| - 1] == store[..2];
    } else {
      NoWrites(prefs, effects);
    }
  }

  /** hideProgressDialog: one hide posted to the UI thread and one removal of
      the pending progress checks, only when there was a dialog. */
  function HideEffects(dialog: ProgressDialog?): seq<ListenerEffect> {
    if dialog == null then [] else [HideOnUiThread(dialog), RemoveCheckProgressCallbacks]
  }

  class ReleaseDownloadListener {
    const releaseDetails: ReleaseDetails

    /** The dialog last shown, if any. */
    var progressDialog: ProgressDialog?

    /** Every call made on the platform, the coordinator and the preference
        store, in order. */
    var effects: seq<ListenerEffect>

    constructor (releaseDetails: ReleaseDetails)
      ensures this.releaseDetails == releaseDetails
      ensures progressDialog == null && effects == []
    {
      this.releaseDetails := releaseDetails;
      progressDialog := null;
      effects := [];
    }

    /** onProgress: only a shown dialog and an event with a known total
        change anything. */
    method OnProgress(downloadProgress: DownloadProgress)
      modifies progressDialog
      ensures progressDialog == old(progressDialog) && effects == old(effects)
      ensures progressDialog != null ==> progressDialog.State() == Progressed(old(progressDialog.State()), downloadProgress)
    {
      if progressDialog != null && downloadProgress.totalSize >= 0 {
        if progressDialog.indeterminate {
          progressDialog.SetIndeterminate(false);
          progressDialog.SetMax(Mebibytes(downloadProgress.totalSize));
        }
        progressDialog.SetProgress(Mebibytes(downloadProgress.currentSize));
      }
    }

    /** onComplete. */
    method OnComplete(localUri: string, resolves: Intent -> bool, installLater: (ReleaseDetails, Intent) -> bool)
      modifies this
      ensures progressDialog == old(progressDialog)
      ensures effects == old(effects) + CompletionEffects(releaseDetails, localUri, resolves, installLater)
    {
      var intent := GetInstallIntent(localUri);
      if !resolves(intent) {
        OnError(INSTALLER_NOT_FOUND);
        return;
      }
      var launched := [NotifyDownload(releaseDetails, intent)];
      if !installLater(releaseDetails, intent) {
        launched := launched + [StartActivity(intent)];
        if releaseDetails.mandatoryUpdate {
          launched := launched + [SetInstalling(releaseDetails)];
        }
      }
      effects := effects + launched;
      if !installLater(releaseDetails, intent) {
        StoreReleaseDetails(releaseDetails);
      }
    }

    /** onError. */
    method OnError(errorMessage: string)
      modifies this
      ensures progressDialog == old(progressDialog)
      ensures effects == old(effects) + ErrorEffects(releaseDetails)
    {
      effects := effects + [CompleteWorkflow(releaseDetails)];
    }

    /** storeReleaseDetails. */
    method StoreReleaseDetails(release: ReleaseDetails)
      modifies this
      ensures progressDialog == old(progressDialog)
      ensures effects == old(effects) + StoreEffects(release)
    {
      effects := effects + [PutString(DownloadedDistributionGroupId, release.distributionGroupId)];
      effects := effects + [PutString(DownloadedReleaseHash, release.releaseHash)];
      effects := effects + [PutInt(DownloadedReleaseId, release.id)];
    }

    /** showDownloadProgress: nothing for an optional release; for a
        mandatory one a new non-cancelable, indeterminate dialog that
        becomes the current one. */
    method ShowDownloadProgress() returns (dialog: ProgressDialog?)
      modifies this
      ensures effects == old(effects)
      ensures !releaseDetails.mandatoryUpdate ==> dialog == null && progressDialog == old(progressDialog)
      ensures releaseDetails.mandatoryUpdate ==>
        && dialog != null && fresh(dialog)
        && progressDialog == dialog
        && dialog.indeterminate && !dialog.cancelable
    {
      if !releaseDetails.mandatoryUpdate {
        return null;
      }
      dialog := new ProgressDialog();
      dialog.SetCancelable(false);
      dialog.SetIndeterminate(true);
      progressDialog := dialog;
    }

    /** hideProgressDialog: forget the dialog and post its hiding; without a
        dialog, do nothing, so a second call is a no-op. */
    method HideProgressDialog()
      modifies this
      ensures progressDialog == null
      ensures effects == old(effects) + HideEffects(old(progressDialog))
      ensures old(progressDialog) == null ==> effects == old(effects)
    {
      if progressDialog != null {
        var dialog := progressDialog;
        progressDialog := null;
        effects := effects + [HideOnUiThread(dialog)];
        effects := effects + [RemoveCheckProgressCallbacks];
      }
    }
  }
}
