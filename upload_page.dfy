/** The upload page (app/upload/page.tsx): the access gate in front of it
    and the state machine of one analysis. The six `useState` fields are the
    fields of `UploadPage`; the ghost `statusLog` records, in order, every
    status the code sets together with the progress at that moment, so that
    the passage through "uploading" can be stated although it is never
    awaited. */
module UploadPage {
  import opened Wrappers
  import opened Http
  import opened FoodTypes
  import opened AuthTypes
  import AuthContext
  import Api

  const AnalyzeFallback := "分析失敗，請重試"
  const LoginRequired := "請先登入以使用此功能"
  const AdminOnly := "此功能僅限管理員使用"

  /** The largest file the drop zone accepts: 10 MB. */
  const MaxUploadBytes := 10 * 1024 * 1024

  /** `UploadStatus`; its "error" is `Failed` here. */
  datatype UploadStatus = Idle | Uploading | Analyzing | Success | Failed

  /** A file the drop zone accepted. */
  datatype SelectedFile = SelectedFile(name: string, size: nat)

  /** What the page renders before its workspace. */
  datatype GateView = Spinner | Denied(message: string) | Workspace

  /** The access gate: a spinner while the session loads, then a denial
      unless the visitor is an authenticated admin, worded by whether they
      are logged in at all. */
  function Gate(isLoading: bool, isAuthenticated: bool, isAdmin: bool): (g: GateView)
    ensures g.Spinner? <==> isLoading
    ensures g.Workspace? <==> !isLoading && isAuthenticated && isAdmin
    ensures g.Denied? ==> (g.message == LoginRequired <==> !isAuthenticated)
    ensures g.Denied? ==> g.message == LoginRequired || g.message == AdminOnly
  {
    if isLoading then Spinner
    else if !isAuthenticated || !isAdmin then
      Denied(if !isAuthenticated then LoginRequired else AdminOnly)
    else Workspace
  }

  /** Fed by the session provider, the gate opens exactly for a logged-in
      admin once the session has loaded, and the admin-only wording is shown
      exactly to a logged-in non-admin. */
  lemma GateOnSession(user: Option<User>, isLoading: bool, error: Option<string>)
    ensures var v := AuthContext.ContextValue(user, isLoading, error);
            var g := Gate(v.isLoading, v.isAuthenticated, v.isAdmin);
            (g.Workspace? <==> !isLoading && user.Some? && user.value.role == Admin)
            && (g == Denied(AdminOnly) <==> !isLoading && user.Some? && user.value.role != Admin)
  {
  }

  /** The buttons of the preview pane. */
  datatype Control =
    | RemoveFile          // the corner "X"
    | StartAnalysis       // "開始分析"
    | AnalysisInProgress  // the disabled "分析中..."
    | Reupload            // "重新上傳"
    | ViewDetails(id: int)  // "查看詳情", to the record's page

  /** The buttons on offer. Without a preview the drop zone is shown instead
      and there are none. */
  function Controls(status: UploadStatus, hasPreview: bool, result: Option<CannedFood>): (cs: set<Control>)
    ensures !hasPreview ==> cs == {}
    ensures StartAnalysis in cs <==> hasPreview && status == Idle
    ensures RemoveFile in cs <==> hasPreview && status == Idle
    ensures Reupload in cs <==> hasPreview && (status == Success || status == Failed)
    ensures forall id :: ViewDetails(id) in cs <==>
              hasPreview && status == Success && result.Some? && result.value.id == id
  {
    if !hasPreview then {}
    else
      (if status == Idle then {RemoveFile, StartAnalysis} else {})
      + (if status == Uploading || status == Analyzing then {AnalysisInProgress} else {})
      + (if status == Success || status == Failed then {Reupload} else {})
      + (if status == Success && result.Some? then {ViewDetails(result.value.id)} else {})
  }

  class UploadPage {
    var file: Option<SelectedFile>
    var preview: Option<string>
    var status: UploadStatus
    var progress: int
    var error: Option<string>
    var result: Option<CannedFood>
    ghost var statusLog: seq<(UploadStatus, int)>

    /** A file is selected exactly when it has a preview; a success has its
        record and full progress; a failure has its message; a fresh
        selection has neither. */
    ghost predicate Valid()
      reads this
    {
      && (file.Some? <==> preview.Some?)
      && (status == Success ==> result.Some? && progress == 100)
      && (status == Failed ==> error.Some?)
      && (status == Idle ==> error.None? && result.None?)
      && (status == Uploading || status == Analyzing ==> file.Some?)
    }

    constructor()
      ensures Valid()
      ensures file.None? && preview.None? && status == Idle && progress == 0
      ensures error.None? && result.None? && statusLog == []
    {
      file := None;
      preview := None;
      status := Idle;
      progress := 0;
      error := None;
      result := None;
      statusLog := [];
    }

    /** `onDrop(acceptedFiles)`: the first accepted file becomes the
        selection, with `objectUrl` (what `URL.createObjectURL` returns for
        it) as its preview, and any previous outcome is cleared; progress is
        left as it was. An empty drop changes nothing. */
    method OnDrop(acceptedFiles: seq<SelectedFile>, objectUrl: string)
      requires Valid()
      modifies this
      ensures Valid()
      ensures |acceptedFiles| == 0 ==>
                file == old(file) && preview == old(preview) && status == old(status)
                && progress == old(progress) && error == old(error) && result == old(result)
                && statusLog == old(statusLog)
      ensures |acceptedFiles| > 0 ==>
                file == Some(acceptedFiles[0]) && preview == Some(objectUrl) && status == Idle
                && progress == old(progress) && error.None? && result.None?
                && statusLog == old(statusLog) + [(Idle, old(progress))]
    {
      if |acceptedFiles| > 0 {
        var selectedFile := acceptedFiles[0];
        file := Some(selectedFile);
        preview := Some(objectUrl);
        status := Idle;
        statusLog := statusLog + [(status, progress)];
        error := None;
        result := None;
      }
    }

    /** What `handleAnalyze` does before its `await`. Without a file it
        returns at once; otherwise the status passes "uploading" at 20 % to
        "analyzing" at 50 %, and the file is sent for analysis. */
    method HandleAnalyzeStart() returns (sent: Option<SelectedFile>)
      requires Valid()
      modifies this`status, this`progress, this`statusLog
      ensures Valid()
      ensures sent == old(file)
      ensures old(file).None? ==>
                status == old(status) && progress == old(progress) && statusLog == old(statusLog)
      ensures old(file).Some? ==>
                status == Analyzing && progress == 50
                && statusLog == old(statusLog) + [(Uploading, 20), (Analyzing, 50)]
    {
      if file.None? {
        return None;
      }
      status := Uploading;
      progress := 20;
      statusLog := statusLog + [(status, progress)];
      status := Analyzing;
      progress := 50;
      statusLog := statusLog + [(status, progress)];
      sent := file;
    }

    /** What `handleAnalyze` does once `analyzeImage` has settled: success
        fills the progress bar and keeps the analysed record; a failure shows
        the error's message (or "分析失敗，請重試" for a non-Error) and leaves
        the file, its preview and the progress as they were. */
    method HandleAnalyzeSettle(outcome: Completion<AnalyzeResponse>)
      requires Valid() && status == Analyzing
      modifies this`status, this`progress, this`error, this`result, this`statusLog
      ensures Valid()
      ensures outcome.Return? ==>
                status == Success && progress == 100 && result == Some(outcome.value.data)
                && error == old(error) && statusLog == old(statusLog) + [(Success, 100)]
      ensures outcome.Throw? ==>
                status == Failed && progress == old(progress) && result == old(result)
                && error == Some(MessageOr(outcome.thrown, AnalyzeFallback))
                && statusLog == old(statusLog) + [(Failed, old(progress))]
    {
      match outcome {
        case Return(response) =>
          progress := 100;
          status := Success;
          statusLog := statusLog + [(status, progress)];
          result := Some(response.data);
        case Throw(err) =>
          status := Failed;
          statusLog := statusLog + [(status, progress)];
          error := Some(MessageOr(err, AnalyzeFallback));
      }
    }

    /** A whole `handleAnalyze()` against the analysis endpoint's answer:
        nothing without a file; otherwise success with the returned record,
        or a failure carrying the message `analyzeImage` throws, with the
        selection kept and the bar at 50 %. */
    method HandleAnalyze(resp: Response<AnalyzeResponse>)
      requires Valid()
      modifies this`status, this`progress, this`error, this`result, this`statusLog
      ensures Valid()
      ensures old(file).None? ==>
                status == old(status) && progress == old(progress) && error == old(error)
                && result == old(result) && statusLog == old(statusLog)
      ensures old(file).Some? && resp.Ok? ==>
                status == Success && progress == 100 && result == Some(resp.body.data)
                && statusLog == old(statusLog) + [(Uploading, 20), (Analyzing, 50), (Success, 100)]
      ensures old(file).Some? && resp.NonOk? ==>
                status == Failed && progress == 50
                && error == Some(Api.AnalyzeError(resp.errorBody).message)
                && statusLog == old(statusLog) + [(Uploading, 20), (Analyzing, 50), (Failed, 50)]
      ensures old(file).Some? && !resp.Ok? ==> status == Failed && progress == 50
      ensures old(file).Some? && !resp.Ok? ==> error == Some(MessageOr(Api.AnalyzeImage(resp).thrown, AnalyzeFallback))
    {
      var sent := HandleAnalyzeStart();
      if sent.None? {
        return;
      }
      HandleAnalyzeSettle(Api.AnalyzeImage(resp));
    }

    /** `handleReset()`: every field back to its initial value. */
    method HandleReset()
      requires Valid()
      modifies this
      ensures Valid()
      ensures file.None? && preview.None? && status == Idle && progress == 0
      ensures error.None? && result.None?
      ensures statusLog == old(statusLog) + [(Idle, 0)]
    {
      file := None;
      preview := None;
      status := Idle;
      progress := 0;
      statusLog := statusLog + [(status, progress)];
      error := None;
      result := None;
    }

    function OfferedControls(): set<Control>
      reads this
    {
      Controls(status, preview.Some?, result)
    }

    /** A finished analysis always offers its record's page and a fresh
        upload, and never the analysis button; a failed one offers only the
        fresh upload. */
    lemma FinishedControls()
      requires Valid() && preview.Some?
      ensures status == Success ==>
                ViewDetails(result.value.id) in OfferedControls() && Reupload in OfferedControls()
                && StartAnalysis !in OfferedControls()
      ensures status == Failed ==> OfferedControls() == {Reupload}
    {
      if status == Failed {
        assert forall c :: c in OfferedControls() ==> c == Reupload;
      }
    }
  }
}
