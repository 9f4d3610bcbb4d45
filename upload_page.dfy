/** The upload page of src/pages/Upload.tsx: PDF-only file selection by
    picker or drag and drop, the busy flag around the `/predict` request, and
    the hand-off of the result to session storage and the result view.  The
    network response, the toasts and the navigations are explicit: the
    response is a parameter, toasts and navigations are logged in fields,
    and session storage is a map-valued field. */
module UploadPage {
  import opened Wrappers
  import opened Wire
  import opened Ui
  import ResultPage

  const PdfType: string := "application/pdf"
  const ResultPath: string := "/result"

  /** A file the browser hands over: name, declared MIME type, size in bytes. */
  datatype FileInfo = FileInfo(name: string, mimeType: string, size: nat)

  /** How the `/predict` request ended: an exception with its message (the
      network failed or an ok body was not JSON), a non-ok status with the
      body's `detail` (empty when absent or unreadable), or an ok status with
      the parsed analysis. */
  datatype PredictReply = Thrown(message: string) | NotOk(detail: string) | Ok(result: AnalysisResult)

  const InvalidTypeToast: Toast := Toast("Invalid file type", "Please upload a PDF file only.", true)
  const CompleteToast: Toast := Toast("Analysis Complete!", "Your resume has been successfully analyzed.", false)

  /** The first of the offered files, when it is a PDF. */
  predicate AcceptsFirst(files: seq<FileInfo>) {
    |files| > 0 && files[0].mimeType == PdfType
  }

  /** The description of the failure toast: the server's `detail`, or a
      fixed text, for a non-ok status; the exception's message, or a fixed
      text, otherwise. */
  function FailureText(reply: PredictReply): (t: string)
    requires !reply.Ok?
    ensures t != []
    ensures reply.NotOk? ==> t == if reply.detail != [] then reply.detail else "Failed to analyze resume"
    ensures reply.Thrown? && reply.message != [] ==> t == reply.message
    ensures reply.Thrown? && reply.message == [] ==> t == "There was an error analyzing your resume. Please try again."
  {
    match reply
    case NotOk(detail) => if detail != [] then detail else "Failed to analyze resume"
    case Thrown(message) =>
      if message != [] then message else "There was an error analyzing your resume. Please try again."
  }

  class Page {
    var file: Option<FileInfo>
    var isAnalyzing: bool
    var dragOver: bool
    var session: map<string, AnalysisResult>
    var toasts: seq<Toast>
    var navigations: seq<string>

    /** A selected file is always a PDF. */
    ghost predicate Valid()
      reads this
    {
      file.Some? ==> file.value.mimeType == PdfType
    }

    /** The page as it mounts, over the tab's session storage. */
    constructor (session0: map<string, AnalysisResult>)
      ensures Valid()
      ensures file == None && !isAnalyzing && !dragOver
      ensures session == session0 && toasts == [] && navigations == []
    {
      file, isAnalyzing, dragOver := None, false, false;
      session, toasts, navigations := session0, [], [];
    }

    /** The Analyze button is shown with a selected file and is disabled
        while a request is outstanding. */
    function AnalyzeEnabled(): bool
      reads this
    {
      file.Some? && !isAnalyzing
    }

    /** `handleDragOver`. */
    method DragOver()
      modifies this`dragOver
      ensures dragOver
    {
      dragOver := true;
    }

    /** `handleDragLeave`. */
    method DragLeave()
      modifies this`dragOver
      ensures !dragOver
    {
      dragOver := false;
    }

    /** `handleDrop`: clear the drag highlight, then take the first dropped
        file if it is a PDF, otherwise keep the selection and raise a toast. */
    method Drop(files: seq<FileInfo>)
      requires Valid()
      modifies this`dragOver, this`file, this`toasts
      ensures Valid() && !dragOver
      ensures AcceptsFirst(files) ==> file == Some(files[0]) && toasts == old(toasts)
      ensures !AcceptsFirst(files) ==> file == old(file) && toasts == old(toasts) + [InvalidTypeToast]
    {
      dragOver := false;
      Accept(files);
    }

    /** `handleFileSelect`: the same PDF gate for the file picker. */
    method SelectFile(files: seq<FileInfo>)
      requires Valid()
      modifies this`file, this`toasts
      ensures Valid()
      ensures AcceptsFirst(files) ==> file == Some(files[0]) && toasts == old(toasts)
      ensures !AcceptsFirst(files) ==> file == old(file) && toasts == old(toasts) + [InvalidTypeToast]
    {
      Accept(files);
    }

    /** The type gate shared by drop and picker. */
    method Accept(files: seq<FileInfo>)
      requires Valid()
      modifies this`file, this`toasts
      ensures Valid()
      ensures AcceptsFirst(files) ==> file == Some(files[0]) && toasts == old(toasts)
      ensures !AcceptsFirst(files) ==> file == old(file) && toasts == old(toasts) + [InvalidTypeToast]
    {
      if AcceptsFirst(files) {
        file := Some(files[0]);
      } else {
        toasts := toasts + [InvalidTypeToast];
      }
    }

    /** `removeFile`. */
    method RemoveFile()
      modifies this`file
      ensures file == None && Valid()
    {
      file := None;
    }

    /** The first half of `handleAnalyze`, up to the request: nothing happens
        without a selected file; otherwise the page becomes busy and posts the
        file, which is returned. */
    method BeginAnalyze() returns (request: Option<FileInfo>)
      modifies this`isAnalyzing
      ensures request == file
      ensures file.None? ==> isAnalyzing == old(isAnalyzing)
      ensures file.Some? ==> isAnalyzing
    {
      if file.None? {
        return None;
      }
      isAnalyzing := true;
      request := file;
    }

    /** A click on the Analyze button: a disabled button does nothing, so no
        second request starts while one is outstanding. */
    method ClickAnalyze() returns (request: Option<FileInfo>)
      modifies this`isAnalyzing
      ensures old(isAnalyzing) ==> request == None && isAnalyzing
      ensures !old(isAnalyzing) ==> request == file && isAnalyzing == file.Some?
    {
      if AnalyzeEnabled() {
        request := BeginAnalyze();
      } else {
        request := None;
      }
    }

    /** The second half of `handleAnalyze`, when the request has ended.  On
        an ok reply the analysis is stored under "analysisResult", a success
        toast is raised and the view moves to "/result"; otherwise a failure
        toast is raised and nothing is stored or navigated.  The selection is
        untouched and the page is no longer busy, whatever the outcome. */
    method FinishAnalyze(reply: PredictReply)
      requires Valid()
      modifies this`isAnalyzing, this`session, this`toasts, this`navigations
      ensures Valid() && !isAnalyzing
      ensures reply.Ok? ==>
        && session == old(session)[ResultPage.StorageKey := reply.result]
        && toasts == old(toasts) + [CompleteToast]
        && navigations == old(navigations) + [ResultPath]
      ensures reply.Ok? ==> ResultPage.OnMount(session) == ResultPage.Show(ResultPage.Render(reply.result))
      ensures !reply.Ok? ==>
        && session == old(session)
        && toasts == old(toasts) + [Toast("Analysis Failed", FailureText(reply), true)]
        && navigations == old(navigations)
    {
      if reply.Ok? {
        session := session[ResultPage.StorageKey := reply.result];
        toasts := toasts + [CompleteToast];
        navigations := navigations + [ResultPath];
      } else {
        toasts := toasts + [Toast("Analysis Failed", FailureText(reply), true)];
      }
      isAnalyzing := false;
    }
  }

  /** Once a request is outstanding, further clicks start nothing until it
      ends, and after it ends the page is idle again with the same file. */
  method AnalyzeOnce(page: Page, reply: PredictReply) returns (first: Option<FileInfo>, second: Option<FileInfo>)
    requires page.Valid() && page.file.Some? && !page.isAnalyzing
    modifies page
    ensures first == old(page.file) && second == None
    ensures page.Valid() && !page.isAnalyzing && page.file == old(page.file)
  {
    first := page.ClickAnalyze();
    second := page.ClickAnalyze();
    page.FinishAnalyze(reply);
  }
}
