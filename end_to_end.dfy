/** Facts that connect the backend with the browser pages: what the result
    view shows for a heuristic prediction, how the upload page's type gate
    relates to the service's, and what becomes of a chat request and of the
    service's chat reply. */
module EndToEnd {
  import opened Wrappers
  import opened Wire
  import Classifier
  import Endpoints
  import ResultPage
  import UploadPage
  import ChatWidget
  import Text

  /** For a heuristic prediction the page shows the confidence hundredths as
      the percentage (50 to 95), and the label is "Low" when nothing matched,
      "Medium" for a best score of one or two keywords and "High" from three. */
  lemma HeuristicLabel(text: string)
    ensures var p := Classifier.Classify(text);
      var best := Classifier.BestScore(Classifier.Scores(Classifier.Categories, Text.Lower(text)));
      var screen := ResultPage.Render(Endpoints.ToWire(p));
      && screen.percentage == p.conf100
      && 50 <= screen.percentage <= 95
      && (screen.level == "High" <==> best >= 3)
      && (screen.level == "Medium" <==> 1 <= best <= 2)
      && (screen.level == "Low" <==> best == 0)
  {
    var low := Text.Lower(text);
    Classifier.PickConfidence(Classifier.Categories, low);
    ConfidenceLabel(Classifier.BestScore(Classifier.Scores(Classifier.Categories, low)), Classifier.Classify(text));
  }

  /** The view of a prediction whose confidence is that of the score `best`. */
  lemma ConfidenceLabel(best: nat, p: Classifier.Prediction)
    requires p.conf100 == Classifier.Conf100(best)
    ensures var screen := ResultPage.Render(Endpoints.ToWire(p));
      && screen.percentage == p.conf100
      && 50 <= screen.percentage <= 95
      && (screen.level == "High" <==> best >= 3)
      && (screen.level == "Medium" <==> 1 <= best <= 2)
      && (screen.level == "Low" <==> best == 0)
  {
    ResultPage.HundredthsView(p.conf100);
  }

  /** Every file the upload page accepts passes the service's type check; the
      only rejection left before parsing is an empty body. */
  lemma AcceptedUploadPassesTypeCheck(files: seq<UploadPage.FileInfo>, body: seq<bv8>)
    requires UploadPage.AcceptsFirst(files)
    ensures Endpoints.AcceptedType(Some(files[0].mimeType))
    ensures Endpoints.CheckUpload(Some(files[0].mimeType), body) == None <==> |body| > 0
  {
  }

  /** The completion call made for a chat request from the widget: the
      service's system message, the widget's preamble, the widget's transcript
      and the new user message, with the widget's model. */
  lemma WidgetRequestForwarded(req: ChatWidget.ChatHttpRequest, env: string)
    requires Endpoints.ResolveApiKey(req.apiKeyHeader, env).Success?
    ensures var c := Endpoints.PrepareChat(true, Endpoints.ChatRequest(req.messages, Some(req.model)), req.apiKeyHeader, env);
      && c.Success?
      && c.value.messages == [Message("system", Endpoints.ChatSystemPrompt)] + req.messages
      && (req.model == ChatWidget.RequestModel ==> c.value.model == Endpoints.DefaultModel)
  {
  }

  /** How the widget sees the service's `/chat` reply: a success body is
      `{ content }`, which has no `choices` field; an HTTP error is a non-ok
      status. */
  function WidgetView(r: Result<string, Endpoints.HttpError>): ChatWidget.ChatReply {
    match r
    case Success(_) => ChatWidget.Ok(None)
    case Failure(_) => ChatWidget.NotOk
  }

  /** Against this service no reply yields an assistant entry: reading
      `choices[0]` of a `{ content }` body throws, so every outcome takes the
      widget's error path. */
  lemma ServiceReplyTakesErrorPath(outcome: Result<Option<string>, string>)
    ensures var reply := WidgetView(Endpoints.FinishChat(outcome));
      !(reply.Ok? && ChatWidget.ReplyText(reply.choices).Some?)
  {
  }
}
