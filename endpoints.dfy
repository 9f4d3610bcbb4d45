/** The request handling of backend/app/main.py in front of the classifier
    and the chat-completion service: the upload checks of `/predict` and the
    key, model and message assembly of `/chat`.  The PDF text extraction and
    the completion call are foreign code; their outcomes are parameters. */
module Endpoints {
  import opened Wrappers
  import opened Text
  import opened Wire
  import Classifier

  datatype HttpError = HttpError(status: nat, detail: string)

  const PdfType: string := "application/pdf"
  const OctetStream: string := "application/octet-stream"

  /** The content types `/predict` accepts. */
  predicate AcceptedType(contentType: Option<string>) {
    contentType == Some(PdfType) || contentType == Some(OctetStream)
  }

  /** The checks `/predict` makes before parsing: the content type first,
      then a non-empty body.  `None` means the upload passes. */
  function CheckUpload(contentType: Option<string>, body: seq<bv8>): (r: Option<HttpError>)
    ensures r == None <==> AcceptedType(contentType) && |body| > 0
    ensures r.Some? ==> r.value.status == 400
    ensures !AcceptedType(contentType) ==> r == Some(HttpError(400, "Only PDF files are supported"))
    ensures AcceptedType(contentType) && |body| == 0 ==> r == Some(HttpError(400, "Empty file"))
  {
    if !AcceptedType(contentType) then Some(HttpError(400, "Only PDF files are supported"))
    else if |body| == 0 then Some(HttpError(400, "Empty file"))
    else None
  }

  /** `/predict` with the machine-learning model absent: check the upload,
      extract its text (`extracted` is the extractor's outcome for `body`),
      and classify the text with the keyword heuristic. */
  method Predict(contentType: Option<string>, body: seq<bv8>, extracted: Result<string, string>)
    returns (r: Result<Classifier.Prediction, HttpError>)
    ensures CheckUpload(contentType, body).Some? ==> r == Failure(CheckUpload(contentType, body).value)
    ensures CheckUpload(contentType, body).None? && extracted.Failure? ==>
      r == Failure(HttpError(500, "Failed to parse PDF: " + extracted.error))
    ensures CheckUpload(contentType, body).None? && extracted.Success? ==>
      r == Success(Classifier.Classify(extracted.value))
  {
    var rejected := CheckUpload(contentType, body);
    if rejected.Some? {
      return Failure(rejected.value);
    }
    if extracted.Failure? {
      return Failure(HttpError(500, "Failed to parse PDF: " + extracted.error));
    }
    var p := Classifier.PredictCategory(extracted.value);
    r := Success(p);
  }

  /** The response body of a prediction as the browser receives it: the
      confidence rounded to two places is the number `conf100 / 100`. */
  function ToWire(p: Classifier.Prediction): AnalysisResult {
    AnalysisResult(p.category, p.conf100 as real / 100.0, p.skills)
  }

  const ChatSystemPrompt: string :=
    "You are ResumeAI Coach. Provide precise, actionable guidance: resume improvement, "
    + "skill gaps, matching roles based on provided analysis, and concrete next steps."
  const DefaultModel: string := "gpt-4o-mini"
  const MaxTokens: nat := 800
  /** The sampling temperature 0.7, in tenths. */
  const Temperature10: nat := 7

  const MissingKey: HttpError := HttpError(500, "Server missing OPENAI_API_KEY")
  const NoClient: HttpError := HttpError(500, "OpenAI client not installed on server")

  /** The body of a `/chat` request. */
  datatype ChatRequest = ChatRequest(messages: seq<Message>, model: Option<string>)

  /** The call `/chat` makes to the completion service. */
  datatype Completion = Completion(apiKey: string, model: string, messages: seq<Message>, maxTokens: nat, temperature10: nat)

  /** The key `/chat` uses: the `X-OpenAI-Api-Key` header when it is present
      and not empty, otherwise the server's `OPENAI_API_KEY` (`env`, empty
      when unset), with surrounding whitespace removed; an empty key is a 500. */
  function ResolveApiKey(header: Option<string>, env: string): (r: Result<string, HttpError>)
    ensures var raw := if header.Some? && header.value != [] then header.value else env;
      && (r.Failure? <==> AllIn(raw, PyWhitespace))
      && (r.Failure? ==> r.error == MissingKey)
      && (r.Success? ==> r.value == Strip(raw, PyWhitespace) && r.value != [])
  {
    var raw := if header.Some? && header.value != [] then header.value else env;
    var key := Strip(raw, PyWhitespace);
    if key == [] then Failure(MissingKey) else Success(key)
  }

  /** A key that `/chat` accepted has no surrounding whitespace left. */
  lemma ResolvedKeyIsStripped(header: Option<string>, env: string)
    requires ResolveApiKey(header, env).Success?
    ensures var k := ResolveApiKey(header, env).value;
      Strip(k, PyWhitespace) == k && k[0] !in PyWhitespace && k[|k| - 1] !in PyWhitespace
  {
    var raw := if header.Some? && header.value != [] then header.value else env;
    StripIdempotent(raw, PyWhitespace);
  }

  /** `req.model or "gpt-4o-mini"`. */
  function ModelName(model: Option<string>): (m: string)
    ensures m != []
    ensures model.Some? && model.value != [] ==> m == model.value
    ensures model == None || model == Some([]) ==> m == DefaultModel
  {
    if model.Some? && model.value != [] then model.value else DefaultModel
  }

  /** The messages forwarded to the completion service: the coach's system
      message, then each request message copied field by field. */
  function ForwardedMessages(msgs: seq<Message>): (r: seq<Message>)
    ensures |r| == |msgs| + 1
    ensures r[0] == Message("system", ChatSystemPrompt)
    ensures r[1..] == msgs
  {
    var copied := seq(|msgs|, i requires 0 <= i < |msgs| => Message(msgs[i].role, msgs[i].content));
    assert copied == msgs;
    [Message("system", ChatSystemPrompt)] + copied
  }

  /** `/chat` up to the completion call: check that the client library is
      present, resolve the key, choose the model and lay out the messages. */
  function PrepareChat(clientInstalled: bool, req: ChatRequest, header: Option<string>, env: string)
    : (r: Result<Completion, HttpError>)
    ensures !clientInstalled ==> r == Failure(NoClient)
    ensures clientInstalled && ResolveApiKey(header, env).Failure? ==> r == Failure(MissingKey)
    ensures r.Success? ==>
      && clientInstalled
      && r.value.apiKey == ResolveApiKey(header, env).value
      && r.value.model == ModelName(req.model)
      && r.value.messages == ForwardedMessages(req.messages)
      && r.value.maxTokens == MaxTokens && r.value.temperature10 == Temperature10
    ensures clientInstalled && ResolveApiKey(header, env).Success? ==> r.Success?
  {
    if !clientInstalled then Failure(NoClient)
    else
      match ResolveApiKey(header, env)
      case Failure(e) => Failure(e)
      case Success(key) => Success(Completion(key, ModelName(req.model), ForwardedMessages(req.messages), MaxTokens, Temperature10))
  }

  /** `/chat` after the completion call: `outcome` is the first choice's
      content (`None` when it is null) or the text of the raised error. */
  function FinishChat(outcome: Result<Option<string>, string>): (r: Result<string, HttpError>)
    ensures outcome.Success? ==> r == Success(outcome.value.GetOr([]))
    ensures outcome.Failure? ==> r == Failure(HttpError(500, "OpenAI error: " + outcome.error))
  {
    match outcome
    case Success(content) => Success(content.GetOr([]))
    case Failure(e) => Failure(HttpError(500, "OpenAI error: " + e))
  }
}
