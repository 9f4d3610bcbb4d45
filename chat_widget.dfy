/** The chat widget of src/components/OpenAIChat.tsx: the transcript, the
    input box, the loading flag and the cached API key.  `sendMessage` is
    split at its first `await` (the `fetch`): `Send` runs up to the request
    and returns it, `Receive` handles the reply.  The second `await` (reading
    the body as JSON) is folded into the reply parameter: what the body
    yields, or that reading it threw.  Local storage is a map-valued field. */
module ChatWidget {
  import opened Wrappers
  import opened Text
  import opened Wire
  import opened Ui

  /** The local-storage key of the cached API key. */
  const KeyStorageName: string := "openai_api_key"
  const RequestModel: string := "gpt-4o-mini"
  const Preamble: Message := Message("system", "Context: ResumeAI web app user asking for career/resume help.")
  const FallbackReply: string := "Sorry, I could not generate a response."
  const ErrorToast: Toast :=
    Toast("Error", "Failed to get response from OpenAI. Please check your API key and try again.", true)

  /** The request `sendMessage` posts to the service's `/chat` route: the optional
      `X-OpenAI-Api-Key` header and the JSON body `{ model, messages }`. */
  datatype ChatHttpRequest = ChatHttpRequest(apiKeyHeader: Option<string>, model: string, messages: seq<Message>)

  /** One element of the reply's `choices`: its `message?.content`. */
  datatype Choice = Choice(content: Option<string>)

  /** How the request ended: an exception (network failure or a body that is
      not JSON), a non-ok status, or an ok status with the body's `choices`
      field (`None` when the body has none). */
  datatype ChatReply = Thrown | NotOk | Ok(choices: Option<seq<Choice>>)

  /** A message is blank when trimming leaves nothing. */
  predicate Blank(s: string) {
    AllIn(s, JsWhitespace)
  }

  /** The header rule: `X-OpenAI-Api-Key` carries the trimmed key, and is
      attached exactly when that is not empty. */
  function KeyHeader(apiKey: string): (h: Option<string>)
    ensures h.Some? <==> !Blank(apiKey)
    ensures h.Some? ==> h.value == Strip(apiKey, JsWhitespace) && h.value != []
  {
    var k := Strip(apiKey, JsWhitespace);
    if k == [] then None else Some(k)
  }

  /** `data.choices[0]?.message?.content || fallback` on an ok body: `None`
      when reading it throws (the body has no `choices`), the fallback text
      when the first choice is missing or its content is missing or empty. */
  function ReplyText(choices: Option<seq<Choice>>): (t: Option<string>)
    ensures t.None? <==> choices.None?
    ensures t.Some? ==> t.value != []
    ensures t.Some? && t.value != FallbackReply ==>
      |choices.value| > 0 && choices.value[0].content == Some(t.value)
    ensures choices.Some? && |choices.value| > 0 && choices.value[0].content.Some? && choices.value[0].content.value != [] ==>
      t == Some(choices.value[0].content.value)
    ensures choices.Some? && !(|choices.value| > 0 && choices.value[0].content.Some? && choices.value[0].content.value != []) ==>
      t == Some(FallbackReply)
  {
    match choices
    case None => None
    case Some(cs) =>
      if |cs| > 0 && cs[0].content.Some? && cs[0].content.value != [] then Some(cs[0].content.value)
      else Some(FallbackReply)
  }

  class Widget {
    var apiKey: string
    var message: string
    var messages: seq<Message>
    var isLoading: bool
    var storage: map<string, string>
    var toasts: seq<Toast>

    /** The key field mirrors what local storage holds for it. */
    ghost predicate KeySynced()
      reads this
    {
      apiKey == if KeyStorageName in storage then storage[KeyStorageName] else []
    }

    /** The widget as it mounts: the key is read from local storage (empty
        when absent), the transcript and the input are empty. */
    constructor (storage0: map<string, string>)
      ensures KeySynced()
      ensures storage == storage0 && message == [] && messages == [] && !isLoading && toasts == []
    {
      apiKey := if KeyStorageName in storage0 then storage0[KeyStorageName] else [];
      storage := storage0;
      message, messages, isLoading, toasts := [], [], false, [];
    }

    /** The key input's change handler: state and storage get the same value. */
    method EditApiKey(v: string)
      modifies this`apiKey, this`storage
      ensures apiKey == v && storage == old(storage)[KeyStorageName := v]
      ensures KeySynced()
    {
      apiKey := v;
      storage := storage[KeyStorageName := v];
    }

    /** The message box's change handler. */
    method EditMessage(v: string)
      modifies this`message
      ensures message == v
    {
      message := v;
    }

    /** The Send button is disabled while loading or while the input is blank
        (the Enter key calls `Send` without this check). */
    function SendDisabled(): bool
      reads this
    {
      isLoading || Blank(message)
    }

    /** A click on the Send button: a disabled button does nothing. */
    method ClickSend() returns (request: Option<ChatHttpRequest>)
      modifies this`message, this`messages, this`isLoading
      ensures old(isLoading) ==> request == None && messages == old(messages) && message == old(message) && isLoading
      ensures !old(isLoading) && Blank(old(message)) ==>
        request == None && messages == old(messages) && message == old(message) && !isLoading
      ensures !old(isLoading) && !Blank(old(message)) ==>
        var user := Message("user", Strip(old(message), JsWhitespace));
        && message == []
        && messages == old(messages) + [user]
        && isLoading
        && request == Some(ChatHttpRequest(KeyHeader(apiKey), RequestModel, [Preamble] + old(messages) + [user]))
    {
      if SendDisabled() {
        request := None;
      } else {
        request := Send();
      }
    }

    /** `handleKeyPress`: Enter without Shift sends, whether or not a request
        is outstanding; any other key does nothing here. */
    method KeyPress(enter: bool, shift: bool) returns (request: Option<ChatHttpRequest>)
      modifies this`message, this`messages, this`isLoading
      ensures !(enter && !shift) || Blank(old(message)) ==>
        request == None && messages == old(messages) && message == old(message) && isLoading == old(isLoading)
      ensures enter && !shift && !Blank(old(message)) ==>
        var user := Message("user", Strip(old(message), JsWhitespace));
        && message == []
        && messages == old(messages) + [user]
        && isLoading
        && request == Some(ChatHttpRequest(KeyHeader(apiKey), RequestModel, [Preamble] + old(messages) + [user]))
    {
      if enter && !shift {
        request := Send();
      } else {
        request := None;
      }
    }

    /** `sendMessage` up to the request.  A blank input changes nothing and
        sends nothing.  Otherwise the input is cleared, the trimmed message is
        appended as a user entry, loading starts, and the request carries the
        preamble, the transcript as it was, and the new user entry. */
    method Send() returns (request: Option<ChatHttpRequest>)
      modifies this`message, this`messages, this`isLoading
      ensures Blank(old(message)) ==>
        request == None && message == old(message) && messages == old(messages) && isLoading == old(isLoading)
      ensures !Blank(old(message)) ==>
        var user := Message("user", Strip(old(message), JsWhitespace));
        && message == []
        && messages == old(messages) + [user]
        && isLoading
        && request == Some(ChatHttpRequest(KeyHeader(apiKey), RequestModel, [Preamble] + old(messages) + [user]))
      ensures KeySynced() && request.Some? ==>
        request.value.apiKeyHeader == KeyHeader(if KeyStorageName in storage then storage[KeyStorageName] else [])
    {
      var userMessage := Strip(message, JsWhitespace);
      if userMessage == [] {
        return None;
      }
      var prior := messages;
      message := [];
      messages := messages + [Message("user", userMessage)];
      isLoading := true;
      request := Some(ChatHttpRequest(KeyHeader(apiKey), RequestModel,
                                      [Preamble] + prior + [Message("user", userMessage)]));
    }

    /** `sendMessage` after the request.  A readable ok reply appends exactly
        one assistant entry; anything else raises the error toast and leaves
        the transcript as it is.  Loading ends in every case. */
    method Receive(reply: ChatReply)
      modifies this`messages, this`isLoading, this`toasts
      ensures !isLoading
      ensures reply.Ok? && ReplyText(reply.choices).Some? ==>
        messages == old(messages) + [Message("assistant", ReplyText(reply.choices).value)] && toasts == old(toasts)
      ensures !(reply.Ok? && ReplyText(reply.choices).Some?) ==>
        messages == old(messages) && toasts == old(toasts) + [ErrorToast]
    {
      var text := if reply.Ok? then ReplyText(reply.choices) else None;
      if text.Some? {
        messages := messages + [Message("assistant", text.value)];
      } else {
        toasts := toasts + [ErrorToast];
      }
      isLoading := false;
    }
  }

  /** A successful exchange appends exactly two entries, the user's trimmed
      message and then the assistant's reply. */
  method Exchange(w: Widget, reply: ChatReply) returns (request: Option<ChatHttpRequest>)
    requires !Blank(w.message)
    requires reply.Ok? && reply.choices.Some?
    modifies w
    ensures request.Some?
    ensures w.messages == old(w.messages) + [Message("user", Strip(old(w.message), JsWhitespace)),
                                             Message("assistant", ReplyText(reply.choices).value)]
    ensures !w.isLoading
  {
    request := w.Send();
    w.Receive(reply);
  }
}
