/** The chat panel of ChatSection.jsx: the message list, the send guard, the
    reply chosen for each server answer, and the "stochify:viz" event handed to
    the visual panel.  `handleSend` is split at its `await`: `BeginSend` is what
    happens before the request leaves, `CompleteSend` what happens once the
    answer (or the failure) is in. */
module ChatSection {
  import opened Text
  import opened Options
  import opened JsonValue
  import VisualSection

  datatype Role = User | Assistant

  /** A chat message.  Its content is whatever value was pushed: a string for
      the user's text and the fixed replies, any JSON value for a reply taken
      from the server. */
  datatype Message = Message(role: Role, content: Json)

  /** A thrown value: its `message` property ("" when it has none) and its
      string conversion. */
  datatype Fault = Fault(message: string, text: string)

  /** The fields of a successful answer; an absent text field is "", an absent
      `chat_response` is `None`. */
  datatype ChatData = ChatData(analysis: string, dimension: string, code: string, chatResponse: Option<Json>)

  /** What the request came to: a thrown fault (from `fetch`, `res.text()` or
      `res.json()`), a response that is not ok, or the parsed body. */
  datatype Response =
    | Failed(fault: Fault)
    | NotOk(status: nat, body: string)
    | Ok(data: ChatData)

  const Warning := "\U{26A0}\U{FE0F}"
  const Ready := "\U{2705} Visualization ready."

  /** JavaScript's truthiness of a JSON value; `undefined` (an absent field) is
      falsy as well. */
  predicate Truthy(v: Json) {
    match v
    case JNull => false
    case JBool(b) => b
    case JNumber(n) => n != 0
    case JString(s) => s != ""
    case JArray(_) => true
    case JObject(_) => true
  }

  // ---------------------------------------------------------------------------
  // Decimal text of the status code
  // ---------------------------------------------------------------------------

  function DigitChar(d: nat): char
    requires d < 10
  {
    ('0' as int + d) as char
  }

  predicate IsDigit(c: char) {
    '0' <= c <= '9'
  }

  /** The value of a string of decimal digits. */
  function DigitsValue(s: string): nat
    requires forall k | 0 <= k < |s| :: IsDigit(s[k])
    decreases |s|
  {
    if s == [] then 0
    else
      assert IsDigit(s[|s| - 1]);
      10 * DigitsValue(s[..|s| - 1]) + (s[|s| - 1] as int - '0' as int)
  }

  /** `${n}` for a natural number: decimal digits, no leading zero. */
  function Decimal(n: nat): (s: string)
    ensures s != [] && (forall k | 0 <= k < |s| :: IsDigit(s[k]))
    ensures s[0] == '0' ==> n == 0
    decreases n
  {
    if n < 10 then [DigitChar(n)] else Decimal(n / 10) + [DigitChar(n % 10)]
  }

  /** Reading the digits back gives the number. */
  lemma {:induction false} DecimalRoundTrip(n: nat)
    ensures DigitsValue(Decimal(n)) == n
    decreases n
  {
    var s := Decimal(n);
    if n >= 10 {
      assert s[..|s| - 1] == Decimal(n / 10);
      DecimalRoundTrip(n / 10);
    }
  }

  // ---------------------------------------------------------------------------
  // Reply texts
  // ---------------------------------------------------------------------------

  /** `⚠️ Server error (${res.status}): ${t || "unknown"}` */
  function ServerErrorText(status: nat, body: string): (t: string)
    ensures IsPrefix(Warning + " Server error (" + Decimal(status) + "): ", t)
    ensures t[|Warning + " Server error (" + Decimal(status) + "): "|..] == if body != "" then body else "unknown"
  {
    var head := Warning + " Server error (" + Decimal(status) + "): ";
    var t := head + (if body != "" then body else "unknown");
    assert t[..|head|] == head;
    t
  }

  /** `⚠️ Network error: ${err?.message || err}` */
  function NetworkErrorText(f: Fault): (t: string)
    ensures IsPrefix(Warning + " Network error: ", t)
    ensures t[|Warning| + 16..] == if f.message != "" then f.message else f.text
  {
    Warning + " Network error: " + (if f.message != "" then f.message else f.text)
  }

  /** `parsed.chat_response` when it is truthy.  Only an object has the
      property; on `null` the read throws, and the surrounding `catch` falls
      back like every other missing reply. */
  function AnalysisReply(parsed: Option<Json>): (r: Option<Json>)
    ensures r.Some? <==>
              parsed.Some? && parsed.value.JObject? && "chat_response" in parsed.value.fields
              && Truthy(parsed.value.fields["chat_response"])
    ensures r.Some? ==> r.value == parsed.value.fields["chat_response"] && Truthy(r.value)
  {
    match parsed
    case Some(JObject(fields)) =>
      if "chat_response" in fields && Truthy(fields["chat_response"])
      then Some(fields["chat_response"]) else None
    case _ => None
  }

  /** The answer carries a truthy `chat_response` of its own. */
  predicate HasOwnReply(data: ChatData) {
    data.chatResponse.Some? && Truthy(data.chatResponse.value)
  }

  /** Lines 41-49: the answer's own `chat_response` when truthy, else the one
      inside the analysis, else the fixed "ready" text.  `parse` stands for
      `JSON.parse`. */
  function ChooseReply(data: ChatData, parse: string -> Option<Json>): (reply: Json)
    ensures Truthy(reply)
    ensures HasOwnReply(data) ==> reply == data.chatResponse.value
    ensures !HasOwnReply(data) && AnalysisReply(parse(data.analysis)).Some? ==>
              reply == AnalysisReply(parse(data.analysis)).value
    ensures !HasOwnReply(data) && AnalysisReply(parse(data.analysis)).None? ==> reply == JString(Ready)
  {
    if HasOwnReply(data) then data.chatResponse.value
    else match AnalysisReply(parse(data.analysis))
      case Some(r) => r
      case None => JString(Ready)
  }

  /** The assistant message a completed request adds. */
  function ReplyFor(response: Response, parse: string -> Option<Json>): (m: Message)
    ensures m.role == Assistant && Truthy(m.content)
    ensures response.Ok? ==> m.content == ChooseReply(response.data, parse)
    ensures response.NotOk? ==> m.content == JString(ServerErrorText(response.status, response.body))
    ensures response.Failed? ==> m.content == JString(NetworkErrorText(response.fault))
  {
    match response
    case Failed(f) => Message(Assistant, JString(NetworkErrorText(f)))
    case NotOk(status, body) => Message(Assistant, JString(ServerErrorText(status, body)))
    case Ok(data) => Message(Assistant, ChooseReply(data, parse))
  }

  /** The event detail sent to the visual panel: only when the answer has code,
      and carrying exactly its code, dimension and analysis. */
  function VizEvent(response: Response): (e: Option<VisualSection.VizDetail>)
    ensures e.Some? <==> response.Ok? && response.data.code != ""
    ensures e.Some? ==> e.value == VisualSection.VizDetail(response.data.code, response.data.dimension, response.data.analysis)
  {
    if response.Ok? && response.data.code != "" then
      Some(VisualSection.VizDetail(response.data.code, response.data.dimension, response.data.analysis))
    else None
  }

  // ---------------------------------------------------------------------------
  // The component
  // ---------------------------------------------------------------------------

  class ChatPanel {
    var messages: seq<Message>
    var input: string
    var loading: bool

    constructor()
      ensures messages == [] && input == "" && !loading
    {
      messages := [];
      input := "";
      loading := false;
    }

    /** `pushMessage`: append one message, keeping the earlier ones. */
    method PushMessage(role: Role, content: Json)
      modifies this
      ensures messages == old(messages) + [Message(role, content)]
      ensures input == old(input) && loading == old(loading)
    {
      messages := messages + [Message(role, content)];
    }

    /** Lines 13-21: the guard, then the user's message, an empty field and the
        loading flag.  Returns the text sent to the server. */
    method BeginSend() returns (sent: Option<string>)
      modifies this
      ensures Trim(old(input)) == "" || old(loading) ==>
                sent == None && messages == old(messages) && input == old(input) && loading == old(loading)
      ensures Trim(old(input)) != "" && !old(loading) ==>
                && sent == Some(Trim(old(input)))
                && messages == old(messages) + [Message(User, JString(Trim(old(input))))]
                && input == "" && loading
    {
      var text := Trim(input);
      if text == "" || loading {
        return None;
      }
      PushMessage(User, JString(text));
      input := "";
      loading := true;
      sent := Some(text);
    }

    /** Lines 23-65 once the answer is in: exactly one assistant message, the
        loading flag cleared on every path, and the event to dispatch. */
    method CompleteSend(response: Response, parse: string -> Option<Json>)
      returns (dispatched: Option<VisualSection.VizDetail>)
      modifies this
      ensures messages == old(messages) + [ReplyFor(response, parse)]
      ensures !loading && input == old(input)
      ensures dispatched == VizEvent(response)
    {
      match response {
        case NotOk(status, body) =>
          PushMessage(Assistant, JString(ServerErrorText(status, body)));
          loading := false;
          return None;
        case Failed(f) =>
          PushMessage(Assistant, JString(NetworkErrorText(f)));
          dispatched := None;
        case Ok(data) =>
          var reply := ChooseReply(data, parse);
          PushMessage(Assistant, reply);
          if data.code != "" {
            dispatched := Some(VisualSection.VizDetail(data.code, data.dimension, data.analysis));
          } else {
            dispatched := None;
          }
      }
      loading := false;
    }
  }
}
