/**
 * The completion client, `get_openai_response`: it rebuilds each message
 * of the transcript as a `{role, content}` dictionary and hands the list to
 * the hosted chat-completion service. The service is an oracle, a total
 * function from that list to the reply text.
 */
module CompletionClient {
  import opened Wrappers

  datatype Role = User | Assistant

  /** One transcript entry, the `{"role": ..., "content": ...}` dictionary. */
  datatype Message = Message(role: Role, content: string)

  /** The wire form of a message: a dictionary from key to text. */
  type Wire = map<string, string>

  /** The chat-completion service: from the request's message list to the
      content of the top choice. */
  type Oracle = seq<Wire> -> string

  function RoleName(r: Role): string {
    match r
    case User => "user"
    case Assistant => "assistant"
  }

  function ParseRole(s: string): (r: Option<Role>)
    ensures r.Some? ==> RoleName(r.value) == s
  {
    if s == "user" then Some(User)
    else if s == "assistant" then Some(Assistant)
    else None
  }

  /** One element of the list comprehension: a dictionary with exactly the
      keys `role` and `content`, carrying the message's role and text. */
  function ToWire(m: Message): (w: Wire)
    ensures w.Keys == {"role", "content"}
    ensures ParseRole(w["role"]) == Some(m.role) && w["content"] == m.content
  {
    map["role" := RoleName(m.role), "content" := m.content]
  }

  /** The request body built from the transcript, one dictionary per
      message, in the transcript's order. */
  function ToOpenAI(ms: seq<Message>): (ws: seq<Wire>)
    ensures |ws| == |ms|
    ensures forall k :: 0 <= k < |ms| ==> ws[k] == ToWire(ms[k])
    decreases |ms|
  {
    if ms == [] then [] else [ToWire(ms[0])] + ToOpenAI(ms[1..])
  }

  /** Reads a dictionary back as a message; anything other than exactly the
      two keys with a known role is refused. */
  function FromWire(w: Wire): Option<Message> {
    if w.Keys == {"role", "content"} && ParseRole(w["role"]).Some? then
      Some(Message(ParseRole(w["role"]).value, w["content"]))
    else
      None
  }

  function FromOpenAI(ws: seq<Wire>): Option<seq<Message>>
    decreases |ws|
  {
    if ws == [] then Some([])
    else
      match (FromWire(ws[0]), FromOpenAI(ws[1..]))
      case (Some(m), Some(rest)) => Some([m] + rest)
      case _ => None
  }

  /** One dictionary reads back as the message it was built from. */
  lemma WireRoundTrip(m: Message)
    ensures FromWire(ToWire(m)) == Some(m)
  {
    var w := ToWire(m);
    assert ParseRole(w["role"]) == Some(m.role);
  }

  /** The conversion loses nothing: the request body reads back as the very
      transcript it was built from, roles, texts and order included. */
  lemma {:induction false} OpenAIRoundTrip(ms: seq<Message>)
    ensures FromOpenAI(ToOpenAI(ms)) == Some(ms)
    decreases |ms|
  {
    if ms != [] {
      var ws := ToOpenAI(ms);
      var tail := ToOpenAI(ms[1..]);
      assert ws == [ToWire(ms[0])] + tail;
      assert ws[1..] == tail;
      WireRoundTrip(ms[0]);
      OpenAIRoundTrip(ms[1..]);
      FromOpenAICons(ws, ms[0], ms[1..]);
      assert [ms[0]] + ms[1..] == ms;
    }
  }

  /** A request body reads back as a whole once its first dictionary and
      the remaining ones read back. */
  lemma FromOpenAICons(ws: seq<Wire>, m: Message, rest: seq<Message>)
    requires ws != [] && FromWire(ws[0]) == Some(m) && FromOpenAI(ws[1..]) == Some(rest)
    ensures FromOpenAI(ws) == Some([m] + rest)
  {
  }

  /** And it is the only transcript that yields that request body. */
  lemma {:induction false} OpenAIUnique(ws: seq<Wire>, ms: seq<Message>)
    requires FromOpenAI(ws) == Some(ms)
    ensures ToOpenAI(ms) == ws
    decreases |ws|
  {
    if ws != [] {
      var rest := FromOpenAI(ws[1..]).value;
      OpenAIUnique(ws[1..], rest);
      assert ToWire(ms[0]) == ws[0];
      assert ms[1..] == rest;
    }
  }

  /** `get_openai_response(messages)`: one request, whose reply is the text
      of the service's top choice. The service sees a request that reads
      back as exactly `messages`, and nothing else. */
  function GetResponse(complete: Oracle, ms: seq<Message>): (r: string)
    ensures exists w :: FromOpenAI(w) == Some(ms) && r == complete(w)
  {
    OpenAIRoundTrip(ms);
    complete(ToOpenAI(ms))
  }
}
