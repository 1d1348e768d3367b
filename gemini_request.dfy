/** The request the Gemini client builds from a chat: the system instruction
    taken out of the message list, the other messages converted to Gemini's
    content format, and the generation settings. The call to the service is
    a parameter: its outcome is either the reply text or a failure. */
module GeminiRequest {
  import opened Prelude

  datatype Role = User | Assistant | Model | System

  datatype ChatMessage = ChatMessage(role: Role, content: string)

  datatype Part = Part(text: string)

  /** One entry of `contents`. */
  datatype Content = Content(role: Role, parts: seq<Part>)

  /** The request payload; `systemInstruction` is the optional field. */
  datatype Payload = Payload(contents: seq<Content>, temperature: real, systemInstruction: Option<seq<Part>>)

  /** What `sendMessage` resolves to, or the error it throws. */
  datatype Reply = Text(text: string) | Failed(message: string)

  const DefaultModelName: string := "gemini-1.5-pro"
  const DefaultTemperature: real := 0.7
  const FailureMessage: string := "Failed to get response from Gemini service"

  predicate IsSystem(m: ChatMessage) {
    m.role == System
  }

  predicate IsChat(m: ChatMessage) {
    m.role != System
  }

  /** `i` is the position of the first system message. */
  predicate IsFirstSystem(messages: seq<ChatMessage>, i: int) {
    && 0 <= i < |messages| && IsSystem(messages[i])
    && forall j :: 0 <= j < i ==> !IsSystem(messages[j])
  }

  /** `messages.find(msg => msg.role === 'system')` */
  function FindSystem(messages: seq<ChatMessage>): (r: Option<ChatMessage>)
    ensures r.None? <==> forall i :: 0 <= i < |messages| ==> !IsSystem(messages[i])
    ensures r.Some? ==> exists i :: IsFirstSystem(messages, i) && messages[i] == r.value
  {
    if messages == [] then None
    else if IsSystem(messages[0]) then (assert IsFirstSystem(messages, 0); Some(messages[0]))
    else
      var r := FindSystem(messages[1..]);
      assert r.Some? ==> exists i :: IsFirstSystem(messages, i) && messages[i] == r.value by {
        if r.Some? {
          var i :| IsFirstSystem(messages[1..], i) && messages[1..][i] == r.value;
          forall j | 0 <= j < i + 1 ensures !IsSystem(messages[j]) {
            if j > 0 {
              assert messages[j] == messages[1..][j - 1];
            }
          }
          assert IsFirstSystem(messages, i + 1);
        }
      }
      r
  }

  /** Only the first system message counts: whatever follows it is ignored. */
  lemma {:induction false} FindSystemFirst(a: seq<ChatMessage>, b: seq<ChatMessage>)
    requires FindSystem(a).Some?
    ensures FindSystem(a + b) == FindSystem(a)
  {
    if !IsSystem(a[0]) {
      assert (a + b)[1..] == a[1..] + b;
      FindSystemFirst(a[1..], b);
    }
  }

  /** 'assistant' is renamed to 'model'; every other role is kept. */
  function GeminiRole(r: Role): (g: Role)
    ensures r == Assistant ==> g == Model
    ensures r != Assistant ==> g == r
  {
    if r == Assistant then Model else r
  }

  /** One chat message in Gemini's format: its role, and one part holding
      its text. */
  function Format(m: ChatMessage): (c: Content)
    ensures |c.parts| == 1 && c.parts[0].text == m.content
    ensures c.role == GeminiRole(m.role)
  {
    Content(GeminiRole(m.role), [Part(m.content)])
  }

  function FormatAll(messages: seq<ChatMessage>): (r: seq<Content>)
    ensures |r| == |messages|
    ensures forall i :: 0 <= i < |messages| ==> r[i] == Format(messages[i])
  {
    seq(|messages|, i requires 0 <= i < |messages| => Format(messages[i]))
  }

  /** The payload of `sendMessage(messages, modelName, temperature)`. */
  function BuildPayload(messages: seq<ChatMessage>, temperature: Option<real>): (p: Payload)
    ensures p.temperature == temperature.GetOr(DefaultTemperature)
    ensures p.systemInstruction.Some? <==> exists i :: 0 <= i < |messages| && IsSystem(messages[i])
    ensures p.systemInstruction.Some? ==> p.systemInstruction.value == [Part(FindSystem(messages).value.content)]
    ensures |p.contents| <= |messages|
    ensures forall i :: 0 <= i < |p.contents| ==>
      |p.contents[i].parts| == 1 && p.contents[i].role != System && p.contents[i].role != Assistant
  {
    var system := FindSystem(messages);
    var chat := Filter(IsChat, messages);
    assert forall i :: 0 <= i < |chat| ==> chat[i] in chat;
    var contents := FormatAll(chat);
    Payload(contents, temperature.GetOr(DefaultTemperature),
            if system.Some? then Some([Part(system.value.content)]) else None)
  }

  /** The model `sendMessage` asks for. */
  function ModelName(modelName: Option<string>): (name: string)
    ensures modelName.None? ==> name == DefaultModelName
    ensures modelName.Some? ==> name == modelName.value
  {
    modelName.GetOr(DefaultModelName)
  }

  /** Whatever goes wrong in the call, the caller sees one fixed error. */
  function Outcome(service: Reply): (r: Reply)
    ensures service.Text? ==> r == service
    ensures service.Failed? ==> r == Failed(FailureMessage)
  {
    match service
    case Text(_) => service
    case Failed(_) => Failed(FailureMessage)
  }

  lemma FormatAllAppend(a: seq<ChatMessage>, b: seq<ChatMessage>)
    ensures FormatAll(a + b) == FormatAll(a) + FormatAll(b)
  {
  }

  /** The contents follow the message list: the contents of a concatenation
      are the contents of its parts, one after the other. */
  lemma ContentsAppend(a: seq<ChatMessage>, b: seq<ChatMessage>, t: Option<real>)
    ensures BuildPayload(a + b, t).contents == BuildPayload(a, t).contents + BuildPayload(b, t).contents
  {
    FilterAppend(IsChat, a, b);
    FormatAllAppend(Filter(IsChat, a), Filter(IsChat, b));
  }

  /** A system message contributes no content; any other message contributes
      exactly its formatted entry. */
  lemma ContentsOfOne(m: ChatMessage, t: Option<real>)
    ensures BuildPayload([m], t).contents == if IsSystem(m) then [] else [Format(m)]
  {
    assert [m][1..] == [];
  }

  /** Without system messages every message becomes one content entry, in
      order, and there is no system instruction. */
  lemma NoSystemKeepsAll(messages: seq<ChatMessage>, t: Option<real>)
    requires forall i :: 0 <= i < |messages| ==> !IsSystem(messages[i])
    ensures BuildPayload(messages, t).contents == FormatAll(messages)
    ensures BuildPayload(messages, t).systemInstruction.None?
  {
    FilterKeepsAll(IsChat, messages);
  }

  /** A conversation made only of system messages sends no contents. */
  lemma OnlySystemSendsNothing(messages: seq<ChatMessage>, t: Option<real>)
    requires forall i :: 0 <= i < |messages| ==> IsSystem(messages[i])
    ensures BuildPayload(messages, t).contents == []
  {
    FilterDropsAll(IsChat, messages);
  }
}
