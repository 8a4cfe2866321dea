/**
 * How the agent's session is stored as JSON beside the menu's, which shares its place: reading back what was
 * written, and telling the two apart. Values of an unexpected type read as malformed.
 */
module SessionStorage {
  import opened Common
  import opened AgentHistory

  datatype Json =
    | Null
    | Flag(flag: bool)
    | Text(text: string)
    | List(items: seq<Json>)
    | Object(fields: map<string, Json>)

  const ENGINE := "engine"
  const AGENT := "agent"

  /** The keys of a stored menu session: its fields. */
  const MENU_FIELDS := {
    "step", "options", "category", "package_id", "package_name", "theme_id", "theme_name", "extras", "event_date",
    "event_time", "district", "address", "full_name", "provides_mobility", "observations", "quote_id", "misses",
    "last_message_id"}

  const STEPS := {
    "CATEGORY", "PACKAGE", "THEME", "EXTRAS", "DATE", "TIME", "DISTRICT", "ADDRESS", "NAME", "MOBILITY",
    "OBSERVATIONS", "CONFIRM", "ALTERNATIVES", "PAID"}

  /** Reading a menu session starts by its step; without a known one there is no menu session. */
  predicate ReadsAsMenu(data: map<string, Json>) {
    "step" in data && data["step"].Text? && data["step"].text in STEPS
  }

  // ---------------------------------------------------------------- writing

  function RoleName(role: Role): string {
    match role
    case USER => "user"
    case ASSISTANT => "assistant"
    case TOOL => "tool"
  }

  function WriteText(t: Option<string>): Json {
    if t.Some? then Text(t.value) else Null
  }

  function WriteCall(c: Call): Json {
    Object(map["id" := Text(c.id), "name" := Text(c.name), "arguments" := Text(c.arguments)])
  }

  function WriteMessage(m: LlmMessage): Json {
    Object(map["role" := Text(RoleName(m.role)), "content" := Text(m.content),
               "tool_calls" := List(seq(|m.calls|, i requires 0 <= i < |m.calls| => WriteCall(m.calls[i]))),
               "tool_call_id" := WriteText(m.callId)])
  }

  function WriteAgent(s: Agent): map<string, Json> {
    map[ENGINE := Text(AGENT),
        "history" := List(seq(|s.history|, i requires 0 <= i < |s.history| => WriteMessage(s.history[i]))),
        "quote_id" := WriteText(s.quote), "quote_details" := WriteText(s.details),
        "payment_started" := Flag(s.paymentStarted), "last_message_id" := WriteText(s.lastMessage)]
  }

  // ---------------------------------------------------------------- reading

  function Get(data: map<string, Json>, key: string): Json {
    if key in data then data[key] else Null
  }

  function ReadRole(j: Json): Option<Role> {
    if j == Text("user") then Some(USER)
    else if j == Text("assistant") then Some(ASSISTANT)
    else if j == Text("tool") then Some(TOOL)
    else None
  }

  function ReadCall(j: Json): Option<Call> {
    if !j.Object? then None
    else
      var id, name, arguments := Get(j.fields, "id"), Get(j.fields, "name"), Get(j.fields, "arguments");
      if id.Text? && name.Text? && arguments.Text? then Some(Call(id.text, name.text, arguments.text)) else None
  }

  /** All the values read, or nothing if one of them could not be. */
  function Collect<T>(read: seq<Option<T>>): Option<seq<T>> {
    if read == [] then Some([])
    else
      var before, last := Collect(read[..|read| - 1]), read[|read| - 1];
      if before.Some? && last.Some? then Some(before.value + [last.value]) else None
  }

  function ReadCalls(items: seq<Json>): Option<seq<Call>> {
    Collect(seq(|items|, i requires 0 <= i < |items| => ReadCall(items[i])))
  }

  /** A missing content is empty, missing calls are none; the role must be known. */
  function ReadMessage(j: Json): Option<LlmMessage> {
    if !j.Object? then None
    else
      var role, content, id := ReadRole(Get(j.fields, "role")), Get(j.fields, "content"), Get(j.fields, "tool_call_id");
      var listed := Get(j.fields, "tool_calls");
      var calls := if listed.Null? then Some([]) else if listed.List? then ReadCalls(listed.items) else None;
      if role.None? || calls.None? || !(content.Text? || content.Null?) || !(id.Text? || id.Null?) then None
      else Some(LlmMessage(role.value, if content.Text? then content.text else "", calls.value,
                           if id.Text? then Some(id.text) else None))
  }

  function ReadMessages(items: seq<Json>): Option<seq<LlmMessage>> {
    Collect(seq(|items|, i requires 0 <= i < |items| => ReadMessage(items[i])))
  }

  function ReadText(j: Json): Option<string> {
    if j.Text? then Some(j.text) else None
  }

  function ReadAgent(data: map<string, Json>): Option<Agent> {
    if Get(data, ENGINE) != Text(AGENT) then None
    else
      var listed, details, started := Get(data, "history"), Get(data, "quote_details"), Get(data, "payment_started");
      var history := if listed.Null? then Some([]) else if listed.List? then ReadMessages(listed.items) else None;
      if history.None? then None
      else Some(Agent(history.value, ReadText(Get(data, "quote_id")),
                      ReadText(details),
                      started == Flag(true), ReadText(Get(data, "last_message_id"))))
  }

  // ---------------------------------------------------------------- round trips

  lemma {:induction false} CollectsAll<T>(values: seq<T>, read: seq<Option<T>>)
    requires |read| == |values| && forall i :: 0 <= i < |values| ==> read[i] == Some(values[i])
    ensures Collect(read) == Some(values)
  {
    if values != [] {
      CollectsAll(values[..|values| - 1], read[..|read| - 1]);
      assert values == values[..|values| - 1] + [values[|values| - 1]];
    }
  }

  lemma MessageRoundTrip(m: LlmMessage)
    ensures ReadMessage(WriteMessage(m)) == Some(m)
  {
    var items := seq(|m.calls|, i requires 0 <= i < |m.calls| => WriteCall(m.calls[i]));
    CollectsAll(m.calls, seq(|items|, i requires 0 <= i < |items| => ReadCall(items[i])));
  }

  lemma WrittenHistory(s: Agent)
    ensures Get(WriteAgent(s), ENGINE) == Text(AGENT)
    ensures Get(WriteAgent(s), "history").List? && ReadMessages(Get(WriteAgent(s), "history").items) == Some(s.history)
  {
    var items := seq(|s.history|, i requires 0 <= i < |s.history| => WriteMessage(s.history[i]));
    forall i | 0 <= i < |s.history| ensures ReadMessage(items[i]) == Some(s.history[i]) {
      MessageRoundTrip(s.history[i]);
    }
    CollectsAll(s.history, seq(|items|, i requires 0 <= i < |items| => ReadMessage(items[i])));
  }

  lemma WrittenFields(s: Agent)
    ensures Get(WriteAgent(s), "quote_id") == WriteText(s.quote)
    ensures Get(WriteAgent(s), "quote_details") == WriteText(s.details)
    ensures Get(WriteAgent(s), "payment_started") == Flag(s.paymentStarted)
    ensures Get(WriteAgent(s), "last_message_id") == WriteText(s.lastMessage)
  {
  }

  /** A stored session reads back as it was. */
  lemma AgentRoundTrip(s: Agent)
    ensures ReadAgent(WriteAgent(s)) == Some(s)
  {
    var data := WriteAgent(s);
    WrittenHistory(s);
    WrittenFields(s);
    assert ReadText(Get(data, "quote_id")) == s.quote;
    assert ReadText(Get(data, "last_message_id")) == s.lastMessage;
  }

  /** What a stored message or session lacks reads as empty; a message of no known role, or any other value in the place
      of one, is not read. */
  lemma WhatIsMissingReadsAsEmpty(role: Role, name: string, data: map<string, Json>)
    requires data.Keys == {"role"} && data["role"] == Text(name)
    ensures name == RoleName(role) ==> ReadMessage(Object(data)) == Some(LlmMessage(role, "", [], None))
    ensures ReadMessage(Object(data)).None? <==> name !in {"user", "assistant", "tool"}
    ensures ReadMessage(Null).None? && ReadMessage(Text(name)).None?
    ensures forall session: map<string, Json> :: session.Keys == {ENGINE} && session[ENGINE] == Text(AGENT) ==>
              ReadAgent(session) == Some(Agent([], None, None, false, None))
  {
  }

  /** A session of the agent is never read as one of the menu, nor the other way round. */
  lemma EnginesNeverMixUp(s: Agent, menu: map<string, Json>)
    requires menu.Keys == MENU_FIELDS
    ensures !ReadsAsMenu(WriteAgent(s))
    ensures ReadAgent(menu).None?
  {
  }
}
