/**
 * The history a conversational agent keeps and sends to the language model: trimming it, one turn of the
 * bounded tool loop, and its stored form.
 */
module AgentHistory {
  import opened Common

  const MAX_HISTORY := 40
  const MAX_ITERATIONS := 5
  const MAX_USER_TEXT := 1500
  const PLACEHOLDER := "[El cliente envió un archivo o una imagen sin texto.]"

  datatype Role = USER | ASSISTANT | TOOL

  datatype Call = Call(id: string, name: string, arguments: string)

  datatype LlmMessage = LlmMessage(role: Role, content: string, calls: seq<Call>, callId: Option<string>)

  type History = seq<LlmMessage>

  // ---------------------------------------------------------------- well-formed histories

  predicate Opens(h: History) {
    h == [] || h[0].role == USER
  }

  /** The results of the calls, one each and in order. */
  predicate Answers(calls: seq<Call>, results: History) {
    |results| == |calls|
    && forall k :: 0 <= k < |calls| ==> results[k].role == TOOL && results[k].callId == Some(calls[k].id)
  }

  function Asks(m: LlmMessage): seq<Call> {
    if m.role == ASSISTANT then m.calls else []
  }

  /** The message at the head with the results it asked for. */
  predicate HeadAnswered(h: History)
    requires h != []
  {
    && h[0].role != TOOL && |Asks(h[0])| < |h|
    && Answers(Asks(h[0]), h[1..1 + |Asks(h[0])|])
  }

  function Rest(h: History): (r: History)
    requires h != [] && HeadAnswered(h)
    ensures |r| < |h|
  {
    h[1 + |Asks(h[0])|..]
  }

  /** No result comes without the message that asked for it, and no call is left unanswered. */
  predicate WellFormed(h: History) {
    h == [] || (HeadAnswered(h) && WellFormed(Rest(h)))
  }

  lemma HeadOfASuffix(h: History, p: nat)
    requires h != [] && HeadAnswered(h) && 0 < p < |h| && h[p].role == USER
    ensures 1 + |Asks(h[0])| <= p && h[p..] == Rest(h)[p - 1 - |Asks(h[0])|..]
  {
    forall i | 1 <= i <= |Asks(h[0])| ensures h[i].role == TOOL {
      assert h[1..1 + |Asks(h[0])|][i - 1] == h[i];
    }
  }

  /** Cutting a well-formed history at a client message never separates a call from its result. */
  lemma {:induction false} SuffixAtAClientMessage(h: History, p: nat)
    requires WellFormed(h) && p <= |h| && Opens(h[p..])
    ensures WellFormed(h[p..])
    decreases |h|
  {
    if p == 0 {
      assert h[0..] == h;
    } else if p < |h| {
      HeadOfASuffix(h, p);
      SuffixAtAClientMessage(Rest(h), p - 1 - |Asks(h[0])|);
    }
  }

  lemma HeadOfAJoin(h: History, g: History)
    requires h != [] && HeadAnswered(h)
    ensures HeadAnswered(h + g) && Rest(h + g) == Rest(h) + g
  {
    assert (h + g)[1..1 + |Asks(h[0])|] == h[1..1 + |Asks(h[0])|];
  }

  /** Well-formed pieces join into a well-formed history. */
  lemma {:induction false} PiecesJoin(h: History, g: History)
    requires WellFormed(h) && WellFormed(g)
    ensures WellFormed(h + g)
    decreases |h|
  {
    if h == [] {
      assert h + g == g;
    } else {
      PiecesJoin(Rest(h), g);
      HeadOfAJoin(h, g);
    }
  }

  function Results(calls: seq<Call>, contents: seq<string>): History
    requires |calls| == |contents|
  {
    seq(|calls|, i requires 0 <= i < |calls| => LlmMessage(TOOL, contents[i], [], Some(calls[i].id)))
  }

  /** The model's message with the results of all its calls. */
  function Exchange(text: string, calls: seq<Call>, contents: seq<string>): (r: History)
    requires |calls| == |contents|
    ensures |r| == 1 + |calls|
  {
    [LlmMessage(ASSISTANT, text, calls, None)] + Results(calls, contents)
  }

  lemma ExchangesAppend(h: History, text: string, calls: seq<Call>, contents: seq<string>)
    requires WellFormed(h) && |calls| == |contents|
    ensures WellFormed(h + Exchange(text, calls, contents))
  {
    var g := Exchange(text, calls, contents);
    assert g[1..] == Results(calls, contents) && g[1..1 + |calls|] == g[1..] && g[1 + |calls|..] == [];
    PiecesJoin(h, g);
  }

  lemma ClientMessagesAppend(h: History, text: string)
    requires WellFormed(h)
    ensures WellFormed(h + [LlmMessage(USER, text, [], None)])
  {
    PiecesJoin(h, [LlmMessage(USER, text, [], None)]);
  }

  // ---------------------------------------------------------------- trimming

  /** The position of the first client message from `i` on, or the end. */
  function FirstClient(h: History, i: nat): (p: nat)
    requires i <= |h|
    ensures i <= p <= |h|
    decreases |h| - i
  {
    if i == |h| || h[i].role == USER then i else FirstClient(h, i + 1)
  }

  /** Where the window of the last messages starts; a limit of zero keeps everything, as negative zero does. */
  function WindowStart(h: History, max: nat): nat
    requires |h| > max
  {
    if max == 0 then 0 else |h| - max
  }

  /** The last messages, from a client message on. */
  function Trim(h: History, max: nat): History {
    if |h| <= max then h else h[FirstClient(h, WindowStart(h, max))..]
  }

  lemma {:induction false} FirstClientIsFirst(h: History, i: nat)
    requires i <= |h|
    ensures forall k :: i <= k < FirstClient(h, i) ==> h[k].role != USER
    ensures FirstClient(h, i) < |h| ==> h[FirstClient(h, i)].role == USER
    decreases |h| - i
  {
    if i < |h| && h[i].role != USER {
      FirstClientIsFirst(h, i + 1);
    }
  }

  /** Trimming returns a suffix within the limit that opens with the client; it drops no client message of the
      window, and leaves nothing only when there is none. */
  lemma TrimKeepsTheClient(h: History, max: nat)
    requires |h| > max > 0
    ensures |Trim(h, max)| <= max && Trim(h, max) == h[|h| - |Trim(h, max)|..] && Opens(Trim(h, max))
    ensures Trim(h, max) != [] <==> exists i :: |h| - max <= i < |h| && h[i].role == USER
    ensures forall i :: |h| - max <= i < |h| - |Trim(h, max)| ==> h[i].role != USER
  {
    FirstClientIsFirst(h, |h| - max);
  }

  /** A limit of zero drops only what comes before the first client message. */
  lemma ZeroKeepsAllFromTheClient(h: History)
    ensures Trim(h, 0) == h[|h| - |Trim(h, 0)|..] && Opens(Trim(h, 0))
    ensures forall i :: 0 <= i < |h| - |Trim(h, 0)| ==> h[i].role != USER
  {
    FirstClientIsFirst(h, 0);
  }

  method TrimHistory(h: History, max: nat) returns (trimmed: History)
    ensures trimmed == Trim(h, max)
  {
    if |h| <= max { return h; }
    trimmed := h[WindowStart(h, max)..];
    ghost var p: nat := WindowStart(h, max);
    while trimmed != [] && trimmed[0].role != USER
      invariant p <= |h| && trimmed == h[p..]
      invariant FirstClient(h, p) == FirstClient(h, WindowStart(h, max))
      decreases |trimmed|
    {
      assert trimmed[1..] == h[p + 1..];
      trimmed := trimmed[1..];
      p := p + 1;
    }
  }

  lemma TrimKeepsWellFormed(h: History)
    requires WellFormed(h) && Opens(h)
    ensures Sendable(Trim(h, MAX_HISTORY))
  {
    if |h| > MAX_HISTORY {
      TrimKeepsTheClient(h, MAX_HISTORY);
      SuffixAtAClientMessage(h, |h| - |Trim(h, MAX_HISTORY)|);
    }
  }

  /** What may be saved or sent to the model. */
  predicate Sendable(h: History) {
    WellFormed(h) && Opens(h) && |h| <= MAX_HISTORY
  }

  // ---------------------------------------------------------------- a turn

  /** What running a tool comes to: a result, a created quote, a started payment, or a person needed, be it asked
      for or because the tool raised. */
  datatype ToolRun =
    | Told(result: string)
    | Quoted(result: string, quote: string, details: string)
    | Paid(result: string)
    | Escalated(reason: string)

  datatype Request = Request(call: Call, run: ToolRun)

  /** What the model answers: nothing usable, or a text and the tools it asks for. */
  datatype Answer = Unavailable | Reply(text: string, requests: seq<Request>)

  datatype Agent = Agent(
    history: History, quote: Option<string>, details: Option<string>, paymentStarted: bool,
    lastMessage: Option<string>)

  datatype TurnEnd = Replied | ToPerson(reason: string) | ModelFailed

  datatype Turn = Turn(agent: Agent, end: TurnEnd, sent: seq<History>)

  datatype ToolsDone = ToolsDone(agent: Agent, contents: seq<string>, changed: bool, handoff: Option<string>)

  /** A payment starts once per quote; asking again only tells. */
  predicate Changes(s: Agent, run: ToolRun) {
    run.Quoted? || (run.Paid? && s.quote.Some? && !s.paymentStarted)
  }

  function Affected(s: Agent, run: ToolRun): Agent {
    if run.Quoted? then s.(quote := Some(run.quote), details := Some(run.details), paymentStarted := false)
    else if Changes(s, run) then s.(paymentStarted := true)
    else s
  }

  function RunTools(s: Agent, requests: seq<Request>): (r: ToolsDone)
    ensures r.handoff.None? ==> |r.contents| == |requests|
  {
    if requests == [] then ToolsDone(s, [], false, None)
    else
      var before := RunTools(s, requests[..|requests| - 1]);
      var run := requests[|requests| - 1].run;
      if before.handoff.Some? then before
      else if run.Escalated? then before.(handoff := Some(run.reason))
      else ToolsDone(Affected(before.agent, run), before.contents + [run.result],
          before.changed || Changes(before.agent, run), None)
  }

  /** Tools never touch the history, and the rest of the session only if they report a change. */
  lemma {:induction false} ToolsReportTheirChanges(s: Agent, requests: seq<Request>)
    ensures RunTools(s, requests).agent.history == s.history
    ensures !RunTools(s, requests).changed ==> RunTools(s, requests).agent == s
  {
    if requests != [] {
      ToolsReportTheirChanges(s, requests[..|requests| - 1]);
    }
  }

  function Calls(requests: seq<Request>): seq<Call> {
    seq(|requests|, i requires 0 <= i < |requests| => requests[i].call)
  }

  predicate Blank(text: string) {
    forall i :: 0 <= i < |text| ==> text[i] in {' ', '\t', '\n', '\r'}
  }

  predicate Usable(a: Answer) {
    a.Reply? && (a.requests != [] || !Blank(a.text))
  }

  function AnswerAt(answers: seq<Answer>, k: nat): Answer {
    if k < |answers| then answers[k] else Unavailable
  }

  /** The history with the reply and the results of its tools. */
  function WithExchange(h: History, a: Answer, contents: seq<string>): History
    requires a.Reply? && |contents| == |a.requests|
  {
    h + Exchange(a.text, Calls(a.requests), contents)
  }

  /** The loop goes on after a reply whose tools were all run. */
  predicate GoesOn(s: Agent, a: Answer) {
    Usable(a) && a.requests != [] && RunTools(s, a.requests).handoff.None?
  }

  /** How the turn ends at an answer that does not let it go on. */
  function Stop(s: Agent, h: History, a: Answer, changed: bool): (Agent, TurnEnd)
    requires !GoesOn(s, a)
  {
    if !Usable(a) then (s, if changed then ToPerson("llm_after_action") else ModelFailed)
    else if a.requests == [] then
      (s.(history := Trim(h + [LlmMessage(ASSISTANT, a.text, [], None)], MAX_HISTORY)), Replied)
    else
      var done := RunTools(s, a.requests);
      (done.agent, ToPerson(done.handoff.value))
  }

  /** The loop from iteration `k` on, with the history so far. */
  function Play(s: Agent, h: History, answers: seq<Answer>, k: nat, changed: bool): Turn
    requires k <= MAX_ITERATIONS
    decreases MAX_ITERATIONS - k
  {
    if k == MAX_ITERATIONS then Turn(s, ToPerson("tool_loop_limit"), [])
    else
      var a := AnswerAt(answers, k);
      if GoesOn(s, a) then
        var done := RunTools(s, a.requests);
        var rest := Play(done.agent, WithExchange(h, a, done.contents), answers, k + 1, changed || done.changed);
        Turn(rest.agent, rest.end, [Trim(h, MAX_HISTORY)] + rest.sent)
      else
        var (agent, end) := Stop(s, h, a, changed);
        Turn(agent, end, [Trim(h, MAX_HISTORY)])
  }

  function Asked(s: Agent, text: string): History {
    var said := if text == "" then PLACEHOLDER else text;
    s.history + [LlmMessage(USER, if |said| <= MAX_USER_TEXT then said else said[..MAX_USER_TEXT], [], None)]
  }

  function RunTurn(s: Agent, text: string, answers: seq<Answer>): Turn {
    if text == "" && s.paymentStarted then Turn(s, Replied, []) else Play(s, Asked(s, text), answers, 0, false)
  }

  // ---------------------------------------------------------------- what a turn keeps

  ghost predicate AllSendable(hs: seq<History>) {
    forall i :: 0 <= i < |hs| ==> Sendable(hs[i])
  }

  lemma {:induction false} PlayFailsCleanly(s: Agent, h: History, answers: seq<Answer>, k: nat, changed: bool)
    requires k <= MAX_ITERATIONS
    ensures var t := Play(s, h, answers, k, changed);
      && (t.end != Replied ==> t.agent.history == s.history)
      && (t.end == ModelFailed ==> t.agent == s && !changed)
      && |t.sent| <= MAX_ITERATIONS - k
    decreases MAX_ITERATIONS - k
  {
    if k < MAX_ITERATIONS && Usable(AnswerAt(answers, k)) {
      ToolsReportTheirChanges(s, AnswerAt(answers, k).requests);
    }
    if k < MAX_ITERATIONS && GoesOn(s, AnswerAt(answers, k)) {
      var a := AnswerAt(answers, k);
      var done := RunTools(s, a.requests);
      PlayFailsCleanly(done.agent, WithExchange(h, a, done.contents), answers, k + 1, changed || done.changed);
    }
  }

  lemma LastReplyIsSendable(h: History, text: string)
    requires WellFormed(h) && Opens(h) && h != []
    ensures Sendable(Trim(h + [LlmMessage(ASSISTANT, text, [], None)], MAX_HISTORY))
  {
    ExchangesAppend(h, text, [], []);
    assert Exchange(text, [], []) == [LlmMessage(ASSISTANT, text, [], None)];
    TrimKeepsWellFormed(h + [LlmMessage(ASSISTANT, text, [], None)]);
  }

  lemma ExchangeKeepsShape(h: History, a: Answer, contents: seq<string>)
    requires WellFormed(h) && Opens(h) && h != [] && a.Reply? && |contents| == |a.requests|
    ensures WellFormed(WithExchange(h, a, contents)) && Opens(WithExchange(h, a, contents))
        && WithExchange(h, a, contents) != []
  {
    ExchangesAppend(h, a.text, Calls(a.requests), contents);
  }

  lemma OneMoreSendable(h: History, hs: seq<History>)
    requires Sendable(h) && AllSendable(hs)
    ensures AllSendable([h]) && AllSendable([h] + hs)
  {
    forall i | 0 <= i < |[h] + hs| ensures Sendable(([h] + hs)[i]) {
      assert ([h] + hs)[i] == if i == 0 then h else hs[i - 1];
    }
  }

  lemma {:induction false} PlaySendsWellFormed(s: Agent, h: History, answers: seq<Answer>, k: nat, changed: bool)
    requires k <= MAX_ITERATIONS && WellFormed(h) && Opens(h) && h != []
    ensures AllSendable(Play(s, h, answers, k, changed).sent)
    ensures Play(s, h, answers, k, changed).end == Replied ==> Sendable(Play(s, h, answers, k, changed).agent.history)
    decreases MAX_ITERATIONS - k
  {
    if k < MAX_ITERATIONS {
      TrimKeepsWellFormed(h);
      var a := AnswerAt(answers, k);
      if GoesOn(s, a) {
        var done := RunTools(s, a.requests);
        ExchangeKeepsShape(h, a, done.contents);
        PlaySendsWellFormed(done.agent, WithExchange(h, a, done.contents), answers, k + 1, changed || done.changed);
        OneMoreSendable(Trim(h, MAX_HISTORY),
                        Play(done.agent, WithExchange(h, a, done.contents), answers, k + 1, changed || done.changed)
                        .sent);
      } else {
        OneMoreSendable(Trim(h, MAX_HISTORY), []);
        if Usable(a) && a.requests == [] {
          LastReplyIsSendable(h, a.text);
        }
      }
    }
  }

  /** What a turn saves, and every request it sends, is well formed, opens with the client and fits the limit;
      a turn that hands off or fails saves no history, and a model failure is reported only if nothing changed. */
  lemma TurnsKeepHistories(s: Agent, text: string, answers: seq<Answer>)
    requires Sendable(s.history)
    ensures var t := RunTurn(s, text, answers);
      && Sendable(t.agent.history)
      && (t.end != Replied ==> t.agent.history == s.history)
      && (t.end == ModelFailed ==> t.agent == s)
      && |t.sent| <= MAX_ITERATIONS
      && AllSendable(t.sent)
  {
    if text != "" || !s.paymentStarted {
      var user := Asked(s, text)[|s.history|];
      ClientMessagesAppend(s.history, user.content);
      assert Asked(s, text) == s.history + [user];
      PlayFailsCleanly(s, Asked(s, text), answers, 0, false);
      PlaySendsWellFormed(s, Asked(s, text), answers, 0, false);
    }
  }

  lemma NothingIsSendable()
    ensures Sendable([])
  {
  }

  /** Every saved history of a conversation is well formed: a reply saves, a hand-off or a failure forgets. */
  ghost predicate Talk(agents: seq<Agent>, texts: seq<string>, answers: seq<seq<Answer>>) {
    && |agents| == |texts| + 1 == |answers| + 1
    && agents[0] == Agent([], None, None, false, None)
    && forall i :: 0 <= i < |texts| ==>
         var t := RunTurn(agents[i], texts[i], answers[i]);
         agents[i + 1] == (if t.end == Replied then t.agent else agents[0])
  }

  lemma {:induction false} SavedHistoriesAreWellFormed(agents: seq<Agent>, texts: seq<string>,
                                                       answers: seq<seq<Answer>>, i: nat)
    requires Talk(agents, texts, answers) && i < |agents|
    ensures Sendable(agents[i].history)
  {
    NothingIsSendable();
    assert agents[0].history == [];
    if i > 0 {
      SavedHistoriesAreWellFormed(agents, texts, answers, i - 1);
      var t := RunTurn(agents[i - 1], texts[i - 1], answers[i - 1]);
      TurnsKeepHistories(agents[i - 1], texts[i - 1], answers[i - 1]);
      assert agents[i] == if t.end == Replied then t.agent else agents[0];
    }
  }

  // ---------------------------------------------------------------- when a request loses the client

  /** The message at `p` is the last of the client. */
  predicate LastClient(h: History, p: nat) {
    p < |h| && h[p].role == USER && forall i :: p < i < |h| ==> h[i].role != USER
  }

  /** The message `m` is in the request, as the last one of the client. */
  ghost predicate HoldsLast(request: History, m: LlmMessage) {
    exists q: nat :: LastClient(request, q) && request[q] == m
  }

  /** A history is trimmed to nothing exactly when the client's last message has left the window; otherwise that
      very message is in what remains. */
  lemma ClientWithinReach(h: History, p: nat)
    requires LastClient(h, p)
    ensures Trim(h, MAX_HISTORY) == [] <==> |h| - p > MAX_HISTORY
    ensures Trim(h, MAX_HISTORY) != [] ==> HoldsLast(Trim(h, MAX_HISTORY), h[p])
  {
    if |h| > MAX_HISTORY {
      TrimKeepsTheClient(h, MAX_HISTORY);
      var r := Trim(h, MAX_HISTORY);
      var cut := |h| - |r|;
      if r != [] {
        assert h[cut].role == USER;
        assert LastClient(r, p - cut) && r[p - cut] == h[p];
      }
    } else {
      assert LastClient(Trim(h, MAX_HISTORY), p);
    }
  }

  /** What the first `k` replies of a turn add to the history: each its message and one result per call. */
  function Added(answers: seq<Answer>, k: nat): nat {
    if k == 0 then 0
    else
      var a := AnswerAt(answers, k - 1);
      Added(answers, k - 1) + (if a.Reply? then 1 + |a.requests| else 0)
  }

  /** Whether the request that follows the first `k` replies still has room for the client's message. */
  predicate HasRoom(answers: seq<Answer>, k: nat) {
    1 + Added(answers, k) <= MAX_HISTORY
  }

  /** The request after `k` replies is empty exactly without room, and otherwise holds `m` as the client's last. */
  ghost predicate RequestAsExpected(request: History, m: LlmMessage, answers: seq<Answer>, k: nat) {
    && (request == [] <==> !HasRoom(answers, k))
    && (request != [] ==> HoldsLast(request, m))
  }

  ghost predicate RequestsAsExpected(sent: seq<History>, m: LlmMessage, answers: seq<Answer>, k: nat) {
    forall i :: 0 <= i < |sent| ==> RequestAsExpected(sent[i], m, answers, k + i)
  }

  lemma OneMoreAsExpected(request: History, sent: seq<History>, m: LlmMessage, answers: seq<Answer>, k: nat)
    requires RequestAsExpected(request, m, answers, k) && RequestsAsExpected(sent, m, answers, k + 1)
    ensures RequestsAsExpected([request] + sent, m, answers, k)
  {
    var all := [request] + sent;
    forall i | 0 <= i < |all| ensures RequestAsExpected(all[i], m, answers, k + i) {
      if i > 0 {
        assert all[i] == sent[i - 1] && RequestAsExpected(sent[i - 1], m, answers, k + 1 + (i - 1));
      }
    }
  }

  lemma ExchangesBringNoClient(h: History, p: nat, a: Answer, contents: seq<string>)
    requires LastClient(h, p) && a.Reply? && |contents| == |a.requests|
    ensures LastClient(WithExchange(h, a, contents), p) && WithExchange(h, a, contents)[p] == h[p]
    ensures |WithExchange(h, a, contents)| == |h| + 1 + |a.requests|
  {
    var g := WithExchange(h, a, contents);
    forall i | p < i < |g| ensures g[i].role != USER {
      if i > |h| {
        assert g[i] == Results(Calls(a.requests), contents)[i - |h| - 1];
      }
    }
  }

  lemma {:induction false} PlaySendsAsExpected(s: Agent, h: History, p: nat, answers: seq<Answer>,
                                                k: nat, changed: bool)
    requires k <= MAX_ITERATIONS && LastClient(h, p) && |h| - p == 1 + Added(answers, k)
    ensures RequestsAsExpected(Play(s, h, answers, k, changed).sent, h[p], answers, k)
    decreases MAX_ITERATIONS - k
  {
    if k < MAX_ITERATIONS {
      ClientWithinReach(h, p);
      var a := AnswerAt(answers, k);
      var request := Trim(h, MAX_HISTORY);
      if GoesOn(s, a) {
        var done := RunTools(s, a.requests);
        var longer := WithExchange(h, a, done.contents);
        ExchangesBringNoClient(h, p, a, done.contents);
        PlaySendsAsExpected(done.agent, longer, p, answers, k + 1, changed || done.changed);
        OneMoreAsExpected(request, Play(done.agent, longer, answers, k + 1, changed || done.changed).sent,
                          h[p], answers, k);
      } else {
        OneMoreAsExpected(request, [], h[p], answers, k);
      }
    }
  }

  /** The request that follows the first `k` replies of a turn is empty if and only if their messages and results
      leave no room for what the client wrote; otherwise it holds that message as the last one of the client. */
  lemma RequestsHoldTheClientExactlyWithRoom(s: Agent, text: string, answers: seq<Answer>, k: nat)
    requires k < |RunTurn(s, text, answers).sent|
    ensures RunTurn(s, text, answers).sent[k] == [] <==> 1 + Added(answers, k) > MAX_HISTORY
    ensures RunTurn(s, text, answers).sent[k] != [] ==>
              HoldsLast(RunTurn(s, text, answers).sent[k], Asked(s, text)[|s.history|])
  {
    PlaySendsAsExpected(s, Asked(s, text), |s.history|, answers, 0, false);
    assert RequestAsExpected(RunTurn(s, text, answers).sent[k], Asked(s, text)[|s.history|], answers, 0 + k);
  }

  const CALLS_THAT_FIT := 8

  predicate FewCalls(answers: seq<Answer>) {
    forall i :: 0 <= i < |answers| && answers[i].Reply? ==> |answers[i].requests| <= CALLS_THAT_FIT
  }

  lemma {:induction false} FewCallsAddLittle(answers: seq<Answer>, k: nat)
    requires FewCalls(answers)
    ensures Added(answers, k) <= k * (1 + CALLS_THAT_FIT)
  {
    if k > 0 {
      FewCallsAddLittle(answers, k - 1);
    }
  }

  lemma FewCallsLeaveRoom(answers: seq<Answer>, k: nat)
    requires FewCalls(answers) && k < MAX_ITERATIONS
    ensures 1 + Added(answers, k) <= MAX_HISTORY
  {
    FewCallsAddLittle(answers, k);
  }

  lemma FewRequestsAreSent(s: Agent, text: string, answers: seq<Answer>)
    ensures |RunTurn(s, text, answers).sent| <= MAX_ITERATIONS
  {
    PlayFailsCleanly(s, Asked(s, text), answers, 0, false);
  }

  /** While no reply asks for more than eight tools, every request holds what the client just wrote. */
  lemma EveryRequestHoldsTheClient(s: Agent, text: string, answers: seq<Answer>, k: nat)
    requires FewCalls(answers) && k < |RunTurn(s, text, answers).sent|
    ensures HoldsLast(RunTurn(s, text, answers).sent[k], Asked(s, text)[|s.history|])
  {
    FewRequestsAreSent(s, text, answers);
    FewCallsLeaveRoom(answers, k);
    RequestsHoldTheClientExactlyWithRoom(s, text, answers, k);
  }

  /** A single reply with thirty-nine calls, which with its own message fill the window, pushes the client out:
      the next request is empty. */
  lemma ThirtyNineCallsEmptyTheRequest(s: Agent, text: string, reply: Answer)
    requires text != "" && reply.Reply? && |reply.requests| >= MAX_HISTORY - 1
    requires forall i :: 0 <= i < |reply.requests| ==> reply.requests[i].run.Told?
    ensures |RunTurn(s, text, [reply]).sent| == 2 && RunTurn(s, text, [reply]).sent[1] == []
  {
    ToldToolsOnlyTell(s, reply.requests);
    var answers := [reply];
    var longer := WithExchange(Asked(s, text), reply, RunTools(s, reply.requests).contents);
    assert AnswerAt(answers, 0) == reply && AnswerAt(answers, 1) == Unavailable;
    assert Play(s, longer, answers, 1, false).sent == [Trim(longer, MAX_HISTORY)];
    assert Added(answers, 1) == Added(answers, 0) + 1 + |reply.requests|;
    RequestsHoldTheClientExactlyWithRoom(s, text, answers, 1);
  }

  lemma {:induction false} ToldToolsOnlyTell(s: Agent, requests: seq<Request>)
    requires forall i :: 0 <= i < |requests| ==> requests[i].run.Told?
    ensures RunTools(s, requests).handoff.None? && !RunTools(s, requests).changed
  {
    if requests != [] {
      ToldToolsOnlyTell(s, requests[..|requests| - 1]);
    }
  }

  // ---------------------------------------------------------------- the loop in place

  class AgentSession {
    var history: History
    var quote: Option<string>
    var details: Option<string>
    var paymentStarted: bool
    var lastMessage: Option<string>

    function Value(): Agent
      reads this
    {
      Agent(history, quote, details, paymentStarted, lastMessage)
    }

    constructor (s: Agent)
      ensures Value() == s
    {
      history, quote, details := s.history, s.quote, s.details;
      paymentStarted, lastMessage := s.paymentStarted, s.lastMessage;
    }

    method RunTool(run: ToolRun) returns (changed: bool)
      modifies this
      ensures Value() == Affected(old(Value()), run) && changed == Changes(old(Value()), run)
    {
      changed := false;
      if run.Quoted? {
        quote, details, paymentStarted := Some(run.quote), Some(run.details), false;
        changed := true;
      } else if run.Paid? && quote.Some? && !paymentStarted {
        paymentStarted := true;
        changed := true;
      }
    }

    method CallTools(requests: seq<Request>) returns (contents: seq<string>, changed: bool, handoff: Option<string>)
      modifies this
      ensures ToolsDone(Value(), contents, changed, handoff) == RunTools(old(Value()), requests)
    {
      contents, changed, handoff := [], false, None;
      for i := 0 to |requests|
        invariant ToolsDone(Value(), contents, changed, None) == RunTools(old(Value()), requests[..i])
      {
        assert requests[..i + 1][..i] == requests[..i];
        if requests[i].run.Escalated? {
          EscalationStops(old(Value()), requests, i);
          return contents, changed, Some(requests[i].run.reason);
        }
        var did := RunTool(requests[i].run);
        changed := changed || did;
        contents := contents + [requests[i].run.result];
      }
      assert requests[..|requests|] == requests;
    }

    /** One request and what its answer leads to: the longer history, or the end of the turn. */
    method Iterate(h: History, a: Answer, changed: bool)
      returns (request: History, longer: Option<History>, changedNow: bool, end: TurnEnd)
      modifies this
      ensures request == Trim(h, MAX_HISTORY)
      ensures longer.Some? <==> GoesOn(old(Value()), a)
      ensures longer.Some? ==>
                && Value() == RunTools(old(Value()), a.requests).agent
                && longer.value == WithExchange(h, a, RunTools(old(Value()), a.requests).contents)
                && changedNow == (changed || RunTools(old(Value()), a.requests).changed)
      ensures longer.None? ==> (Value(), end) == Stop(old(Value()), h, a, changed)
    {
      longer, changedNow, end := None, changed, Replied;
      request := TrimHistory(h, MAX_HISTORY);
      if !Usable(a) {
        end := if changed then ToPerson("llm_after_action") else ModelFailed;
        return;
      }
      if a.requests == [] {
        history := TrimHistory(h + [LlmMessage(ASSISTANT, a.text, [], None)], MAX_HISTORY);
        return;
      }
      var contents, did, handoff := CallTools(a.requests);
      if handoff.Some? {
        end := ToPerson(handoff.value);
        return;
      }
      changedNow := changed || did;
      longer := Some(WithExchange(h, a, contents));
    }

    method Converse(text: string, answers: seq<Answer>) returns (end: TurnEnd, sent: seq<History>)
      modifies this
      ensures Turn(Value(), end, sent) == RunTurn(old(Value()), text, answers)
    {
      if text == "" && paymentStarted { return Replied, []; }
      end, sent := Loop(Asked(Value(), text), answers);
    }

    /** One iteration: what was sent and what is to come make up the same turn as before. */
    method Step(h: History, answers: seq<Answer>, k: nat, changed: bool, sent: seq<History>)
      returns (going: bool, longer: History, changedNow: bool, sentNow: seq<History>, end: TurnEnd)
      requires k < MAX_ITERATIONS
      modifies this
      ensures going ==> After(sentNow, Play(Value(), longer, answers, k + 1, changedNow))
                        == After(sent, Play(old(Value()), h, answers, k, changed))
      ensures !going ==> Turn(Value(), end, sentNow) == After(sent, Play(old(Value()), h, answers, k, changed))
    {
      AfterOneMore(sent, Value(), h, answers, k, changed, AnswerAt(answers, k));
      var request, next;
      request, next, changedNow, end := Iterate(h, AnswerAt(answers, k), changed);
      going, sentNow := next.Some?, sent + [request];
      longer := if next.Some? then next.value else h;
    }

    method Loop(start: History, answers: seq<Answer>) returns (end: TurnEnd, sent: seq<History>)
      modifies this
      ensures Turn(Value(), end, sent) == Play(old(Value()), start, answers, 0, false)
    {
      var h, changed, k := start, false, 0;
      sent := [];
      while k < MAX_ITERATIONS
        invariant k <= MAX_ITERATIONS
        invariant After(sent, Play(Value(), h, answers, k, changed)) == Play(old(Value()), start, answers, 0, false)
      {
        var going;
        going, h, changed, sent, end := Step(h, answers, k, changed, sent);
        if !going { return; }
        k := k + 1;
      }
      end := ToPerson("tool_loop_limit");
    }
  }

  function After(sent: seq<History>, t: Turn): Turn {
    Turn(t.agent, t.end, sent + t.sent)
  }

  /** One iteration moves its request from what is to come to what was sent. */
  lemma AfterOneMore(sent: seq<History>, s: Agent, h: History, answers: seq<Answer>, k: nat, changed: bool, a: Answer)
    requires k < MAX_ITERATIONS && a == AnswerAt(answers, k)
    ensures GoesOn(s, a) ==>
              var done := RunTools(s, a.requests);
              After(sent, Play(s, h, answers, k, changed))
              == After(sent + [Trim(h, MAX_HISTORY)],
                       Play(done.agent, WithExchange(h, a, done.contents), answers, k + 1, changed || done.changed))
    ensures !GoesOn(s, a) ==>
              After(sent, Play(s, h, answers, k, changed))
              == Turn(Stop(s, h, a, changed).0, Stop(s, h, a, changed).1, sent + [Trim(h, MAX_HISTORY)])
  {
    if GoesOn(s, a) {
      var done := RunTools(s, a.requests);
      var rest := Play(done.agent, WithExchange(h, a, done.contents), answers, k + 1, changed || done.changed);
      assert sent + ([Trim(h, MAX_HISTORY)] + rest.sent) == sent + [Trim(h, MAX_HISTORY)] + rest.sent;
    }
  }

  /** Once a tool asks for a person, the later calls of the reply are not run. */
  lemma {:induction false} EscalationStops(s: Agent, requests: seq<Request>, i: nat)
    requires i < |requests| && requests[i].run.Escalated? && RunTools(s, requests[..i]).handoff.None?
    ensures RunTools(s, requests) == RunTools(s, requests[..i]).(handoff := Some(requests[i].run.reason))
    decreases |requests|
  {
    if i < |requests| - 1 {
      assert requests[..|requests| - 1][..i] == requests[..i];
      EscalationStops(s, requests[..|requests| - 1], i);
    }
  }
}
