/**
 * What a turn of the agent comes to, told without its loop: how many replies let it go on, what their tools did to the
 * session, how it ends, and what it sends and saves.
 */
module AgentTurns {
  import opened Common
  import opened AgentHistory

  // ---------------------------------------------------------------- the tools of one reply

  /** The calls of a reply that are run: those before the first that needs a person. */
  function Ran(requests: seq<Request>): (r: seq<Request>)
    ensures |r| <= |requests| && r == requests[..|r|]
    ensures forall i :: 0 <= i < |r| ==> !r[i].run.Escalated?
    ensures |r| < |requests| ==> requests[|r|].run.Escalated?
  {
    if requests == [] || requests[0].run.Escalated? then [] else [requests[0]] + Ran(requests[1..])
  }

  /** Where the last quote was created, or -1. */
  function LastQuoted(ran: seq<Request>): (i: int)
    ensures -1 <= i < |ran|
    ensures i >= 0 ==> ran[i].run.Quoted?
    ensures forall j :: i < j < |ran| ==> !ran[j].run.Quoted?
  {
    if ran == [] then -1
    else if ran[|ran| - 1].run.Quoted? then |ran| - 1
    else LastQuoted(ran[..|ran| - 1])
  }

  ghost predicate PaidAfter(ran: seq<Request>, i: int) {
    exists j :: i < j < |ran| && 0 <= j && ran[j].run.Paid?
  }

  lemma PaidAfterExtends(ran: seq<Request>, x: Request, i: int)
    requires -1 <= i < |ran|
    ensures PaidAfter(ran + [x], i) <==> PaidAfter(ran, i) || x.run.Paid?
  {
    assert (ran + [x])[|ran|] == x;
    assert forall j :: 0 <= j < |ran| ==> (ran + [x])[j] == ran[j];
  }

  /** The last quote created stands with its details; a payment counts once there is a quote, and a new quote is to be
      paid again. Nothing else of the session changes. */
  ghost predicate LeftBy(s: Agent, t: Agent, ran: seq<Request>) {
    var q := LastQuoted(ran);
    && t.history == s.history && t.lastMessage == s.lastMessage
    && (if q >= 0 then t.quote == Some(ran[q].run.quote) && t.details == Some(ran[q].run.details)
        else t.quote == s.quote && t.details == s.details)
    && (t.paymentStarted <==> (q < 0 && s.paymentStarted) || (t.quote.Some? && PaidAfter(ran, q)))
  }

  lemma OneMoreTool(s: Agent, t: Agent, ran: seq<Request>, x: Request)
    requires LeftBy(s, t, ran) && !x.run.Escalated?
    ensures LeftBy(s, Affected(t, x.run), ran + [x])
  {
    var q := LastQuoted(ran);
    PaidAfterExtends(ran, x, q);
    assert (ran + [x])[..|ran|] == ran;
    assert LastQuoted(ran + [x]) == if x.run.Quoted? then |ran| else q;
    assert !PaidAfter(ran + [x], |ran|);
  }

  lemma {:induction false} ToolsDoAsTold(s: Agent, ran: seq<Request>)
    requires forall i :: 0 <= i < |ran| ==> !ran[i].run.Escalated?
    ensures RunTools(s, ran).handoff.None? && LeftBy(s, RunTools(s, ran).agent, ran)
    ensures RunTools(s, ran).contents == seq(|ran|, i requires 0 <= i < |ran| => ran[i].run.result)
  {
    if ran != [] {
      var shorter, last := ran[..|ran| - 1], ran[|ran| - 1];
      ToolsDoAsTold(s, shorter);
      assert ran == shorter + [last];
      OneMoreTool(s, RunTools(s, shorter).agent, shorter, last);
    }
  }

  /** Tools report a change exactly when one of them created a quote or started the payment of one. */
  lemma {:induction false} ChangesAreReported(s: Agent, ran: seq<Request>)
    requires forall i :: 0 <= i < |ran| ==> !ran[i].run.Escalated?
    ensures RunTools(s, ran).changed <==>
              || (exists i :: 0 <= i < |ran| && ran[i].run.Quoted?)
              || (RunTools(s, ran).agent.paymentStarted && !s.paymentStarted)
  {
    if ran != [] {
      var shorter, last := ran[..|ran| - 1], ran[|ran| - 1];
      ChangesAreReported(s, shorter);
      ToolsDoAsTold(s, shorter);
      assert forall i :: 0 <= i < |shorter| ==> shorter[i] == ran[i];
      if last.run.Quoted? {
        assert ran[|ran| - 1].run.Quoted?;
      }
    }
  }

  lemma {:induction false} RanUpToTheFirstEscalation(requests: seq<Request>)
    ensures Ran(requests) == requests <==> forall i :: 0 <= i < |requests| ==> !requests[i].run.Escalated?
  {
    if requests != [] {
      RanUpToTheFirstEscalation(requests[1..]);
      assert forall i :: 0 < i < |requests| ==> requests[i] == requests[1..][i - 1];
    }
  }

  /** A reply runs its calls up to the first that needs a person, whose reason it hands off with. */
  lemma RepliesRunTheirTools(s: Agent, requests: seq<Request>)
    ensures var done, ran := RunTools(s, requests), Ran(requests);
      && done.agent == RunTools(s, ran).agent && LeftBy(s, done.agent, ran)
      && done.contents == seq(|ran|, i requires 0 <= i < |ran| => ran[i].run.result)
      && (done.handoff == if |ran| < |requests| then Some(requests[|ran|].run.reason) else None)
  {
    var ran := Ran(requests);
    ToolsDoAsTold(s, ran);
    if |ran| < |requests| {
      EscalationStops(s, requests, |ran|);
    } else {
      assert ran == requests;
    }
  }

  // ---------------------------------------------------------------- the replies of a turn

  /** The session once the tools of the first `k` replies were run. */
  function After(s: Agent, answers: seq<Answer>, k: nat): Agent {
    if k == 0 then s
    else
      var before, a := After(s, answers, k - 1), AnswerAt(answers, k - 1);
      if a.Reply? then RunTools(before, a.requests).agent else before
  }

  /** The first `k` replies all ask for tools, and none of them needs a person. */
  predicate GoOn(answers: seq<Answer>, k: nat) {
    forall i :: 0 <= i < k ==>
      var a := AnswerAt(answers, i);
      a.Reply? && a.requests != [] && forall j :: 0 <= j < |a.requests| ==> !a.requests[j].run.Escalated?
  }

  /** How many replies let the turn go on. */
  function Rounds(answers: seq<Answer>, k: nat): (n: nat)
    requires k <= MAX_ITERATIONS && GoOn(answers, k)
    ensures k <= n <= MAX_ITERATIONS && GoOn(answers, n)
    ensures n < MAX_ITERATIONS ==> !GoOn(answers, n + 1)
    decreases MAX_ITERATIONS - k
  {
    if k == MAX_ITERATIONS || !GoOn(answers, k + 1) then k else Rounds(answers, k + 1)
  }

  /** A tool of the first `k` replies changed something. */
  ghost predicate ChangedBy(s: Agent, answers: seq<Answer>, k: nat) {
    exists i :: 0 <= i < k && AnswerAt(answers, i).Reply?
                && RunTools(After(s, answers, i), AnswerAt(answers, i).requests).changed
  }

  /** The history as the first `k` replies leave it: what the client wrote, then each reply with its results. */
  function Grown(s: Agent, text: string, answers: seq<Answer>, k: nat): History
    requires GoOn(answers, k)
  {
    if k == 0 then Asked(s, text)
    else
      var a := AnswerAt(answers, k - 1);
      var results := seq(|a.requests|, i requires 0 <= i < |a.requests| => a.requests[i].run.result);
      Grown(s, text, answers, k - 1) + Exchange(a.text, Calls(a.requests), results)
  }

  /** A reply enters the history with its calls, followed by one result for each, in order and under its id. */
  lemma RepliesCarryTheirResults(text: string, calls: seq<Call>, contents: seq<string>)
    requires |calls| == |contents|
    ensures var g := Exchange(text, calls, contents);
      && |g| == |calls| + 1 && g[0] == LlmMessage(ASSISTANT, text, calls, None)
      && forall i :: 0 <= i < |calls| ==> g[i + 1] == LlmMessage(TOOL, contents[i], [], Some(calls[i].id))
  {
  }

  lemma GoesOnExactlyWhen(s: Agent, answers: seq<Answer>, k: nat)
    requires GoOn(answers, k)
    ensures GoesOn(s, AnswerAt(answers, k)) <==> GoOn(answers, k + 1)
  {
    var a := AnswerAt(answers, k);
    if a.Reply? {
      RepliesRunTheirTools(s, a.requests);
      RanUpToTheFirstEscalation(a.requests);
    }
    assert GoOn(answers, k + 1) ==> AnswerAt(answers, k).Reply?;
  }

  /** How the turn ends after `n` replies that let it go on. */
  ghost predicate EndsAt(s: Agent, answers: seq<Answer>, n: nat, end: TurnEnd) {
    var a := AnswerAt(answers, n);
    if n == MAX_ITERATIONS then end == ToPerson("tool_loop_limit")
    else if a.Unavailable? || (a.requests == [] && Blank(a.text)) then
      end == if ChangedBy(s, answers, n) then ToPerson("llm_after_action") else ModelFailed
    else if a.requests == [] then end == Replied
    else |Ran(a.requests)| < |a.requests| && end == ToPerson(a.requests[|Ran(a.requests)|].run.reason)
  }

  /** What the session is when the turn ends there: only a reply saves, and it saves itself after all the rest. */
  ghost predicate SavedAt(s: Agent, text: string, answers: seq<Answer>, n: nat, t: Agent)
    requires GoOn(answers, n)
  {
    var a := AnswerAt(answers, n);
    if n == MAX_ITERATIONS || a.Unavailable? || (a.requests == [] && Blank(a.text)) then t == After(s, answers, n)
    else if a.requests == [] then
      t == After(s, answers, n).(history := Trim(Grown(s, text, answers, n)
                                                 + [LlmMessage(ASSISTANT, a.text, [], None)], MAX_HISTORY))
    else t == After(s, answers, n + 1)
  }

  /** The turn from its `k`th reply on, after the earlier ones. */
  ghost function Continued(s: Agent, text: string, answers: seq<Answer>, k: nat): Turn
    requires k <= MAX_ITERATIONS && GoOn(answers, k)
  {
    Play(After(s, answers, k), Grown(s, text, answers, k), answers, k, ChangedBy(s, answers, k))
  }

  lemma ChangedByOneMore(s: Agent, answers: seq<Answer>, k: nat)
    requires AnswerAt(answers, k).Reply?
    ensures ChangedBy(s, answers, k + 1) <==>
              ChangedBy(s, answers, k) || RunTools(After(s, answers, k), AnswerAt(answers, k).requests).changed
  {
  }

  lemma GoesOnHere(s: Agent, text: string, answers: seq<Answer>, k: nat)
    requires k < MAX_ITERATIONS && GoOn(answers, k + 1)
    ensures GoOn(answers, k)
    ensures var rest := Continued(s, text, answers, k + 1);
            Continued(s, text, answers, k) ==
            Turn(rest.agent, rest.end, [Trim(Grown(s, text, answers, k), MAX_HISTORY)] + rest.sent)
  {
    var a, before, h := AnswerAt(answers, k), After(s, answers, k), Grown(s, text, answers, k);
    assert a.Reply?;
    GoesOnExactlyWhen(before, answers, k);
    ChangedByOneMore(s, answers, k);
    RepliesRunTheirTools(before, a.requests);
    RanUpToTheFirstEscalation(a.requests);
    var done := RunTools(before, a.requests);
    assert After(s, answers, k + 1) == done.agent;
    assert Grown(s, text, answers, k + 1) == WithExchange(h, a, done.contents);
  }

  lemma StopsHere(s: Agent, text: string, answers: seq<Answer>, k: nat)
    requires k <= MAX_ITERATIONS && GoOn(answers, k) && (k < MAX_ITERATIONS ==> !GoOn(answers, k + 1))
    ensures EndsAt(s, answers, k, Continued(s, text, answers, k).end)
    ensures SavedAt(s, text, answers, k, Continued(s, text, answers, k).agent)
    ensures Continued(s, text, answers, k).sent ==
            if k < MAX_ITERATIONS then [Trim(Grown(s, text, answers, k), MAX_HISTORY)] else []
  {
    if k < MAX_ITERATIONS {
      var a, before, h := AnswerAt(answers, k), After(s, answers, k), Grown(s, text, answers, k);
      GoesOnExactlyWhen(before, answers, k);
      if a.Reply? {
        RepliesRunTheirTools(before, a.requests);
      }
      var (agent, end) := Stop(before, h, a, ChangedBy(s, answers, k));
      assert Continued(s, text, answers, k) == Turn(agent, end, [Trim(h, MAX_HISTORY)]);
    }
  }

  /** What the turn sends from its `k`th reply on: a request after each reply that let it go on. */
  ghost predicate SentFrom(s: Agent, text: string, answers: seq<Answer>, k: nat, n: nat, sent: seq<History>)
    requires GoOn(answers, n) && k <= n
  {
    && |sent| == Min(n + 1, MAX_ITERATIONS) - k
    && forall i :: 0 <= i < |sent| ==> k + i <= n && sent[i] == Trim(Grown(s, text, answers, k + i), MAX_HISTORY)
  }

  lemma SentOneMore(s: Agent, text: string, answers: seq<Answer>, k: nat, n: nat, sent: seq<History>)
    requires GoOn(answers, n) && k + 1 <= n && SentFrom(s, text, answers, k + 1, n, sent)
    ensures SentFrom(s, text, answers, k, n, [Trim(Grown(s, text, answers, k), MAX_HISTORY)] + sent)
  {
    var all := [Trim(Grown(s, text, answers, k), MAX_HISTORY)] + sent;
    forall i | 0 <= i < |all|
      ensures k + i <= n && all[i] == Trim(Grown(s, text, answers, k + i), MAX_HISTORY)
    {
      if i > 0 {
        assert all[i] == sent[i - 1] && k + 1 + (i - 1) == k + i;
      }
    }
  }

  lemma {:induction false} PlaysOut(s: Agent, text: string, answers: seq<Answer>, k: nat)
    requires k <= MAX_ITERATIONS && GoOn(answers, k)
    ensures var t, n := Continued(s, text, answers, k), Rounds(answers, k);
      && EndsAt(s, answers, n, t.end) && SavedAt(s, text, answers, n, t.agent)
      && SentFrom(s, text, answers, k, n, t.sent)
    decreases MAX_ITERATIONS - k
  {
    if k < MAX_ITERATIONS && GoOn(answers, k + 1) {
      PlaysOut(s, text, answers, k + 1);
      GoesOnHere(s, text, answers, k);
      SentOneMore(s, text, answers, k, Rounds(answers, k), Continued(s, text, answers, k + 1).sent);
    } else {
      StopsHere(s, text, answers, k);
    }
  }

  /** Every turn that is not passed over ends after the replies that let it go on, at most five: for lack of a usable
      reply, with the client's answer, for a person, or at the limit. It sends the history as each reply left it,
      trimmed, and saves one only with the answer, which comes after all the rest; the tools that were run leave the
      session as they told, however it ends. */
  lemma TurnsEndAsTheirReplies(s: Agent, text: string, answers: seq<Answer>)
    requires text != "" || !s.paymentStarted
    ensures var t, n := RunTurn(s, text, answers), Rounds(answers, 0);
      && EndsAt(s, answers, n, t.end) && SavedAt(s, text, answers, n, t.agent)
      && SentFrom(s, text, answers, 0, n, t.sent)
  {
    PlaysOut(s, text, answers, 0);
    assert !ChangedBy(s, answers, 0);
  }

  /** A message without text once the payment started is passed over; any other reaches the model as the client's last,
      or as a note that there was none, and no longer than the limit. */
  lemma TheClientIsHeard(s: Agent, text: string, answers: seq<Answer>)
    ensures text == "" && s.paymentStarted ==> RunTurn(s, text, answers) == Turn(s, Replied, [])
    ensures var h := Asked(s, text);
      && |h| == |s.history| + 1 && h[..|s.history|] == s.history
      && h[|s.history|].role == USER && h[|s.history|].calls == [] && h[|s.history|].callId == None
      && h[|s.history|].content <= (if text == "" then PLACEHOLDER else text)
      && |h[|s.history|].content| == Min(|if text == "" then PLACEHOLDER else text|, MAX_USER_TEXT)
  {
  }
}
