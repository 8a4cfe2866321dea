/**
 * Taking a conversation over from the bot and giving it back.
 *
 * The assignment lives in the database and changes only by compare-and-set; whether the conversation is
 * open lives in Chatwoot. A flow is a short series of steps, one per transaction or gateway call, and flows
 * interleave freely between steps.
 */
module Conversations {
  import opened Common

  type User = nat
  type FlowId = nat

  /** How one transaction or gateway call ends. `Raised` has no effect; `RaisedLate` is a gateway call that
      reports an error after Chatwoot applied it. */
  datatype Outcome = Done | Raised | RaisedLate

  /** The next step of a flow, with what the flow remembers. */
  datatype Point =
    | TakeRead
    | TakeClaim(wasOpen: bool)
    | TakeReopen(holder: Option<User>)
    | TakeCompensate(holder: Option<User>)
    | GiveRead
    | GiveAuthorize
    | GiveStatus(seen: Option<User>)
    | GiveRelease(former: User)

  datatype Flow = Flow(user: User, superadmin: bool, at: Point)

  /** What one step leaves behind: the assignment, the remote status, and where the flow goes on. */
  datatype Effect = Effect(assignee: Option<User>, open: bool, next: Option<Point>)

  function CompareAndSet(assignee: Option<User>, expected: Option<User>, desired: Option<User>): Option<User> {
    if assignee == expected then desired else assignee
  }

  /** One step of a flow. A lost compare-and-set inside the claiming transaction shows as `Raised`. */
  function StepOf(flow: Flow, assignee: Option<User>, open: bool, o: Outcome): Effect {
    var me := Some(flow.user);
    match flow.at
    case TakeRead =>
      if o != Done then Effect(assignee, open, None) else Effect(assignee, open, Some(TakeClaim(open)))
    case TakeClaim(wasOpen) =>
      if assignee == me && wasOpen then Effect(assignee, open, None)
      else if assignee != None && assignee != me && !flow.superadmin then Effect(assignee, open, None)
      else if o != Done then Effect(assignee, open, None)
      else Effect(me, open, Some(TakeReopen(assignee)))
    case TakeReopen(holder) =>
      if o == Done then Effect(assignee, true, None)
      else Effect(assignee, open || o == RaisedLate, Some(TakeCompensate(holder)))
    case TakeCompensate(holder) =>
      if o != Done then Effect(assignee, open, None)
      else Effect(CompareAndSet(assignee, me, if holder != me then holder else None), open, None)
    case GiveRead =>
      if o != Done || !open then Effect(assignee, open, None) else Effect(assignee, open, Some(GiveAuthorize))
    case GiveAuthorize =>
      if o != Done || (assignee != me && !flow.superadmin) then Effect(assignee, open, None)
      else Effect(assignee, open, Some(GiveStatus(assignee)))
    case GiveStatus(seen) =>
      if o == Done then Effect(assignee, false, if seen.Some? then Some(GiveRelease(seen.value)) else None)
      else Effect(assignee, open && o != RaisedLate, None)
    case GiveRelease(former) =>
      if o != Done then Effect(assignee, open, None)
      else Effect(CompareAndSet(assignee, Some(former), None), open, None)
  }

  /** Only the gateway call of a flow moves the remote status, to what the flow wants and unless it fails outright; only
      its transactions move the assignment, and not if they fail. */
  lemma CallsTouchTheirOwn(flow: Flow, assignee: Option<User>, open: bool, o: Outcome)
    ensures var effect := StepOf(flow, assignee, open, o);
      && (effect.open != open ==> o != Raised && (if effect.open then flow.at.TakeReopen? else flow.at.GiveStatus?))
      && (effect.assignee != assignee ==>
            o == Done && (flow.at.TakeClaim? || flow.at.TakeCompensate? || flow.at.GiveRelease?))
      && (o != Raised && flow.at.TakeReopen? ==> effect.open) && (o != Raised && flow.at.GiveStatus? ==> !effect.open)
  {
  }

  // ---------------------------------------------------------------- interleaved runs

  datatype State = State(assignee: Option<User>, open: bool, flows: map<FlowId, Flow>)

  datatype Event =
    | Begin(flow: FlowId, user: User, superadmin: bool, at: Point)
    | Advance(flow: FlowId, outcome: Outcome)
    | BotHandsOff

  predicate Enabled(s: State, e: Event) {
    match e
    case Begin(f, _, _, at) => f !in s.flows && (at == TakeRead || at == GiveRead)
    case Advance(f, _) => f in s.flows
    case BotHandsOff => true
  }

  function Apply(s: State, e: Event): State
    requires Enabled(s, e)
  {
    match e
    case Begin(f, user, superadmin, at) => s.(flows := s.flows[f := Flow(user, superadmin, at)])
    case Advance(f, o) =>
      var effect := StepOf(s.flows[f], s.assignee, s.open, o);
      State(effect.assignee, effect.open,
            match effect.next
            case Some(at) => s.flows[f := s.flows[f].(at := at)]
            case None => s.flows - {f})
    case BotHandsOff => s.(open := true)
  }

  ghost predicate Run(ss: seq<State>, es: seq<Event>) {
    && |ss| == |es| + 1 && ss[0].assignee == None && ss[0].flows == map[]
    && forall i :: 0 <= i < |es| ==> Enabled(ss[i], es[i]) && ss[i + 1] == Apply(ss[i], es[i])
  }

  // ---------------------------------------------------------------- nobody loses a conversation to a peer

  /** What a flow that is not a superadmin's remembers is its own assignment or none. */
  ghost predicate RemembersItself(flow: Flow) {
    flow.superadmin
    || match flow.at
       case TakeReopen(holder) => holder == None || holder == Some(flow.user)
       case TakeCompensate(holder) => holder == None || holder == Some(flow.user)
       case GiveStatus(seen) => seen == Some(flow.user)
       case GiveRelease(former) => former == flow.user
       case _ => true
  }

  lemma {:induction false} FlowsRememberThemselves(ss: seq<State>, es: seq<Event>, i: nat)
    requires Run(ss, es) && i < |ss|
    ensures forall f :: f in ss[i].flows ==> RemembersItself(ss[i].flows[f])
  {
    if i > 0 {
      FlowsRememberThemselves(ss, es, i - 1);
      var s, e := ss[i - 1], es[i - 1];
      assert e.Advance? ==> RemembersItself(s.flows[e.flow]);
    }
  }

  /** In any run whatsoever, a step of a flow that is not a superadmin's never changes an assignment that
      someone else holds, and never hands the conversation to anyone but its own user. */
  lemma PeersNeverLoseTheirConversation(ss: seq<State>, es: seq<Event>, i: nat)
    requires Run(ss, es) && i < |es| && es[i].Advance? && !ss[i].flows[es[i].flow].superadmin
    ensures var user := ss[i].flows[es[i].flow].user;
            && (ss[i].assignee != None && ss[i].assignee != Some(user) ==> ss[i + 1].assignee == ss[i].assignee)
            && (ss[i + 1].assignee != ss[i].assignee ==>
                  ss[i + 1].assignee == None || ss[i + 1].assignee == Some(user))
  {
    FlowsRememberThemselves(ss, es, i);
    assert RemembersItself(ss[i].flows[es[i].flow]);
  }

  // ---------------------------------------------------------------- assigned means open

  ghost predicate InFlight(s: State, user: User) {
    exists f :: f in s.flows && s.flows[f].user == user
  }

  /** When the assigned user has nothing in flight, the conversation is open in Chatwoot. */
  ghost predicate Consistent(s: State) {
    s.assignee.Some? && !InFlight(s, s.assignee.value) ==> s.open
  }

  /** No superadmin, and at most one flow in flight per user. Any call may fail in any way. */
  ghost predicate Orderly(s: State, e: Event) {
    e.Begin? ==> !e.superadmin && !InFlight(s, e.user)
  }

  /** The steps that leave an assigned conversation with the bot and nothing in flight: a gateway that reports
      an error after applying the release, and a last transaction that fails while the conversation is closed,
      be it the end of a release or the compensation of a takeover. */
  predicate Strands(s: State, e: Event) {
    e.Advance? && e.flow in s.flows &&
    match s.flows[e.flow].at
    case GiveStatus(_) => e.outcome == RaisedLate
    case GiveRelease(_) => e.outcome != Done && !s.open
    case TakeCompensate(_) => e.outcome != Done && !s.open
    case _ => false
  }

  /** What a flow may rely on at its next step. */
  ghost predicate FlowOk(flow: Flow, assignee: Option<User>, open: bool) {
    var mine := assignee == Some(flow.user);
    && !flow.superadmin
    && RemembersItself(flow)
    && match flow.at
       case TakeRead => mine ==> open
       case TakeClaim(wasOpen) => mine ==> open && wasOpen
       case TakeReopen(_) => mine
       case TakeCompensate(_) => mine
       case GiveRead => mine ==> open
       case GiveAuthorize => mine ==> open
       case GiveStatus(_) => mine && open
       case GiveRelease(_) => mine
  }

  ghost predicate OneFlowPerUser(s: State) {
    forall f, g :: f in s.flows && g in s.flows && s.flows[f].user == s.flows[g].user ==> f == g
  }

  ghost predicate Inv(s: State) {
    && Consistent(s) && OneFlowPerUser(s)
    && forall f :: f in s.flows ==> FlowOk(s.flows[f], s.assignee, s.open)
  }

  lemma StillInFlight(s: State, s': State)
    ensures forall u :: InFlight(s, u)
              && (forall f :: f in s.flows && s.flows[f].user == u ==> f in s'.flows && s'.flows[f].user == u)
              ==> InFlight(s', u)
  {
    forall u | InFlight(s, u)
      && forall f :: f in s.flows && s.flows[f].user == u ==> f in s'.flows && s'.flows[f].user == u
      ensures InFlight(s', u)
    {
      var f :| f in s.flows && s.flows[f].user == u;
      assert f in s'.flows;
    }
  }

  lemma BeginKeepsInv(s: State, e: Event)
    requires Inv(s) && e.Begin? && Enabled(s, e) && Orderly(s, e)
    ensures Inv(Apply(s, e))
  {
    StillInFlight(s, Apply(s, e));
  }

  /** The flow that steps leaves the others what they rely on. */
  lemma OthersKeepTheirs(s: State, f: FlowId, o: Outcome, g: FlowId)
    requires Inv(s) && f in s.flows && g in s.flows && f != g
    ensures var effect := StepOf(s.flows[f], s.assignee, s.open, o);
            FlowOk(s.flows[g], effect.assignee, effect.open)
  {
    assert FlowOk(s.flows[f], s.assignee, s.open) && FlowOk(s.flows[g], s.assignee, s.open);
    assert s.flows[f].user != s.flows[g].user;
  }

  /** From a state of an orderly run, a step leaves the conversation consistent exactly when it does not strand it. */
  lemma AdvanceKeepsInv(s: State, f: FlowId, o: Outcome)
    requires Inv(s) && f in s.flows
    ensures Consistent(Apply(s, Advance(f, o))) <==> !Strands(s, Advance(f, o))
    ensures !Strands(s, Advance(f, o)) ==> Inv(Apply(s, Advance(f, o)))
  {
    var s' := Apply(s, Advance(f, o));
    var flow := s.flows[f];
    assert FlowOk(flow, s.assignee, s.open);
    forall g | g in s'.flows && g != f
      ensures FlowOk(s'.flows[g], s'.assignee, s'.open)
    {
      OthersKeepTheirs(s, f, o, g);
    }
    StillInFlight(s, s');
    assert f in s'.flows ==> InFlight(s', flow.user);
    assert f !in s'.flows ==> !InFlight(s', flow.user);
  }

  lemma OrderlyStep(s: State, e: Event)
    requires Inv(s) && Enabled(s, e) && Orderly(s, e)
    ensures Consistent(Apply(s, e)) <==> !Strands(s, e)
    ensures !Strands(s, e) ==> Inv(Apply(s, e))
  {
    match e
    case Begin(_, _, _, _) => BeginKeepsInv(s, e);
    case Advance(f, o) => AdvanceKeepsInv(s, f, o);
    case BotHandsOff => assert forall u :: InFlight(Apply(s, e), u) <==> InFlight(s, u);
  }

  ghost predicate OrderlyRun(ss: seq<State>, es: seq<Event>) {
    Run(ss, es) && forall j :: 0 <= j < |es| ==> Orderly(ss[j], es[j])
  }

  lemma {:induction false} UnstrandedRunsKeepInv(ss: seq<State>, es: seq<Event>, i: nat)
    requires OrderlyRun(ss, es) && i < |ss|
    requires forall j :: 0 <= j < i ==> !Strands(ss[j], es[j])
    ensures Inv(ss[i])
  {
    if i > 0 {
      UnstrandedRunsKeepInv(ss, es, i - 1);
      assert Orderly(ss[i - 1], es[i - 1]) && !Strands(ss[i - 1], es[i - 1]);
      OrderlyStep(ss[i - 1], es[i - 1]);
    }
  }

  lemma {:induction false} ConsistentRunsNeverStrand(ss: seq<State>, es: seq<Event>, i: nat)
    requires OrderlyRun(ss, es) && i <= |es|
    requires forall j :: 0 <= j <= i ==> Consistent(ss[j])
    ensures forall j :: 0 <= j < i ==> !Strands(ss[j], es[j])
  {
    if i > 0 {
      ConsistentRunsNeverStrand(ss, es, i - 1);
      UnstrandedRunsKeepInv(ss, es, i - 1);
      var s, e := ss[i - 1], es[i - 1];
      assert Orderly(s, e) && ss[i] == Apply(s, e) && Consistent(ss[i]);
      OrderlyStep(s, e);
    }
  }

  /** Every interleaving of takeovers and releases with one flow in flight per user and no superadmin, however
      its calls fail, keeps the conversation open whenever the assigned user has no flow in flight, if and only
      if none of its steps strands it. */
  lemma AssignedConversationsStayOpen(ss: seq<State>, es: seq<Event>)
    requires OrderlyRun(ss, es)
    ensures (forall i :: 0 <= i < |ss| ==> Consistent(ss[i]))
            <==> (forall j :: 0 <= j < |es| ==> !Strands(ss[j], es[j]))
  {
    if forall j :: 0 <= j < |es| ==> !Strands(ss[j], es[j]) {
      forall i | 0 <= i < |ss| ensures Consistent(ss[i]) {
        UnstrandedRunsKeepInv(ss, es, i);
      }
    }
    if forall i :: 0 <= i < |ss| ==> Consistent(ss[i]) {
      ConsistentRunsNeverStrand(ss, es, |es|);
    }
  }

  // ---------------------------------------------------------------- any number of flows per user

  /** Somebody is committed to reopening the conversation or to freeing it. */
  ghost predicate Repairer(s: State, f: FlowId, user: User) {
    f in s.flows && s.flows[f].user == user
    && (s.flows[f].at.TakeReopen? || s.flows[f].at.TakeCompensate? || s.flows[f].at.GiveRelease?)
  }

  ghost predicate Mended(s: State) {
    s.assignee.Some? && !s.open ==> exists f :: Repairer(s, f, s.assignee.value)
  }

  ghost predicate AllRememberThemselves(s: State) {
    forall f :: f in s.flows ==> RemembersItself(s.flows[f]) && !s.flows[f].superadmin
  }

  /** A step that no superadmin takes, that does not strand, and that sets the bot status for a release only
      while nobody else holds the conversation. */
  predicate Owned(s: State, e: Event) {
    match e
    case Begin(_, _, superadmin, _) => !superadmin
    case BotHandsOff => true
    case Advance(f, o) =>
      !Strands(s, e)
      && (f in s.flows && s.flows[f].at.GiveStatus? && o == Done ==>
            s.assignee == None || s.assignee == Some(s.flows[f].user))
  }

  lemma OthersStillRepair(s: State, e: Event, f: FlowId, user: User)
    requires Enabled(s, e) && Repairer(s, f, user) && !(e.Advance? && e.flow == f)
    ensures Repairer(Apply(s, e), f, user)
  {
  }

  lemma OwnedStepMends(s: State, e: Event)
    requires Mended(s) && AllRememberThemselves(s) && Enabled(s, e) && Owned(s, e)
    ensures Mended(Apply(s, e))
  {
    var s' := Apply(s, e);
    if s'.assignee.Some? && !s'.open {
      var user := s'.assignee.value;
      if e.Advance? && Repairer(s', e.flow, user) {
      } else {
        assert s.assignee == s'.assignee && !s.open;
        var f :| Repairer(s, f, user);
        OthersStillRepair(s, e, f, user);
      }
    }
  }

  lemma {:induction false} OwnedRunsMend(ss: seq<State>, es: seq<Event>, i: nat)
    requires Run(ss, es) && i < |ss| && forall j :: 0 <= j < |es| ==> Owned(ss[j], es[j])
    ensures Mended(ss[i]) && AllRememberThemselves(ss[i])
  {
    FlowsRememberThemselves(ss, es, i);
    if i > 0 {
      OwnedRunsMend(ss, es, i - 1);
      assert Owned(ss[i - 1], es[i - 1]);
      OwnedStepMends(ss[i - 1], es[i - 1]);
    }
  }

  /** With any number of flows per user, conversations stay consistent as long as no step strands and every
      release sets the bot status while the assignment is still its own. */
  lemma OwnedReleasesKeepConsistency(ss: seq<State>, es: seq<Event>, i: nat)
    requires Run(ss, es) && i < |ss| && forall j :: 0 <= j < |es| ==> Owned(ss[j], es[j])
    ensures Consistent(ss[i])
  {
    OwnedRunsMend(ss, es, i);
    if ss[i].assignee.Some? && !ss[i].open {
      var f :| Repairer(ss[i], f, ss[i].assignee.value);
      assert InFlight(ss[i], ss[i].assignee.value);
    }
  }

  // ---------------------------------------------------------------- why one flow per user is needed

  /** The step that goes wrong without that restriction: setting the bot status on behalf of a release
      leaves a consistent conversation inconsistent exactly when the assignment has meanwhile moved to a
      user with nothing in flight. */
  lemma StaleReleaseBreaksConsistency(s: State, f: FlowId)
    requires Consistent(s) && f in s.flows && !s.flows[f].superadmin && RemembersItself(s.flows[f])
    requires s.flows[f].at.GiveStatus?
    ensures Consistent(Apply(s, Advance(f, Done)))
            <==> s.assignee.None? || InFlight(s, s.assignee.value)
  {
    var s' := Apply(s, Advance(f, Done));
    assert s'.flows.Keys == s.flows.Keys;
    StillInFlight(s, s');
    StillInFlight(s', s);
  }

  function Play(s: State, es: seq<Event>): Option<State>
    decreases |es|
  {
    if es == [] then Some(s)
    else if Enabled(s, es[0]) then Play(Apply(s, es[0]), es[1..])
    else None
  }

  lemma {:induction false} PlayThenPlay(s: State, first: seq<Event>, second: seq<Event>)
    requires Play(s, first).Some?
    ensures Play(s, first + second) == Play(Play(s, first).value, second)
    decreases |first|
  {
    if first == [] {
      assert first + second == second;
    } else {
      PlayThenPlay(Apply(s, first[0]), first[1..], second);
      assert (first + second)[1..] == first[1..] + second;
    }
  }

  /** `s'` is reached with no superadmin and no failure of any kind. */
  ghost predicate ReachedPlainly(s: State, s': State) {
    exists es :: Play(s, es) == Some(s') && forall i :: 0 <= i < |es| ==> Plain(es[i])
  }

  predicate Plain(e: Event) {
    match e
    case Begin(_, _, superadmin, _) => !superadmin
    case Advance(_, o) => o == Done
    case BotHandsOff => false
  }

  lemma ReachedPlainlyThen(s: State, s1: State, s2: State)
    requires ReachedPlainly(s, s1) && ReachedPlainly(s1, s2)
    ensures ReachedPlainly(s, s2)
  {
    var first :| Play(s, first) == Some(s1) && forall i :: 0 <= i < |first| ==> Plain(first[i]);
    var second :| Play(s1, second) == Some(s2) && forall i :: 0 <= i < |second| ==> Plain(second[i]);
    PlayThenPlay(s, first, second);
    assert Play(s, first + second) == Some(s2);
  }

  /** Two overlapping releases by user 1, with user 2's takeover between them, leave the conversation
      assigned to user 2 and handed to the bot, with no flow left to repair it. */
  lemma OverlappingReleasesBreakConsistency()
    ensures ReachedPlainly(State(None, false, map[]), State(Some(2), false, map[]))
    ensures !Consistent(State(Some(2), false, map[]))
  {
    var s0 := State(None, false, map[]);
    var taken, free := State(Some(1), true, map[]), State(None, false, map[]);
    var ready := Flow(1, false, GiveStatus(Some(1)));
    TakeFromFree(s0, 10, 1);
    AuthorizeRelease(taken, 11, 1);
    var one := taken.(flows := taken.flows[11 := ready]);
    ReachedPlainlyThen(s0, taken, one);
    AuthorizeRelease(one, 12, 1);
    var two := one.(flows := one.flows[12 := ready]);
    ReachedPlainlyThen(s0, one, two);
    FinishRelease(two, 11);
    var released := State(None, false, two.flows - {11});
    ReachedPlainlyThen(s0, two, released);
    TakeFromFree(released, 13, 2);
    var retaken := State(Some(2), true, released.flows);
    ReachedPlainlyThen(s0, released, retaken);
    FinishRelease(retaken, 12);
    ReachedPlainlyThen(s0, retaken, State(Some(2), false, retaken.flows - {12}));
    assert retaken.flows - {12} == map[];
    assert !InFlight(State(Some(2), false, map[]), 2);
  }

  lemma TakeFromFree(s: State, f: FlowId, user: User)
    requires f !in s.flows && s.assignee == None
    ensures ReachedPlainly(s, State(Some(user), true, s.flows))
  {
    var es := [Begin(f, user, false, TakeRead), Advance(f, Done), Advance(f, Done), Advance(f, Done)];
    var s1 := Apply(s, es[0]);
    var s2 := Apply(s1, es[1]);
    var s3 := Apply(s2, es[2]);
    var s4 := Apply(s3, es[3]);
    assert s4.flows == s.flows;
    assert Play(s4, es[4..]) == Some(s4);
    assert Play(s3, es[3..]) == Play(s4, es[4..]);
    assert Play(s2, es[2..]) == Play(s3, es[3..]);
    assert Play(s1, es[1..]) == Play(s2, es[2..]);
  }

  lemma AuthorizeRelease(s: State, f: FlowId, user: User)
    requires f !in s.flows && s.assignee == Some(user) && s.open
    ensures ReachedPlainly(s, s.(flows := s.flows[f := Flow(user, false, GiveStatus(Some(user)))]))
  {
    var es := [Begin(f, user, false, GiveRead), Advance(f, Done), Advance(f, Done)];
    var s1 := Apply(s, es[0]);
    var s2 := Apply(s1, es[1]);
    var s3 := Apply(s2, es[2]);
    assert s3 == s.(flows := s.flows[f := Flow(user, false, GiveStatus(Some(user)))]);
    assert Play(s3, es[3..]) == Some(s3);
    assert Play(s2, es[2..]) == Play(s3, es[3..]);
    assert Play(s1, es[1..]) == Play(s2, es[2..]);
  }

  /** A release past its authorization closes the conversation and drops its own assignment only. */
  lemma FinishRelease(s: State, f: FlowId)
    requires f in s.flows && s.flows[f].at == GiveStatus(Some(s.flows[f].user))
    ensures var assignee := if s.assignee == Some(s.flows[f].user) then None else s.assignee;
            ReachedPlainly(s, State(assignee, false, s.flows - {f}))
  {
    var es := [Advance(f, Done), Advance(f, Done)];
    var s1 := Apply(s, es[0]);
    var s2 := Apply(s1, es[1]);
    assert s1.flows - {f} == s.flows - {f};
    assert Play(s2, es[2..]) == Some(s2);
    assert Play(s1, es[1..]) == Play(s2, es[2..]);
  }

  // ---------------------------------------------------------------- releases that strand

  /** A run from an unassigned conversation, with one flow in flight per user and no superadmin, ends here. */
  ghost predicate ReachedOrderly(s: State) {
    exists ss: seq<State>, es: seq<Event> :: OrderlyRun(ss, es) && ss[|es|] == s
  }

  lemma OrderlyRunExtends(ss: seq<State>, es: seq<Event>, e: Event)
    requires OrderlyRun(ss, es) && Enabled(ss[|es|], e) && Orderly(ss[|es|], e)
    ensures OrderlyRun(ss + [Apply(ss[|es|], e)], es + [e])
  {
    var ss', es' := ss + [Apply(ss[|es|], e)], es + [e];
    assert forall i :: 0 <= i < |es'| ==> es'[i] == (if i < |es| then es[i] else e) && ss'[i] == ss[i];
  }

  lemma OneMoreStep(s: State, e: Event, t: State)
    requires ReachedOrderly(s) && Enabled(s, e) && Orderly(s, e) && t == Apply(s, e)
    ensures ReachedOrderly(t)
  {
    var ss, es :| OrderlyRun(ss, es) && ss[|es|] == s;
    OrderlyRunExtends(ss, es, e);
    assert (ss + [t])[|es + [e]|] == t;
  }

  /** A flow alone in flight. */
  function Only(assignee: Option<User>, open: bool, at: Point): State {
    State(assignee, open, map[10 := Flow(1, false, at)])
  }

  lemma OnlyStep(assignee: Option<User>, open: bool, at: Point, o: Outcome)
    requires ReachedOrderly(Only(assignee, open, at))
    ensures var effect := StepOf(Flow(1, false, at), assignee, open, o);
            ReachedOrderly(if effect.next.Some? then Only(effect.assignee, effect.open, effect.next.value)
                           else State(effect.assignee, effect.open, map[]))
  {
    var effect := StepOf(Flow(1, false, at), assignee, open, o);
    var t := if effect.next.Some? then Only(effect.assignee, effect.open, effect.next.value)
             else State(effect.assignee, effect.open, map[]);
    var s := Only(assignee, open, at);
    assert Apply(s, Advance(10, o)).flows == t.flows;
    OneMoreStep(s, Advance(10, o), t);
  }

  lemma OnlyBegin(assignee: Option<User>, open: bool, at: Point)
    requires ReachedOrderly(State(assignee, open, map[])) && (at == TakeRead || at == GiveRead)
    ensures ReachedOrderly(Only(assignee, open, at))
  {
    OneMoreStep(State(assignee, open, map[]), Begin(10, 1, false, at), Only(assignee, open, at));
  }

  lemma NothingYet()
    ensures ReachedOrderly(State(None, false, map[]))
  {
    var s0 := State(None, false, map[]);
    var none: seq<Event> := [];
    assert OrderlyRun([s0], none) && [s0][|none|] == s0;
  }

  lemma TakenByOne()
    ensures ReachedOrderly(State(Some(1), true, map[]))
  {
    NothingYet();
    OnlyBegin(None, false, TakeRead);
    OnlyStep(None, false, TakeRead, Done);
    OnlyStep(None, false, TakeClaim(false), Done);
    OnlyStep(Some(1), false, TakeReopen(None), Done);
  }

  /** User 1 takes the conversation, and a release of theirs is authorized. */
  lemma ReleaseUnderWay()
    ensures ReachedOrderly(Only(Some(1), true, GiveStatus(Some(1))))
  {
    TakenByOne();
    OnlyBegin(Some(1), true, GiveRead);
    OnlyStep(Some(1), true, GiveRead, Done);
    OnlyStep(Some(1), true, GiveAuthorize, Done);
  }

  /** A gateway that applies the release and then reports an error leaves user 1 assigned to a conversation
      that is with the bot, with nothing in flight. */
  lemma ALateErrorStrands()
    ensures ReachedOrderly(Only(Some(1), true, GiveStatus(Some(1))))
    ensures Apply(Only(Some(1), true, GiveStatus(Some(1))), Advance(10, RaisedLate)) == State(Some(1), false, map[])
    ensures ReachedOrderly(State(Some(1), false, map[])) && !Consistent(State(Some(1), false, map[]))
  {
    ReleaseUnderWay();
    OnlyStep(Some(1), true, GiveStatus(Some(1)), RaisedLate);
    assert Apply(Only(Some(1), true, GiveStatus(Some(1))), Advance(10, RaisedLate)).flows == map[];
    assert !InFlight(State(Some(1), false, map[]), 1);
  }

  /** So does a release whose gateway call succeeds and whose last transaction fails. */
  lemma AFailedFinalReleaseStrands()
    ensures ReachedOrderly(Only(Some(1), false, GiveRelease(1)))
    ensures Apply(Only(Some(1), false, GiveRelease(1)), Advance(10, Raised)) == State(Some(1), false, map[])
    ensures ReachedOrderly(State(Some(1), false, map[])) && !Consistent(State(Some(1), false, map[]))
  {
    ReleaseUnderWay();
    OnlyStep(Some(1), true, GiveStatus(Some(1)), Done);
    OnlyStep(Some(1), false, GiveRelease(1), Raised);
    assert Apply(Only(Some(1), false, GiveRelease(1)), Advance(10, Raised)).flows == map[];
    assert !InFlight(State(Some(1), false, map[]), 1);
  }

  /** And a takeover whose reopening fails and whose compensation fails as well. */
  lemma AFailedCompensationStrands()
    ensures ReachedOrderly(Only(Some(1), false, TakeCompensate(None)))
    ensures Apply(Only(Some(1), false, TakeCompensate(None)), Advance(10, Raised)) == State(Some(1), false, map[])
    ensures ReachedOrderly(State(Some(1), false, map[])) && !Consistent(State(Some(1), false, map[]))
  {
    NothingYet();
    OnlyBegin(None, false, TakeRead);
    OnlyStep(None, false, TakeRead, Done);
    OnlyStep(None, false, TakeClaim(false), Done);
    OnlyStep(Some(1), false, TakeReopen(None), Raised);
    assert Apply(Only(Some(1), false, TakeCompensate(None)), Advance(10, Raised)).flows == map[];
    OnlyStep(Some(1), false, TakeCompensate(None), Raised);
    assert !InFlight(State(Some(1), false, map[]), 1);
  }

  // ---------------------------------------------------------------- a flow with nobody else around

  /** How each call of one flow ends. */
  datatype Calls = Calls(read: Outcome, transaction: Outcome, status: Outcome, settle: Outcome)

  function CallAt(at: Point, calls: Calls): Outcome {
    match at
    case TakeRead => calls.read
    case GiveRead => calls.read
    case TakeClaim(_) => calls.transaction
    case GiveAuthorize => calls.transaction
    case TakeReopen(_) => calls.status
    case GiveStatus(_) => calls.status
    case TakeCompensate(_) => calls.settle
    case GiveRelease(_) => calls.settle
  }

  function StepsLeft(at: Point): nat {
    match at
    case TakeRead => 3
    case GiveRead => 3
    case TakeClaim(_) => 2
    case GiveAuthorize => 2
    case TakeReopen(_) => 1
    case GiveStatus(_) => 1
    case TakeCompensate(_) => 0
    case GiveRelease(_) => 0
  }

  /** The assignment and the remote status after the flow takes all its remaining steps in a row. */
  function Alone(flow: Flow, assignee: Option<User>, open: bool, calls: Calls): (Option<User>, bool)
    decreases StepsLeft(flow.at)
  {
    var effect := StepOf(flow, assignee, open, CallAt(flow.at, calls));
    match effect.next
    case None => (effect.assignee, effect.open)
    case Some(at) => Alone(flow.(at := at), effect.assignee, effect.open, calls)
  }

  predicate MayTake(user: User, superadmin: bool, assignee: Option<User>) {
    assignee == None || assignee == Some(user) || superadmin
  }

  /** The assignment and status a whole takeover leaves, with its steps spelled out. */
  lemma TakeoverUnfolds(user: User, superadmin: bool, assignee: Option<User>, open: bool, calls: Calls)
    ensures Alone(Flow(user, superadmin, TakeRead), assignee, open, calls) ==
            if calls.read != Done || (assignee == Some(user) && open) || !MayTake(user, superadmin, assignee)
               || calls.transaction != Done then (assignee, open)
            else if calls.status == Done then (Some(user), true)
            else (if calls.settle != Done then Some(user) else if assignee == Some(user) then None else assignee,
                  open || calls.status == RaisedLate)
  {
    var flow := Flow(user, superadmin, TakeRead);
    var claimed := Alone(flow.(at := TakeClaim(open)), assignee, open, calls);
    var reopened := Alone(flow.(at := TakeReopen(assignee)), Some(user), open, calls);
    var settled := Alone(flow.(at := TakeCompensate(assignee)), Some(user), open || calls.status == RaisedLate, calls);
  }

  lemma ReleaseUnfolds(user: User, superadmin: bool, assignee: Option<User>, open: bool, calls: Calls)
    ensures Alone(Flow(user, superadmin, GiveRead), assignee, open, calls) ==
            if calls.read != Done || !open || calls.transaction != Done || (assignee != Some(user) && !superadmin)
            then (assignee, open)
            else if calls.status != Done then (assignee, calls.status != RaisedLate)
            else (if calls.settle == Done then None else assignee, false)
  {
    var flow := Flow(user, superadmin, GiveRead);
    var authorized := Alone(flow.(at := GiveAuthorize), assignee, open, calls);
    var closed := Alone(flow.(at := GiveStatus(assignee)), assignee, open, calls);
    if assignee.Some? {
      var released := Alone(flow.(at := GiveRelease(assignee.value)), assignee, false, calls);
    }
  }

  /** Unopposed, a takeover of a conversation the user may take succeeds, and one they may not changes nothing.
      When the reopening fails the assignment goes back (a user's own goes free), unless the compensation fails
      too; only then does the user keep a conversation that may be with the bot. It never closes a conversation. */
  lemma TakeoverOutcome(user: User, superadmin: bool, assignee: Option<User>, open: bool, calls: Calls)
    ensures var (assignee', open') := Alone(Flow(user, superadmin, TakeRead), assignee, open, calls);
            var begun := calls.read == Done && calls.transaction == Done && MayTake(user, superadmin, assignee)
                         && !(assignee == Some(user) && open);
            && (!begun ==> assignee' == assignee && open' == open)
            && (begun && calls.status == Done ==> assignee' == Some(user) && open')
            && (begun && calls.status != Done && calls.settle == Done ==>
                  assignee' == if assignee == Some(user) then None else assignee)
            && (begun && calls.status != Done && calls.settle != Done ==> assignee' == Some(user))
            && (open ==> open')
            && (begun && assignee' == Some(user) && !open' <==>
                  begun && !open && calls.status == Raised && calls.settle != Done)
  {
    TakeoverUnfolds(user, superadmin, assignee, open, calls);
  }

  /** Alone, a release hands an open conversation over and frees it, or changes nothing, except that it closes
      the conversation without freeing it exactly when the gateway reports its error late or the last
      transaction fails. Only the assigned user or a superadmin gets that far. */
  lemma ReleaseOutcome(user: User, superadmin: bool, assignee: Option<User>, open: bool, calls: Calls)
    ensures var (assignee', open') := Alone(Flow(user, superadmin, GiveRead), assignee, open, calls);
            var begun := calls.read == Done && calls.transaction == Done && open
                         && (assignee == Some(user) || superadmin);
            && (!begun || calls.status == Raised ==> assignee' == assignee && open' == open)
            && (begun && calls.status == Done && calls.settle == Done ==> assignee' == None && !open')
            && (open && !open' && assignee.Some? && assignee' == assignee <==>
                  && begun && assignee.Some?
                  && (calls.status == RaisedLate || (calls.status == Done && calls.settle != Done)))
  {
    ReleaseUnfolds(user, superadmin, assignee, open, calls);
  }

  datatype Answer = Applied | AlreadyThere | TakenByOther | NotTaken | Unavailable

  class AssignmentDesk {
    var assignee: Option<User>
    var open: bool

    constructor (assignee: Option<User>, open: bool)
      ensures this.assignee == assignee && this.open == open
    {
      this.assignee, this.open := assignee, open;
    }

    /** The conditional update of one statement. */
    method Claim(desired: Option<User>, expected: Option<User>) returns (won: bool)
      modifies this`assignee
      ensures won == (old(assignee) == expected)
      ensures assignee == CompareAndSet(old(assignee), expected, desired)
    {
      won := assignee == expected;
      if won {
        assignee := desired;
      }
    }

    method SetStatus(human: bool, call: Outcome)
      modifies this`open
      ensures open == if call == Raised then old(open) else human
    {
      if call != Raised {
        open := human;
      }
    }

    method Takeover(user: User, superadmin: bool, calls: Calls) returns (answer: Answer)
      modifies this
      ensures (assignee, open) == Alone(Flow(user, superadmin, TakeRead), old(assignee), old(open), calls)
      ensures answer == Applied <==>
                && calls.read == Done && calls.transaction == Done && calls.status == Done
                && MayTake(user, superadmin, old(assignee)) && !(old(assignee) == Some(user) && old(open))
      ensures answer == AlreadyThere <==> calls.read == Done && old(assignee) == Some(user) && old(open)
      ensures answer == TakenByOther <==> calls.read == Done && !MayTake(user, superadmin, old(assignee))
      ensures answer != NotTaken && (answer == Applied ==> assignee == Some(user) && open)
    {
      TakeoverUnfolds(user, superadmin, assignee, open, calls);
      if calls.read != Done { return Unavailable; }
      var wasOpen := open;
      var holder := assignee;
      if holder == Some(user) && wasOpen { return AlreadyThere; }
      if holder != None && holder != Some(user) && !superadmin { return TakenByOther; }
      if calls.transaction != Done { return Unavailable; }
      var won := Claim(Some(user), holder);
      SetStatus(true, calls.status);
      if calls.status != Done {
        if calls.settle == Done {
          if holder != None && holder != Some(user) {
            var restored := Claim(holder, Some(user));
          } else {
            var freed := Claim(None, Some(user));
          }
        }
        return Unavailable;
      }
      answer := Applied;
    }

    method Release(user: User, superadmin: bool, calls: Calls) returns (answer: Answer)
      modifies this
      ensures (assignee, open) == Alone(Flow(user, superadmin, GiveRead), old(assignee), old(open), calls)
      ensures answer == Applied <==>
                && calls.read == Done && calls.transaction == Done && calls.status == Done && old(open)
                && (old(assignee) == Some(user) || superadmin) && (old(assignee) == None || calls.settle == Done)
      ensures answer == AlreadyThere <==> calls.read == Done && !old(open)
      ensures answer == NotTaken <==>
                calls.read == Done && calls.transaction == Done && old(open) && old(assignee) == None && !superadmin
      ensures answer == TakenByOther <==>
                && calls.read == Done && calls.transaction == Done && old(open)
                && old(assignee) !in {None, Some(user)} && !superadmin
      ensures answer == Applied ==> assignee == None && !open
    {
      ReleaseUnfolds(user, superadmin, assignee, open, calls);
      if calls.read != Done { return Unavailable; }
      if !open { return AlreadyThere; }
      if calls.transaction != Done { return Unavailable; }
      var seen := assignee;
      if seen == None && !superadmin { return NotTaken; }
      if seen != None && seen != Some(user) && !superadmin { return TakenByOther; }
      SetStatus(false, calls.status);
      if calls.status != Done { return Unavailable; }
      if seen != None {
        if calls.settle != Done { return Unavailable; }
        var freed := Claim(None, seen);
      }
      answer := Applied;
    }
  }
}
