/**
 * What the limits on OTP requests really allow: the request times that runs produce are exactly those spaced by
 * a minute with at most three to each window the counters open. From that follows what the announced limit,
 * three requests every ten minutes, would need.
 */
module SigningLimits {
  import opened Common
  import opened Contracts
  import opened Signing

  // ---------------------------------------------------------------- every limited schedule happens

  /** An event whose advance is paid and whose contract is to be signed. */
  const PAID := EventData(AwaitingSignature, false, 100, 0, 100, 10, 10)

  /** An issued contract after requests at the times `ts`, with tokens below `next` used. */
  ghost predicate IssuedAfter(d: Deal, ts: seq<int>, next: Token) {
    && d.contract.status == Issued && Paid(d.data) && !d.data.started
    && RequestTimes(d.log) == ts && CountersFollow(d.contract, ts)
    && forall i :: 0 <= i < |d.log| && d.log[i].Linked? ==> d.log[i].token < next
  }

  lemma OneMore(policy: Policy, ds: seq<Deal>, steps: seq<Step>, s: Step)
    returns (ds': seq<Deal>, steps': seq<Step>)
    requires Run(policy, ds, steps) && Enabled(ds[|steps|], s)
    ensures Run(policy, ds', steps') && ds'[|steps'|] == Apply(policy, ds[|steps|], s)
  {
    ds', steps' := ds + [Apply(policy, ds[|steps|], s)], steps + [s];
    forall i | 0 <= i < |steps'|
      ensures Enabled(ds'[i], steps'[i]) && ds'[i + 1] == Apply(policy, ds'[i], steps'[i])
    {
      if i < |steps| {
        assert ds'[i] == ds[i] && steps'[i] == steps[i] && ds'[i + 1] == ds[i + 1];
      } else {
        assert ds'[i] == ds[|steps|] && steps'[i] == s;
      }
    }
  }

  lemma RelinkSucceeds(policy: Policy, c: Contract, data: EventData, render: Option<string>, token: Token, now: int)
    requires c.status == Issued && Paid(data) && render.None?
    ensures Relink(policy, c, data, render, token, now).Success?
    ensures var c' := Relink(policy, c, data, render, token, now).value;
      && c'.status == Issued && c'.link == Some(token) && c'.linkExpiresAt == Some(now + policy.linkSeconds)
      && c'.lastRequestedAt == c.lastRequestedAt && c'.windowStartedAt == c.windowStartedAt
      && c'.requestCount == c.requestCount
  {
  }

  lemma CountersAreKept(c: Contract, c': Contract, ts: seq<int>)
    requires CountersFollow(c, ts) && c'.lastRequestedAt == c.lastRequestedAt
    requires c'.windowStartedAt == c.windowStartedAt && c'.requestCount == c.requestCount
    ensures CountersFollow(c', ts)
  {
  }

  lemma TimePasses(policy: Policy, d: Deal, ts: seq<int>, next: Token, t: int) returns (s: Step, e: Deal)
    requires IssuedAfter(d, ts, next) && d.now <= t
    ensures Enabled(d, s) && e == Apply(policy, d, s) && IssuedAfter(e, ts, next) && e.now == t
  {
    s, e := Tick(t - d.now), d.(now := t);
  }

  lemma LinkIsReplaced(policy: Policy, d: Deal, ts: seq<int>, next: Token, t: int, render: Option<string>)
    returns (s: Step, e: Deal)
    requires IssuedAfter(d, ts, next) && d.now == t && render.None?
    ensures Enabled(d, s) && e == Apply(policy, d, s)
    ensures IssuedAfter(e, ts, next + 1) && e.now == t
    ensures e.contract.link == Some(next) && e.contract.linkExpiresAt == Some(t + policy.linkSeconds)
  {
    s := DoRelink(render, next);
    RelinkSucceeds(policy, d.contract, d.data, render, next, t);
    var relinked := Relink(policy, d.contract, d.data, render, next, t).value;
    CountersAreKept(d.contract, relinked, ts);
    LogGrowth(d.log, Linked(t, next));
    e := Record(d, relinked, Linked(t, next));
  }

  lemma RequestIsGranted(policy: Policy, d: Deal, ts: seq<int>, t: int, next: Token) returns (s: Step, e: Deal)
    requires IssuedAfter(d, ts, next + 1) && d.now == t && Limited(ts) && Limited(ts + [t])
    requires d.contract.link == Some(next) && d.contract.linkExpiresAt.Some? && d.contract.linkExpiresAt.value > t
    ensures Enabled(d, s) && e == Apply(policy, d, s) && IssuedAfter(e, ts + [t], next + 1) && e.now == t
  {
    LimitedIsGranted(d.contract, ts, t);
    var code: nat := 0;
    s := DoRequest(next, code);
    assert ResolveError(d.contract, d.data, next, t) == None;
    RequestCounts(policy, d.contract, d.data, next, code, t, ts);
    LogGrowth(d.log, Requested(t, next, code));
    e := Record(d, RequestOtp(policy, d.contract, d.data, next, code, t).value, Requested(t, next, code));
  }

  /** Time passes, the link is rotated, and a code is requested on the new link. */
  lemma OneMoreRequest(policy: Policy, ds: seq<Deal>, steps: seq<Step>, ts: seq<int>, t: int, next: Token)
    returns (ds': seq<Deal>, steps': seq<Step>)
    requires policy.linkSeconds > 0 && Run(policy, ds, steps) && IssuedAfter(ds[|steps|], ts, next)
    requires Limited(ts) && Limited(ts + [t]) && ds[|steps|].now <= t
    ensures Run(policy, ds', steps') && IssuedAfter(ds'[|steps'|], ts + [t], next + 1)
    ensures ds'[|steps'|].now == t
  {
    var wait, waiting := TimePasses(policy, ds[|steps|], ts, next, t);
    ds', steps' := OneMore(policy, ds, steps, wait);
    var relink, linked := LinkIsReplaced(policy, waiting, ts, next, t, None);
    ds', steps' := OneMore(policy, ds', steps', relink);
    var request, asked := RequestIsGranted(policy, linked, ts, t, next);
    ds', steps' := OneMore(policy, ds', steps', request);
  }

  /** Whatever times the limits admit, some run makes its requests at exactly those times. */
  lemma {:induction false} LimitedTimesHappen(policy: Policy, ts: seq<int>, start: int)
    returns (ds: seq<Deal>, steps: seq<Step>)
    requires policy.linkSeconds > 0 && Limited(ts) && (ts != [] ==> start <= ts[0])
    ensures Run(policy, ds, steps) && IssuedAfter(ds[|steps|], ts, |ts|)
    ensures ds[|steps|].now == if ts == [] then start else ts[|ts| - 1]
  {
    if ts == [] {
      var issued := NewContract(1, 1).(status := Issued, pdf := Some("p"));
      ds, steps := [Deal(issued, PAID, start, [])], [];
    } else {
      var shorter, t := ts[..|ts| - 1], ts[|ts| - 1];
      LimitedPrefix(ts);
      ds, steps := LimitedTimesHappen(policy, shorter, start);
      assert ts == shorter + [t];
      assert shorter != [] ==> ts[|ts| - 2] + REQUEST_SPACING <= ts[|ts| - 1];
      ds, steps := OneMoreRequest(policy, ds, steps, shorter, t, |shorter|);
    }
  }

  ghost predicate Happens(policy: Policy, ts: seq<int>) {
    exists ds: seq<Deal>, steps: seq<Step>, k: nat ::
      Run(policy, ds, steps) && k < |ds| && RequestTimes(ds[k].log) == ts
  }

  /** The times at which the requests of a run succeed are exactly those the limits describe. */
  lemma TheLimitsAreExact(policy: Policy, ts: seq<int>)
    requires policy.linkSeconds > 0 && policy.maxAttempts >= 1
    ensures Happens(policy, ts) <==> Limited(ts)
  {
    if Limited(ts) {
      var ds, steps := LimitedTimesHappen(policy, ts, if ts == [] then 0 else ts[0]);
      assert RequestTimes(ds[|steps|].log) == ts;
    }
    if Happens(policy, ts) {
      var ds: seq<Deal>, steps: seq<Step>, k: nat :|
        Run(policy, ds, steps) && k < |ds| && RequestTimes(ds[k].log) == ts;
      EveryRunKeepsLimits(policy, ds, steps, k);
    }
  }

  // ---------------------------------------------------------------- three every ten minutes

  /** No ten minutes hold more than three requests: what the error message announces. */
  ghost predicate AsAnnounced(ts: seq<int>) {
    forall from :: InWindow(ts, from) <= 3
  }

  /** Every request comes ten minutes or more after the one three before it. */
  ghost predicate FourthComesLate(ts: seq<int>) {
    forall i :: 3 <= i < |ts| ==> ts[i - 3] + REQUEST_WINDOW <= ts[i]
  }

  /** Times from `a` to `b` within the window are all counted. */
  lemma {:induction false} WindowHoldsAtLeast(ts: seq<int>, from: int, a: nat, b: nat)
    requires Limited(ts) && a <= b < |ts| && from <= ts[a] && ts[b] < from + REQUEST_WINDOW
    ensures InWindow(ts, from) >= b - a + 1
    decreases |ts|
  {
    LimitedPrefix(ts);
    var shorter, last := ts[..|ts| - 1], |ts| - 1;
    if b < last {
      WindowHoldsAtLeast(shorter, from, a, b);
    } else {
      SpacedApart(ts, a, b);
      if a < b {
        SpacedApart(ts, b - 1, b);
        WindowHoldsAtLeast(shorter, from, a, b - 1);
      }
    }
  }

  lemma {:induction false} LateFourthsMeanThree(ts: seq<int>, from: int)
    requires Limited(ts) && FourthComesLate(ts)
    ensures InWindow(ts, from) <= 3
  {
    if ts != [] {
      LimitedPrefix(ts);
      var shorter, last := ts[..|ts| - 1], |ts| - 1;
      forall i | 3 <= i < |shorter| ensures shorter[i - 3] + REQUEST_WINDOW <= shorter[i] {
        assert ts[i - 3] + REQUEST_WINDOW <= ts[i];
      }
      LateFourthsMeanThree(shorter, from);
      assert last >= 3 ==> ts[last - 3] + REQUEST_WINDOW <= ts[last];
      if from <= ts[last] < from + REQUEST_WINDOW && InWindow(ts, from) > 3 {
        WindowHoldsTheLastOnes(ts, from, 3);
      }
    }
  }

  /** The announced limit is kept if and only if no request is granted within ten minutes of the one three
      before it, which the program does not check across the windows of its counters. */
  lemma AnnouncedExactlyWhenFourthsAreLate(ts: seq<int>)
    requires Limited(ts)
    ensures AsAnnounced(ts) <==> FourthComesLate(ts)
  {
    if FourthComesLate(ts) {
      forall from ensures InWindow(ts, from) <= 3 {
        LateFourthsMeanThree(ts, from);
      }
    }
    if AsAnnounced(ts) {
      forall i | 3 <= i < |ts| ensures ts[i - 3] + REQUEST_WINDOW <= ts[i] {
        assert InWindow(ts, ts[i - 3]) <= 3;
        if ts[i] < ts[i - 3] + REQUEST_WINDOW {
          WindowHoldsAtLeast(ts, ts[i - 3], i - 3, i);
        }
      }
    }
  }

  // ---------------------------------------------------------------- a spacing that would keep it

  ghost predicate SpacedBy(ts: seq<int>, s: int) {
    forall i :: 0 < i < |ts| ==> ts[i - 1] + s <= ts[i]
  }

  const SAFE_SPACING := 200

  lemma WideSpacingIsLate(ts: seq<int>, s: int)
    requires SpacedBy(ts, s) && s >= SAFE_SPACING
    ensures FourthComesLate(ts)
  {
    forall i | 3 <= i < |ts| ensures ts[i - 3] + REQUEST_WINDOW <= ts[i] {
      assert ts[i - 3] + s <= ts[i - 2] && ts[i - 2] + s <= ts[i - 1] && ts[i - 1] + s <= ts[i];
    }
  }

  /** Two windows of three: an opener, two requests at the end of its window, and three in the next. */
  function TwoWindows(s: int): seq<int> {
    [0, 600 - 2 * s, 600 - s, 600, 600 + s, 600 + 2 * s]
  }

  lemma TwoWindowsAreLimited(s: int)
    requires REQUEST_SPACING <= s < SAFE_SPACING
    ensures Limited(TwoWindows(s)) && SpacedBy(TwoWindows(s), s)
    ensures TwoWindows(s)[4] < TwoWindows(s)[1] + REQUEST_WINDOW
  {
    var ts := TwoWindows(s);
    assert Place(ts, 0) == 0 && Place(ts, 1) == 1 && Place(ts, 2) == 2;
    assert Place(ts, 3) == 0 && Place(ts, 4) == 1 && Place(ts, 5) == 2;
    assert forall i :: 0 <= i < |ts| ==> Place(ts, i) < REQUESTS_PER_WINDOW;
  }

  /** All runs whose requests are at least `s` seconds apart keep to the announced limit. */
  ghost predicate SpacingSuffices(policy: Policy, s: int) {
    forall ds: seq<Deal>, steps: seq<Step>, k: nat ::
      Run(policy, ds, steps) && k < |ds| && SpacedBy(RequestTimes(ds[k].log), s) ==>
        AsAnnounced(RequestTimes(ds[k].log))
  }

  /** With requests spaced by less than two hundred seconds, a run has four of them within ten minutes. */
  lemma TightSpacingBreaksTheAnnouncement(policy: Policy, s: int) returns (ds: seq<Deal>, steps: seq<Step>)
    requires policy.linkSeconds > 0 && s < SAFE_SPACING
    ensures Run(policy, ds, steps) && SpacedBy(RequestTimes(ds[|steps|].log), s)
    ensures !AsAnnounced(RequestTimes(ds[|steps|].log))
  {
    var tight := Max(s, REQUEST_SPACING);
    var ts := TwoWindows(tight);
    TwoWindowsAreLimited(tight);
    ds, steps := LimitedTimesHappen(policy, ts, 0);
    WindowHoldsAtLeast(ts, ts[1], 1, 4);
    assert InWindow(ts, ts[1]) > 3;
  }

  /** A minimum spacing of `s` seconds makes every run keep to three requests every ten minutes if and only if it
      is at least two hundred seconds; the program asks for sixty. */
  lemma ThreeExactlyFromTwoHundredSeconds(policy: Policy, s: int)
    requires policy.linkSeconds > 0 && policy.maxAttempts >= 1
    ensures SpacingSuffices(policy, s) <==> s >= SAFE_SPACING
  {
    if s >= SAFE_SPACING {
      forall ds: seq<Deal>, steps: seq<Step>, k: nat |
        Run(policy, ds, steps) && k < |ds| && SpacedBy(RequestTimes(ds[k].log), s)
        ensures AsAnnounced(RequestTimes(ds[k].log))
      {
        EveryRunKeepsLimits(policy, ds, steps, k);
        WideSpacingIsLate(RequestTimes(ds[k].log), s);
        AnnouncedExactlyWhenFourthsAreLate(RequestTimes(ds[k].log));
      }
    } else {
      var ds, steps := TightSpacingBreaksTheAnnouncement(policy, s);
      assert !AsAnnounced(RequestTimes(ds[|steps|].log));
    }
  }

  /** A run has five successful requests within ten minutes: five is the bound that holds. */
  lemma FiveInTenMinutesHappen(policy: Policy) returns (ds: seq<Deal>, steps: seq<Step>)
    requires policy.linkSeconds > 0
    ensures Run(policy, ds, steps) && InWindow(RequestTimes(ds[|steps|].log), 480) == 5
  {
    var ts := TwoWindows(60);
    TwoWindowsAreLimited(60);
    ds, steps := LimitedTimesHappen(policy, ts, 0);
    WindowHoldsAtLeast(ts, 480, 1, 5);
    AtMostFiveInAnyTenMinutes(ts, 480);
  }
}
