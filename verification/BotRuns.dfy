/**
 * Every run of one conversation with the menu engine, sessions that expire included. Business errors come
 * only from creating a quote and from starting its payment; a created quote has a fresh id.
 */
module BotRuns {
  import opened Common
  import opened BotMenu

  /** What a quote is created with. */
  datatype QuoteInput = QuoteInput(
    package: Option<Choice>, theme: Option<Choice>, extras: seq<MenuOption>, date: Option<int>, time: Option<nat>,
    district: Option<string>, address: Option<string>, fullName: Option<string>, providesMobility: bool,
    observations: Option<string>)

  /** `quotes` are the quotes created so far; `last` is how the last turn that was not a duplicate ended. */
  datatype State = State(stored: Option<Session>, quotes: map<nat, QuoteInput>, last: Option<Ending>)

  datatype Event = Hear(m: Message, w: World) | SessionExpires

  function InputOf(s: Session): QuoteInput {
    QuoteInput(s.package, s.theme, s.extras, s.date, s.time, s.district, s.address, s.fullName,
               s.providesMobility, s.observations)
  }

  predicate LabelsOnly(options: seq<MenuOption>) {
    forall i :: 0 <= i < |options| ==> options[i].key.Label?
  }

  /** Categories are labels; packages, themes and extras are catalogue entries. */
  predicate CatalogFits(w: World) {
    LabelsOnly(w.categories) && EntriesOnly(w.extras) && (w.found.Some? ==> EntriesOnly(w.found.value.themes))
  }

  predicate Enabled(st: State, e: Event) {
    e.Hear? ==>
      && CatalogFits(e.w)
      && (e.w.creation.Success? ==> e.w.creation.value !in st.quotes)
  }

  /** A turn that ends at the confirmation created the quote it shows. */
  function Recorded(quotes: map<nat, QuoteInput>, t: Session): map<nat, QuoteInput> {
    if t.step == CONFIRM && t.quote.Some? then quotes[t.quote.value := InputOf(t)] else quotes
  }

  function Apply(st: State, e: Event): State {
    match e
    case SessionExpires => State(None, st.quotes, None)
    case Hear(m, w) =>
      var (stored, ending) := Turn(st.stored, m, w);
      if ending == Ignored then st
      else
        var quotes := if ending == Advanced && stored.Some? then Recorded(st.quotes, stored.value) else st.quotes;
        State(stored, quotes, Some(ending))
  }

  ghost predicate Run(sts: seq<State>, es: seq<Event>) {
    && |sts| == |es| + 1 && sts[0] == State(None, map[], None)
    && forall i :: 0 <= i < |es| ==> Enabled(sts[i], es[i]) && sts[i + 1] == Apply(sts[i], es[i])
  }

  // ---------------------------------------------------------------- what a session holds at each step

  predicate MenuStep(step: BotStep) {
    step in {CATEGORY, PACKAGE, THEME, EXTRAS, DISTRICT, MOBILITY, CONFIRM, ALTERNATIVES}
  }

  /** The kinds of options each menu shows. */
  predicate MenuFits(s: Session) {
    match s.step
    case CATEGORY => LabelsOnly(s.options)
    case PACKAGE => EntriesOnly(s.options)
    case THEME => EntriesOnly(s.options)
    case EXTRAS => EntriesOnly(s.options)
    case DISTRICT => s.options == DISTRICTS
    case MOBILITY => s.options == MOBILITIES
    case CONFIRM => s.options == PAY
    case ALTERNATIVES => forall i :: 0 <= i < |s.options| ==> !s.options[i].key.Entry? && !s.options[i].key.Label?
    case _ => true
  }

  /** How many of the questions, in the order of a first pass, have an answer. */
  predicate AnsweredUpTo(s: Session, n: nat) {
    && (s.category.Some? <==> n >= 1)
    && (s.package.Some? <==> n >= 2)
    && (s.date.Some? <==> n >= 3)
    && (s.time.Some? <==> n >= 4)
    && (s.district.Some? <==> n >= 5)
    && (s.address.Some? <==> n >= 6)
    && (s.fullName.Some? <==> n >= 7)
    && (n >= 5 ==> Given(s.district))
    && (n >= 6 ==> Given(s.address))
    && (n >= 7 ==> Given(s.fullName))
  }

  const ALL := 7

  /** Exactly the answers each step needs: those of a first pass, or all of them when only the date is asked again. */
  predicate AnswersFit(s: Session) {
    match s.step
    case CATEGORY => AnsweredUpTo(s, 0)
    case PACKAGE => AnsweredUpTo(s, 1)
    case THEME => AnsweredUpTo(s, 2)
    case EXTRAS => AnsweredUpTo(s, 2)
    case DATE => AnsweredUpTo(s, 2) || AnsweredUpTo(s, ALL)
    case TIME => AnsweredUpTo(s, 3) || AnsweredUpTo(s, ALL)
    case DISTRICT => AnsweredUpTo(s, 4)
    case ADDRESS => AnsweredUpTo(s, 5)
    case NAME => AnsweredUpTo(s, 6)
    case _ => AnsweredUpTo(s, ALL)
  }

  predicate Fits(s: Session) {
    && MenuFits(s) && AnswersFit(s) && EntriesOnly(s.extras)
    && (s.options != [] <==> MenuStep(s.step))
    && (s.step == CONFIRM || s.step == PAID ==> s.quote.Some?)
    && (s.quote.Some? ==> AnsweredUpTo(s, ALL) && s.step != OBSERVATIONS && s.step != MOBILITY)
    && (s.observations.Some? ==> s.quote.Some?)
  }

  ghost predicate Inv(st: State) {
    && (st.stored.Some? ==>
          && Fits(st.stored.value)
          && st.stored.value.misses <= 1
          && (st.stored.value.misses == 1 <==> st.last == Some(Missed))
          && (st.stored.value.step == CONFIRM || st.stored.value.step == PAID ==>
                && st.stored.value.quote.value in st.quotes
                && st.quotes[st.stored.value.quote.value] == InputOf(st.stored.value)))
    && (st.stored.None? ==> st.last != Some(Missed))
  }

  // ---------------------------------------------------------------- one handler at a time

  /** A finished handler leaves a session that fits; it never crashes, and it raises only with all answers given. */
  predicate Sound(outcome: Outcome, s: Session) {
    match outcome
    case Success(t) => Fits(t)
    case Failure(Crashed) => false
    case Failure(Raised(_)) => AnsweredUpTo(s, ALL)
    case Failure(_) => true
  }

  lemma {:induction false} EntriesAreEntries(packages: seq<Package>, category: string)
    ensures EntriesOnly(Entries(packages, category))
  {
    if packages != [] {
      EntriesAreEntries(packages[..|packages| - 1], category);
    }
  }

  lemma CategoriesAreSound(s: Session, m: Message, w: World)
    requires Fits(s) && s.step == CATEGORY
    ensures Sound(OnCategory(s, m, w), s)
  {
    var option := PickOption(m.normalized, s.options);
    if option.Some? && option.value.key.Label? {
      EntriesAreEntries(w.packages, option.value.key.name);
    }
  }

  lemma AskingExtrasFits(s: Session, w: World)
    requires AnsweredUpTo(s, 2) && s.quote.None? && s.observations.None? && EntriesOnly(s.extras)
        && EntriesOnly(w.extras)
    ensures Fits(AskExtras(s, w))
  {
  }

  lemma PackagesAreSound(s: Session, m: Message, w: World)
    requires Fits(s) && s.step == PACKAGE && CatalogFits(w)
    ensures Sound(OnPackage(s, m, w), s)
  {
    var option := PickOption(m.normalized, s.options);
    if option.Some? && option.value.key.Entry? && w.found.Some? {
      AskingExtrasFits(s.(package := Some(Choice(option.value.key.id, w.found.value.name))), w);
    }
  }

  lemma ThemesAreSound(s: Session, m: Message, w: World)
    requires Fits(s) && s.step == THEME && CatalogFits(w)
    ensures Sound(OnTheme(s, m, w), s)
  {
    var option := PickOption(m.normalized, s.options);
    if option.Some? && option.value.key.Entry? {
      AskingExtrasFits(s.(theme := Some(Choice(option.value.key.id, option.value.title))), w);
    }
  }

  lemma ExtrasAreSound(s: Session, m: Message)
    requires Fits(s) && s.step == EXTRAS
    ensures Sound(OnExtras(s, m), s)
  {
    var chosen := Picks(Parts(m), s.options);
    if chosen.Some? {
      assert EntriesOnly(chosen.value);
    }
  }

  lemma DistrictsAreSound(s: Session, m: Message)
    requires Fits(s) && s.step == DISTRICT
    ensures Sound(OnDistrict(s, m), s)
  {
  }

  lemma TextsAreSound(s: Session, m: Message, w: World)
    requires Fits(s) && s.step in {DATE, ADDRESS, NAME, MOBILITY, PAID}
    ensures Sound(Advance(s, m, w), s)
  {
  }

  lemma CreatingIsSound(s: Session, complete: Session, w: World)
    requires AnsweredUpTo(s, ALL) && AnsweredUpTo(complete, ALL) && EntriesOnly(complete.extras)
    ensures Sound(CreateQuote(complete, w), s)
  {
  }

  lemma TimesAreSound(s: Session, m: Message, w: World)
    requires Fits(s) && s.step == TIME
    ensures Sound(OnTime(s, m, w), s)
  {
    if m.minute.Some? && AnsweredUpTo(s, ALL) {
      CreatingIsSound(s, s.(time := m.minute), w);
    }
  }

  lemma ObservationsAreSound(s: Session, m: Message, w: World)
    requires Fits(s) && s.step == OBSERVATIONS
    ensures Sound(OnObservations(s, m, w), s)
  {
    var noted := if m.normalized in SKIP_WORDS then None else Some(Clip(m.text, MAX_OBSERVATIONS));
    CreatingIsSound(s, s.(observations := noted), w);
  }

  lemma ConfirmationsAreSound(s: Session, m: Message, w: World)
    requires Fits(s) && s.step == CONFIRM
    ensures Sound(OnConfirm(s, m, w), s)
  {
  }

  lemma AlternativesAreSound(s: Session, m: Message, w: World)
    requires Fits(s) && s.step == ALTERNATIVES
    ensures Sound(OnAlternatives(s, m, w), s)
  {
    var option := PickOption(m.normalized, s.options);
    if option.Some? && option.value.key.Moment? {
      CreatingIsSound(s, s.(date := Some(option.value.key.day), time := Some(option.value.key.minute)), w);
    }
  }

  lemma HandlersAreSound(s: Session, m: Message, w: World)
    requires Fits(s) && CatalogFits(w)
    ensures Sound(Advance(s, m, w), s)
  {
    match s.step
    case CATEGORY => CategoriesAreSound(s, m, w);
    case PACKAGE => PackagesAreSound(s, m, w);
    case THEME => ThemesAreSound(s, m, w);
    case EXTRAS => ExtrasAreSound(s, m);
    case DISTRICT => DistrictsAreSound(s, m);
    case TIME => TimesAreSound(s, m, w);
    case OBSERVATIONS => ObservationsAreSound(s, m, w);
    case CONFIRM => ConfirmationsAreSound(s, m, w);
    case ALTERNATIVES => AlternativesAreSound(s, m, w);
    case _ => TextsAreSound(s, m, w);
  }

  lemma ReactionsFit(s: Session, trouble: Trouble)
    requires Fits(s) && AnsweredUpTo(s, ALL)
    ensures Fits(React(s, trouble))
  {
  }

  lemma CatalogueDoesNotQuote(s: Session, m: Message, w: World)
    requires s.step in {CATEGORY, PACKAGE, THEME, EXTRAS}
    ensures Advance(s, m, w).Success? ==> Advance(s, m, w).value.step !in {CONFIRM, PAID}
  {
    match s.step
    case CATEGORY => assert Advance(s, m, w) == OnCategory(s, m, w);
    case PACKAGE => assert Advance(s, m, w) == OnPackage(s, m, w);
    case THEME => assert Advance(s, m, w) == OnTheme(s, m, w);
    case EXTRAS => assert Advance(s, m, w) == OnExtras(s, m);
  }

  lemma DetailsDoNotQuote(s: Session, m: Message, w: World)
    requires s.step in {DATE, DISTRICT, ADDRESS, NAME, MOBILITY}
    ensures Advance(s, m, w).Success? ==> Advance(s, m, w).value.step !in {CONFIRM, PAID}
  {
    match s.step
    case DATE => assert Advance(s, m, w) == OnDate(s, m, w);
    case DISTRICT => assert Advance(s, m, w) == OnDistrict(s, m);
    case ADDRESS => assert Advance(s, m, w) == OnAddress(s, m);
    case NAME => assert Advance(s, m, w) == OnName(s, m);
    case MOBILITY => assert Advance(s, m, w) == OnMobility(s, m);
  }

  lemma QuestionsDoNotQuote(s: Session, m: Message, w: World)
    requires s.step !in {TIME, OBSERVATIONS, CONFIRM, ALTERNATIVES, PAID}
    ensures Advance(s, m, w).Success? ==> Advance(s, m, w).value.step !in {CONFIRM, PAID}
  {
    match s.step
    case CATEGORY | PACKAGE | THEME | EXTRAS => CatalogueDoesNotQuote(s, m, w);
    case DATE | DISTRICT | ADDRESS | NAME | MOBILITY => DetailsDoNotQuote(s, m, w);
    case _ =>
  }

  /** A handler that ends at the confirmation created the quote there; the payment leaves the answers alone. */
  lemma QuotesMatchTheirSession(s: Session, m: Message, w: World)
    requires Advance(s, m, w).Success?
    ensures Advance(s, m, w).value.step == CONFIRM ==>
              w.creation.Success? && Advance(s, m, w).value.quote == Some(w.creation.value)
    ensures Advance(s, m, w).value.step == PAID ==> s.step in {CONFIRM, PAID} && Advance(s, m, w).value.quote == s.quote
                                                    && InputOf(Advance(s, m, w).value) == InputOf(s)
  {
    if s.step !in {TIME, OBSERVATIONS, CONFIRM, ALTERNATIVES, PAID} {
      QuestionsDoNotQuote(s, m, w);
    }
  }

  lemma SavingKeepsInv(quotes: map<nat, QuoteInput>, u: Session, id: nat)
    requires Fits(u)
    requires u.step == PAID ==> u.quote.value in quotes && quotes[u.quote.value] == InputOf(u)
    ensures var t := u.(misses := 0, lastMessage := Some(id)); Inv(State(Some(t), Recorded(quotes, t), Some(Advanced)))
  {
  }

  lemma AdvancesKeepInv(st: State, t: Session, m: Message, w: World)
    requires Inv(st) && Enabled(st, Hear(m, w)) && Turn(st.stored, m, w) == (Some(t), Advanced)
    ensures Inv(Apply(st, Hear(m, w)))
  {
    var outcome := Attempt(st.stored, m, w);
    if !Restarts(st.stored, m) {
      HandlersAreSound(st.stored.value, m, w);
      QuotesMatchTheirSession(st.stored.value, m, w);
    }
    SavingKeepsInv(st.quotes, outcome.value, m.id);
  }

  /** Rolling back saves no quote; a session past the confirmation still shows the one it had. */
  lemma RestoringKeepsInv(st: State, trouble: Trouble, id: nat)
    requires Inv(st) && st.stored.Some? && AnsweredUpTo(st.stored.value, ALL)
    ensures var t := React(st.stored.value, trouble).(misses := 0, lastMessage := Some(id));
            Inv(State(Some(t), st.quotes, Some(Reacted)))
  {
    ReactionsFit(st.stored.value, trouble);
  }

  lemma ReactionsKeepInv(st: State, t: Session, m: Message, w: World)
    requires Inv(st) && Enabled(st, Hear(m, w)) && Turn(st.stored, m, w) == (Some(t), Reacted)
    ensures Inv(Apply(st, Hear(m, w)))
  {
    var outcome := Attempt(st.stored, m, w);
    assert !Restarts(st.stored, m);
    HandlersAreSound(st.stored.value, m, w);
    RestoringKeepsInv(st, outcome.error.trouble, m.id);
  }

  lemma OthersKeepInv(st: State, m: Message, w: World)
    requires Inv(st) && Enabled(st, Hear(m, w)) && Turn(st.stored, m, w).1 !in {Advanced, Reacted}
    ensures Inv(Apply(st, Hear(m, w)))
  {
    var (stored, ending) := Turn(st.stored, m, w);
    if ending == Missed {
      assert !Restarts(st.stored, m) && stored.value == st.stored.value.(misses := 1, lastMessage := Some(m.id));
    }
  }

  lemma TurnKeepsInv(st: State, m: Message, w: World)
    requires Inv(st) && Enabled(st, Hear(m, w))
    ensures Inv(Apply(st, Hear(m, w)))
  {
    var (stored, ending) := Turn(st.stored, m, w);
    match ending
    case Advanced => AdvancesKeepInv(st, stored.value, m, w);
    case Reacted => ReactionsKeepInv(st, stored.value, m, w);
    case _ => OthersKeepInv(st, m, w);
  }

  lemma {:induction false} EveryRunKeepsInv(sts: seq<State>, es: seq<Event>, i: nat)
    requires Run(sts, es) && i < |sts|
    ensures Inv(sts[i])
  {
    if i > 0 {
      EveryRunKeepsInv(sts, es, i - 1);
      if es[i - 1].Hear? {
        TurnKeepsInv(sts[i - 1], es[i - 1].m, es[i - 1].w);
      }
    }
  }

  // ---------------------------------------------------------------- what follows for every run

  /** Every saved session has exactly the answers its step needs, options exactly at menus, and at most one miss. */
  lemma SavedSessionsFitTheirStep(sts: seq<State>, es: seq<Event>, i: nat)
    requires Run(sts, es) && i < |sts| && sts[i].stored.Some?
    ensures AnswersFit(sts[i].stored.value) && MenuFits(sts[i].stored.value)
    ensures sts[i].stored.value.options != [] <==> MenuStep(sts[i].stored.value.step)
    ensures sts[i].stored.value.misses <= 1
  {
    EveryRunKeepsInv(sts, es, i);
  }

  /** No turn of any run finds its session lacking or malformed. */
  lemma NoTurnCrashes(sts: seq<State>, es: seq<Event>, i: nat)
    requires Run(sts, es) && i < |es| && es[i].Hear?
    ensures Attempt(sts[i].stored, es[i].m, es[i].w) != Failure(Crashed)
  {
    EveryRunKeepsInv(sts, es, i);
    if !Restarts(sts[i].stored, es[i].m) {
      HandlersAreSound(sts[i].stored.value, es[i].m, es[i].w);
    }
  }

  /** A turn gives up for lack of understanding exactly when it does not understand and the last turn that was
      not a duplicate did not either, whatever rollbacks came in between. */
  lemma TheSecondMissHandsOff(sts: seq<State>, es: seq<Event>, i: nat)
    requires Run(sts, es) && i < |es| && es[i].Hear?
    ensures Turn(sts[i].stored, es[i].m, es[i].w).1 == HandedOff(NotUnderstoodTwice) <==>
              && sts[i].last == Some(Missed)
              && Attempt(sts[i].stored, es[i].m, es[i].w) == Failure(NotUnderstood)
              && !es[i].m.asksForPerson && sts[i].stored.value.lastMessage != Some(es[i].m.id)
  {
    EveryRunKeepsInv(sts, es, i);
  }

  lemma FailuresGoBackToTheSnapshot(snapshot: Session, outcome: Outcome, t: Session, m: Message, w: World)
    requires Conclude(snapshot, outcome, m, w).0 == Some(t) && Conclude(snapshot, outcome, m, w).1 in {Missed, Reacted}
    ensures InputOf(t) == InputOf(snapshot) && t.category == snapshot.category && t.quote == snapshot.quote
    ensures t.step != snapshot.step ==> t.step in {DATE, ALTERNATIVES} && outcome.Failure? && outcome.error.Raised?
  {
  }

  /** A turn that is not understood, or that a business error rolls back, loses none of the earlier answers;
      it can only come back to the date or offer alternatives. */
  lemma FailedTurnsKeepTheAnswers(sts: seq<State>, es: seq<Event>, i: nat, s: Session, t: Session)
    requires Run(sts, es) && i < |es| && es[i].Hear? && sts[i].stored == Some(s)
    requires Turn(sts[i].stored, es[i].m, es[i].w).0 == Some(t)
    requires Turn(sts[i].stored, es[i].m, es[i].w).1 in {Missed, Reacted}
    ensures InputOf(t) == InputOf(s) && t.category == s.category && t.quote == s.quote
    ensures t.step != s.step ==> t.step in {DATE, ALTERNATIVES} && AnsweredUpTo(t, ALL)
  {
    EveryRunKeepsInv(sts, es, i);
    assert !Restarts(sts[i].stored, es[i].m);
    HandlersAreSound(s, es[i].m, es[i].w);
    FailuresGoBackToTheSnapshot(s, Advance(s, es[i].m, es[i].w), t, es[i].m, es[i].w);
  }

  /** A conversation at the confirmation, or past it, holds a quote that was created with the very answers the
      session shows; so the payment that starts is for what the client last agreed. */
  lemma PaysForWhatWasQuoted(sts: seq<State>, es: seq<Event>, i: nat)
    requires Run(sts, es) && i < |sts| && sts[i].stored.Some? && sts[i].stored.value.step in {CONFIRM, PAID}
    ensures sts[i].stored.value.quote.Some? && sts[i].stored.value.quote.value in sts[i].quotes
    ensures sts[i].quotes[sts[i].stored.value.quote.value] == InputOf(sts[i].stored.value)
  {
    EveryRunKeepsInv(sts, es, i);
  }

  lemma FirstQuoteOfASession(s: Session, m: Message, w: World)
    requires Fits(s) && s.quote.None? && Advance(s, m, w).Success? && Advance(s, m, w).value.step == CONFIRM
    ensures Advance(s, m, w).value.observations ==
            if s.step == OBSERVATIONS && m.normalized !in SKIP_WORDS then Some(Clip(m.text, MAX_OBSERVATIONS)) else None
  {
    if s.step !in {TIME, OBSERVATIONS, CONFIRM, ALTERNATIVES, PAID} {
      QuestionsDoNotQuote(s, m, w);
    }
  }

  /** The first quote of a session carries observations if and only if it is created on the very turn they are
      given: when that attempt is rejected, the rollback forgets the text and no later turn asks for it. */
  lemma ObservationsKeptExactlyOnTheirTurn(sts: seq<State>, es: seq<Event>, i: nat, s: Session, t: Session)
    requires Run(sts, es) && i < |es| && es[i].Hear? && sts[i].stored == Some(s) && s.quote.None?
    requires Turn(sts[i].stored, es[i].m, es[i].w) == (Some(t), Advanced) && t.step == CONFIRM
    ensures t.observations.Some? <==> s.step == OBSERVATIONS && es[i].m.normalized !in SKIP_WORDS
    ensures t.observations.Some? ==> t.observations.value == Clip(es[i].m.text, MAX_OBSERVATIONS)
    ensures t.quote.Some? && t.quote.value in sts[i + 1].quotes
    ensures sts[i + 1].quotes[t.quote.value].observations == t.observations
  {
    EveryRunKeepsInv(sts, es, i);
    EveryRunKeepsInv(sts, es, i + 1);
    assert !Restarts(sts[i].stored, es[i].m);
    FirstQuoteOfASession(s, es[i].m, es[i].w);
    assert sts[i + 1].stored == Some(t);
  }

  // ---------------------------------------------------------------- runs that reach a state

  ghost predicate Reached(st: State) {
    exists sts: seq<State>, es: seq<Event> :: Run(sts, es) && sts[|es|] == st
  }

  lemma NothingSaid()
    ensures Reached(State(None, map[], None))
  {
    var sts, es: seq<Event> := [State(None, map[], None)], [];
    assert Run(sts, es) && sts[|es|] == State(None, map[], None);
  }

  lemma RunExtends(sts: seq<State>, es: seq<Event>, e: Event)
    requires Run(sts, es) && Enabled(sts[|es|], e)
    ensures Run(sts + [Apply(sts[|es|], e)], es + [e])
  {
    var sts', es' := sts + [Apply(sts[|es|], e)], es + [e];
    forall i | 0 <= i < |es'| ensures Enabled(sts'[i], es'[i]) && sts'[i + 1] == Apply(sts'[i], es'[i]) {
      if i < |es| {
        assert sts'[i] == sts[i] && es'[i] == es[i] && sts'[i + 1] == sts[i + 1];
      } else {
        assert sts'[i] == sts[|es|] && es'[i] == e;
      }
    }
  }

  lemma ReachedThen(st: State, e: Event, after: State)
    requires Reached(st) && Enabled(st, e) && after == Apply(st, e)
    ensures Reached(after)
  {
    var sts, es :| Run(sts, es) && sts[|es|] == st;
    RunExtends(sts, es, e);
    assert (sts + [after])[|es + [e]|] == after;
  }
}
