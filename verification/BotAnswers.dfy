/**
 * What one message does to a conversation with the menu engine, told answer by answer instead of handler by handler:
 * what is understood, which answer of the session it becomes, and which question comes next.
 */
module BotAnswers {
  import opened Common
  import opened BotMenu
  import opened BotRuns

  // ---------------------------------------------------------------- choosing an option

  function Decimal(n: nat): string {
    if n < 10 then ['0' + n as char] else Decimal(n / 10) + ['0' + (n % 10) as char]
  }

  /** A number written in digits reads as itself. */
  lemma {:induction false} NumbersReadBack(n: nat)
    ensures IsDecimal(Decimal(n)) && ToNat(Decimal(n)) == n
  {
    if n >= 10 {
      NumbersReadBack(n / 10);
      var tens := Decimal(n / 10);
      assert Decimal(n)[..|Decimal(n)| - 1] == tens;
    }
  }

  /** And zeros before it change nothing. */
  lemma {:induction false} LeadingZerosCountNothing(s: string)
    requires IsDecimal(s)
    ensures IsDecimal("0" + s) && ToNat("0" + s) == ToNat(s)
  {
    var padded := "0" + s;
    assert padded[..|padded| - 1] == "0" + s[..|s| - 1];
    if |s| == 1 {
      assert padded[..1] == "0";
    } else {
      LeadingZerosCountNothing(s[..|s| - 1]);
    }
  }

  /** Option `i` is the one at the position written, counted from one, or else the first with the title written. */
  ghost predicate Chooses(said: string, options: seq<MenuOption>, i: int) {
    && 0 <= i < |options|
    && if IsDecimal(said) then ToNat(said) == i + 1
       else options[i].said == said && forall j :: 0 <= j < i ==> options[j].said != said
  }

  lemma {:induction false} FirstByTitle(said: string, options: seq<MenuOption>, i: nat)
    requires i < |options| && options[i].said == said && forall j :: 0 <= j < i ==> options[j].said != said
    ensures ByTitle(said, options) == Some(options[i])
  {
    if i > 0 {
      FirstByTitle(said, options[1..], i - 1);
    }
  }

  /** What is picked is what was written, and nothing exactly when no option was. */
  lemma PicksWhatWasWritten(said: string, options: seq<MenuOption>)
    ensures PickOption(said, options).None? <==> forall i :: !Chooses(said, options, i)
    ensures forall i :: Chooses(said, options, i) ==> PickOption(said, options) == Some(options[i])
  {
    forall i | Chooses(said, options, i)
      ensures PickOption(said, options) == Some(options[i])
    {
      if !IsDecimal(said) {
        FirstByTitle(said, options, i);
      }
    }
    if PickOption(said, options).Some? {
      var i := ChosenPlace(said, options);
      assert Chooses(said, options, i);
    }
  }

  lemma {:induction false} ChosenPlace(said: string, options: seq<MenuOption>) returns (i: nat)
    requires PickOption(said, options).Some?
    ensures Chooses(said, options, i)
  {
    if IsDecimal(said) {
      i := ToNat(said) - 1;
    } else if options[0].said == said {
      i := 0;
    } else {
      assert ByTitle(said, options[1..]).Some?;
      i := ChosenPlace(said, options[1..]);
      i := i + 1;
    }
  }

  /** Numbers written one after another pick one option each, whether separated or not; any other text is picked piece
      by piece. */
  lemma NumbersPickOneEach(m: Message, numbers: seq<nat>)
    requires m.tokens == seq(|numbers|, i requires 0 <= i < |numbers| => Decimal(numbers[i])) && |m.pieces| == 1
    ensures Parts(m) == m.tokens
    ensures forall i :: 0 <= i < |numbers| ==> IsDecimal(m.tokens[i]) && ToNat(m.tokens[i]) == numbers[i]
  {
    forall i | 0 <= i < |numbers|
      ensures IsDecimal(m.tokens[i]) && ToNat(m.tokens[i]) == numbers[i]
    {
      NumbersReadBack(numbers[i]);
    }
  }

  lemma OtherTextsPickByPiece(m: Message)
    requires |m.pieces| != 1 || exists i :: 0 <= i < |m.tokens| && !IsDecimal(m.tokens[i])
    ensures Parts(m) == m.pieces
  {
  }

  // ---------------------------------------------------------------- what the catalogue and the alternatives offer

  lemma {:induction false} EntriesConcat(a: seq<Package>, b: seq<Package>, category: string)
    ensures Entries(a + b, category) == Entries(a, category) + Entries(b, category)
  {
    if b == [] {
      assert a + b == a;
    } else {
      EntriesConcat(a, b[..|b| - 1], category);
      assert (a + b)[..|a + b| - 1] == a + b[..|b| - 1];
    }
  }

  /** A category offers exactly its packages, in the order of the catalogue. */
  lemma CategoriesOfferTheirPackages(before: seq<Package>, p: Package, after: seq<Package>, category: string)
    ensures Entries([], category) == []
    ensures Entries(before + [p] + after, category) ==
            Entries(before, category)
            + (if p.category == category then [MenuOption(Entry(p.id), p.name, p.said)] else [])
            + Entries(after, category)
  {
    EntriesConcat(before + [p], after, category);
    EntriesConcat(before, [p], category);
    assert [p][..0] == [];
  }

  /** The alternatives are the free moments in their order, another date, and a person when one may help. */
  lemma AlternativesOfferTheMoments(slots: seq<Slot>, handoffAvailable: bool)
    ensures var offered := Alternatives(slots, handoffAvailable);
      && |offered| == |slots| + (if handoffAvailable then 2 else 1)
      && (forall i :: 0 <= i < |slots| ==>
            offered[i] == MenuOption(Moment(slots[i].day, slots[i].minute), slots[i].title, slots[i].said))
      && offered[|slots|].key == Other && (handoffAvailable ==> offered[|slots| + 1].key == Handoff)
  {
  }

  // ---------------------------------------------------------------- what is understood

  predicate PicksOne(s: Session, m: Message) {
    PickOption(m.normalized, s.options).Some?
  }

  function PickedKey(s: Session, m: Message): Key
    requires PicksOne(s, m)
  {
    PickOption(m.normalized, s.options).value.key
  }

  predicate PicksMoment(s: Session, m: Message) {
    s.step == ALTERNATIVES && PicksOne(s, m) && PickedKey(s, m).Moment?
  }

  /** The message answers the question of the step. */
  ghost predicate Understood(s: Session, m: Message, w: World) {
    match s.step
    case CATEGORY | THEME | DISTRICT | ALTERNATIVES => PicksOne(s, m)
    case PACKAGE => PicksOne(s, m) && w.found.Some?
    case EXTRAS =>
      || m.normalized in SKIP_WORDS
      || (Parts(m) != [] && forall part :: part in Parts(m) ==> PickOption(part, s.options).Some?)
    case DATE => m.day.Some? && w.today < m.day.value
    case TIME => m.minute.Some?
    case ADDRESS => |m.text| >= 5
    case NAME => |m.squeezed| >= 3 && m.hasLetter
    case MOBILITY => PicksOne(s, m) || m.normalized in YES_WORDS || m.normalized in NO_WORDS
    case OBSERVATIONS => m.text != ""
    case CONFIRM => PicksOne(s, m) || m.normalized in PAY_WORDS
    case PAID => true
  }

  /** The understood message asks for a quote to be created. */
  ghost predicate AsksForQuote(s: Session, m: Message) {
    || s.step == OBSERVATIONS
    || (s.step == TIME && Given(s.address) && Given(s.district) && Given(s.fullName))
    || PicksMoment(s, m)
  }

  /** Why an understood message does not go through: an empty category, a person chosen, or what a use case raises. */
  ghost function Trouble(s: Session, m: Message, w: World): Option<Stop> {
    if s.step == CATEGORY && PicksOne(s, m) && PickedKey(s, m).Label? && Entries(w.packages, PickedKey(s, m).name) == []
    then Some(NoCatalog)
    else if s.step == ALTERNATIVES && PicksOne(s, m) && PickedKey(s, m).Handoff? then Some(HandoffChosen)
    else if AsksForQuote(s, m) && w.creation.Failure? then Some(Raised(w.creation.error))
    else if s.step == CONFIRM && w.payment.Failure? then Some(Raised(w.payment.error))
    else if s.step == CONFIRM && w.payment == Success(false) then Some(Raised(QuoteGone))
    else None
  }

  predicate Missing(answer: Option<string>) {
    answer == None || answer == Some("")
  }

  /** Of any session, saved or not: a quote is refused for want of any answer it is created with, its payment for want
      of the quote, and the time leads on to the district for want of any later answer. */
  lemma MissingAnswersAreNoticed(s: Session, m: Message, w: World)
    ensures CreateQuote(s, w) == Failure(Crashed) <==>
              || s.package.None? || s.date.None? || s.time.None? || s.address.None? || s.district.None?
              || s.fullName.None? || exists o :: o in s.extras && !o.key.Entry?
    ensures s.quote.None? && PicksOne(s, m) ==> OnConfirm(s, m, w) == Failure(Crashed)
    ensures m.minute.Some? && (Missing(s.address) || Missing(s.district) || Missing(s.fullName)) ==>
              OnTime(s, m, w) == Success(s.(time := m.minute, options := DISTRICTS, step := DISTRICT))
    ensures m.minute.Some? && !Missing(s.address) && !Missing(s.district) && !Missing(s.fullName) ==>
              OnTime(s, m, w) == CreateQuote(s.(time := m.minute), w)
  {
    assert EntriesOnly(s.extras) <==> forall o :: o in s.extras ==> o.key.Entry?;
  }

  lemma ExtrasAreUnderstood(s: Session, m: Message, w: World)
    requires s.step == EXTRAS
    ensures Advance(s, m, w) == Failure(NotUnderstood) <==> !Understood(s, m, w)
  {
    PicksAreThePickedOptions(Parts(m), s.options);
  }

  lemma CatalogueIsUnderstood(s: Session, m: Message, w: World)
    requires Fits(s) && s.step in {CATEGORY, PACKAGE, THEME}
    ensures Advance(s, m, w).Failure? <==> !Understood(s, m, w) || Trouble(s, m, w).Some?
    ensures Advance(s, m, w).Failure? ==>
              Advance(s, m, w).error == if !Understood(s, m, w) then NotUnderstood else Trouble(s, m, w).value
  {
  }

  lemma DetailsAreUnderstood(s: Session, m: Message, w: World)
    requires Fits(s) && s.step in {DATE, DISTRICT, ADDRESS, NAME, MOBILITY, PAID}
    ensures Advance(s, m, w).Failure? <==> !Understood(s, m, w)
    ensures Advance(s, m, w).Failure? ==> Advance(s, m, w).error == NotUnderstood
  {
  }

  lemma DecisionsAreUnderstood(s: Session, m: Message, w: World)
    requires Fits(s) && s.step in {TIME, OBSERVATIONS, CONFIRM, ALTERNATIVES}
    ensures Advance(s, m, w).Failure? <==> !Understood(s, m, w) || Trouble(s, m, w).Some?
    ensures Advance(s, m, w).Failure? ==>
              Advance(s, m, w).error == if !Understood(s, m, w) then NotUnderstood else Trouble(s, m, w).value
  {
  }

  /** A message goes through exactly when it answers the question and nothing stands in the way; otherwise what stops it
      is that, the question first. */
  lemma GoesThroughExactlyWhen(s: Session, m: Message, w: World)
    requires Fits(s) && CatalogFits(w)
    ensures Advance(s, m, w).Failure? <==> !Understood(s, m, w) || Trouble(s, m, w).Some?
    ensures Advance(s, m, w).Failure? ==>
              Advance(s, m, w).error == if !Understood(s, m, w) then NotUnderstood else Trouble(s, m, w).value
  {
    match s.step
    case CATEGORY | PACKAGE | THEME => CatalogueIsUnderstood(s, m, w);
    case EXTRAS => ExtrasAreUnderstood(s, m, w);
    case DATE | DISTRICT | ADDRESS | NAME | MOBILITY | PAID => DetailsAreUnderstood(s, m, w);
    case TIME | OBSERVATIONS | CONFIRM | ALTERNATIVES => DecisionsAreUnderstood(s, m, w);
  }

  // ---------------------------------------------------------------- which answer it becomes

  /** The answers about what is booked: each question sets its own, and no other does. A catalogue without extras
      settles them without a question. */
  ghost predicate ShowAnswered(s: Session, m: Message, w: World, t: Session) {
    && t.category == (if s.step == CATEGORY && PicksOne(s, m) && PickedKey(s, m).Label? then Some(PickedKey(s, m).name)
                      else s.category)
    && t.package == (if s.step == PACKAGE && PicksOne(s, m) && PickedKey(s, m).Entry? && w.found.Some?
                     then Some(Choice(PickedKey(s, m).id, w.found.value.name)) else s.package)
    && t.theme == (if s.step == THEME && PicksOne(s, m) && PickedKey(s, m).Entry?
                   then Some(Choice(PickedKey(s, m).id, PickOption(m.normalized, s.options).value.title)) else s.theme)
    && (s.step != EXTRAS ==> t.extras == if t.step == DATE && s.step in {PACKAGE, THEME} then [] else s.extras)
  }

  /** The answers about when and where. */
  ghost predicate PlaceAnswered(s: Session, m: Message, t: Session) {
    && t.date == (if s.step == DATE then m.day
                  else if PicksMoment(s, m) then Some(PickedKey(s, m).day)
                  else s.date)
    && t.time == (if s.step == TIME then m.minute
                  else if PicksMoment(s, m) then Some(PickedKey(s, m).minute)
                  else s.time)
    && t.district == (if s.step == DISTRICT && PicksOne(s, m) then Some(PickOption(m.normalized, s.options).value.title)
                      else s.district)
    && (if s.step == ADDRESS
        then t.address.Some? && t.address.value <= m.text && |t.address.value| == Min(|m.text|, 200)
        else t.address == s.address)
  }

  /** The answers about the client, and the quote they lead to. */
  ghost predicate ClientAnswered(s: Session, m: Message, w: World, t: Session) {
    && (if s.step == NAME
        then t.fullName.Some? && t.fullName.value <= m.squeezed && |t.fullName.value| == Min(|m.squeezed|, 120)
        else t.fullName == s.fullName)
    && t.providesMobility == (if s.step == MOBILITY
                              then if PicksOne(s, m) then PickedKey(s, m) == Label("yes") else m.normalized in YES_WORDS
                              else s.providesMobility)
    && (if s.step == OBSERVATIONS && m.normalized !in SKIP_WORDS
        then t.observations.Some? && t.observations.value <= m.text
             && |t.observations.value| == Min(|m.text|, 500)
        else t.observations == if s.step == OBSERVATIONS then None else s.observations)
    && t.quote == (if AsksForQuote(s, m) && w.creation.Success? then Some(w.creation.value) else s.quote)
    && t.misses == s.misses && t.lastMessage == s.lastMessage
  }

  lemma CategoryAnswers(s: Session, m: Message, w: World)
    requires Fits(s) && CatalogFits(w) && s.step in {CATEGORY} && Advance(s, m, w).Success?
    ensures var t := Advance(s, m, w).value;
            ShowAnswered(s, m, w, t) && PlaceAnswered(s, m, t) && ClientAnswered(s, m, w, t)
  {
  }

  lemma PackageAnswers(s: Session, m: Message, w: World)
    requires Fits(s) && CatalogFits(w) && s.step in {PACKAGE} && Advance(s, m, w).Success?
    ensures var t := Advance(s, m, w).value;
            ShowAnswered(s, m, w, t) && PlaceAnswered(s, m, t) && ClientAnswered(s, m, w, t)
  {
  }

  lemma ThemeAnswers(s: Session, m: Message, w: World)
    requires Fits(s) && CatalogFits(w) && s.step in {THEME} && Advance(s, m, w).Success?
    ensures var t := Advance(s, m, w).value;
            ShowAnswered(s, m, w, t) && PlaceAnswered(s, m, t) && ClientAnswered(s, m, w, t)
  {
  }

  lemma ExtrasAnswers(s: Session, m: Message, w: World)
    requires Fits(s) && CatalogFits(w) && s.step in {EXTRAS} && Advance(s, m, w).Success?
    ensures var t := Advance(s, m, w).value;
            ShowAnswered(s, m, w, t) && PlaceAnswered(s, m, t) && ClientAnswered(s, m, w, t)
  {
  }

  lemma DetailAnswers(s: Session, m: Message, w: World)
    requires Fits(s) && CatalogFits(w) && s.step in {DATE, DISTRICT, ADDRESS, NAME, MOBILITY}
    requires Advance(s, m, w).Success?
    ensures var t := Advance(s, m, w).value;
            ShowAnswered(s, m, w, t) && PlaceAnswered(s, m, t) && ClientAnswered(s, m, w, t)
  {
  }

  lemma QuoteAnswers(s: Session, m: Message, w: World)
    requires Fits(s) && CatalogFits(w) && s.step in {TIME, OBSERVATIONS} && Advance(s, m, w).Success?
    ensures var t := Advance(s, m, w).value;
            ShowAnswered(s, m, w, t) && PlaceAnswered(s, m, t) && ClientAnswered(s, m, w, t)
  {
  }

  lemma AlternativeAnswers(s: Session, m: Message, w: World)
    requires Fits(s) && CatalogFits(w) && s.step in {ALTERNATIVES} && Advance(s, m, w).Success?
    ensures var t := Advance(s, m, w).value;
            ShowAnswered(s, m, w, t) && PlaceAnswered(s, m, t) && ClientAnswered(s, m, w, t)
  {
  }

  lemma PaymentAnswers(s: Session, m: Message, w: World)
    requires Fits(s) && CatalogFits(w) && s.step in {CONFIRM, PAID} && Advance(s, m, w).Success?
    ensures var t := Advance(s, m, w).value;
            ShowAnswered(s, m, w, t) && PlaceAnswered(s, m, t) && ClientAnswered(s, m, w, t)
  {
  }

  /** A message that goes through sets the answer of its question, clipped where it is text, and leaves every other. */
  lemma OneAnswerAtATime(s: Session, m: Message, w: World)
    requires Fits(s) && CatalogFits(w) && Advance(s, m, w).Success?
    ensures var t := Advance(s, m, w).value;
            ShowAnswered(s, m, w, t) && PlaceAnswered(s, m, t) && ClientAnswered(s, m, w, t)
  {
    match s.step
    case CATEGORY => CategoryAnswers(s, m, w);
    case PACKAGE => PackageAnswers(s, m, w);
    case THEME => ThemeAnswers(s, m, w);
    case EXTRAS => ExtrasAnswers(s, m, w);
    case DATE | DISTRICT | ADDRESS | NAME | MOBILITY => DetailAnswers(s, m, w);
    case TIME | OBSERVATIONS => QuoteAnswers(s, m, w);
    case ALTERNATIVES => AlternativeAnswers(s, m, w);
    case CONFIRM | PAID => PaymentAnswers(s, m, w);
  }

  /** The extras are exactly the options that some part of the message picks, each once, or none when it skips them. */
  lemma ExtrasAreThePickedOnes(s: Session, m: Message, w: World)
    requires s.step == EXTRAS && Advance(s, m, w).Success?
    ensures var extras := Advance(s, m, w).value.extras;
            if m.normalized in SKIP_WORDS then extras == []
            else Distinct(extras) && forall o :: o in extras <==> PickedBy(o, Parts(m), s.options)
  {
    PicksAreThePickedOptions(Parts(m), s.options);
  }

  // ---------------------------------------------------------------- which question comes next

  /** The questions follow one another, except those the catalogue leaves nothing to ask for and those already
      answered; a quote is created after the last, and paid after it is confirmed. */
  ghost function NextStep(s: Session, m: Message, w: World): BotStep {
    match s.step
    case CATEGORY => PACKAGE
    case PACKAGE =>
      if w.found.Some? && w.found.value.themes != [] then THEME else if w.extras != [] then EXTRAS else DATE
    case THEME => if w.extras != [] then EXTRAS else DATE
    case EXTRAS => DATE
    case DATE => TIME
    case TIME => if AsksForQuote(s, m) then CONFIRM else DISTRICT
    case DISTRICT => ADDRESS
    case ADDRESS => NAME
    case NAME => MOBILITY
    case MOBILITY => OBSERVATIONS
    case OBSERVATIONS => CONFIRM
    case ALTERNATIVES => if AsksForQuote(s, m) then CONFIRM else DATE
    case CONFIRM | PAID => PAID
  }

  /** What each menu offers. */
  ghost function Offered(s: Session, t: Session, w: World): seq<MenuOption> {
    match t.step
    case PACKAGE => if t.category.Some? then Entries(w.packages, t.category.value) else []
    case THEME => if w.found.Some? then w.found.value.themes else []
    case EXTRAS => w.extras
    case DISTRICT => DISTRICTS
    case MOBILITY => MOBILITIES
    case CONFIRM => PAY
    case _ => []
  }

  lemma CatalogueLeadsOn(s: Session, m: Message, w: World)
    requires Fits(s) && CatalogFits(w) && s.step in {CATEGORY, PACKAGE, THEME, EXTRAS} && Advance(s, m, w).Success?
    ensures Advance(s, m, w).value.step == NextStep(s, m, w)
    ensures Advance(s, m, w).value.options == Offered(s, Advance(s, m, w).value, w)
  {
  }

  lemma DetailsLeadOn(s: Session, m: Message, w: World)
    requires Fits(s) && s.step in {DATE, DISTRICT, ADDRESS, NAME, MOBILITY} && Advance(s, m, w).Success?
    ensures Advance(s, m, w).value.step == NextStep(s, m, w)
    ensures Advance(s, m, w).value.options == Offered(s, Advance(s, m, w).value, w)
  {
  }

  lemma DecisionsLeadOn(s: Session, m: Message, w: World)
    requires Fits(s) && s.step in {TIME, OBSERVATIONS, CONFIRM, ALTERNATIVES, PAID} && Advance(s, m, w).Success?
    ensures Advance(s, m, w).value.step == NextStep(s, m, w)
    ensures Advance(s, m, w).value.options == Offered(s, Advance(s, m, w).value, w)
  {
  }

  /** A message that goes through leads to the next question with its menu. */
  lemma QuestionsFollow(s: Session, m: Message, w: World)
    requires Fits(s) && CatalogFits(w) && Advance(s, m, w).Success?
    ensures Advance(s, m, w).value.step == NextStep(s, m, w)
    ensures Advance(s, m, w).value.options == Offered(s, Advance(s, m, w).value, w)
  {
    match s.step
    case CATEGORY | PACKAGE | THEME | EXTRAS => CatalogueLeadsOn(s, m, w);
    case DATE | DISTRICT | ADDRESS | NAME | MOBILITY => DetailsLeadOn(s, m, w);
    case TIME | OBSERVATIONS | CONFIRM | ALTERNATIVES | PAID => DecisionsLeadOn(s, m, w);
  }

  // ---------------------------------------------------------------- how the turn ends

  /** In every run, the first message of a conversation and each word to start again ask for the category with no
      answer kept; without a catalogue a person takes over. */
  lemma RestartsForgetEverything(m: Message, w: World, stored: Option<Session>)
    requires stored.None? || m.normalized in RESTART_WORDS
    requires !m.asksForPerson && (stored.Some? ==> stored.value.lastMessage != Some(m.id))
    ensures Turn(stored, m, w) ==
            if w.categories == [] then (None, HandedOff(EmptyCatalog))
            else if w.sends
            then (Some(Session(CATEGORY, w.categories, None, None, None, [], None, None, None, None, None, false, None,
                               None, 0, Some(m.id))), Advanced)
            else (None, HandedOff(Error))
  {
  }

  /** A duplicate is ignored, and whoever asks for a person gets one. */
  lemma DuplicatesAndPersonsComeFirst(s: Session, m: Message, w: World)
    ensures Turn(Some(s), m, w) == (Some(s), Ignored) <== s.lastMessage == Some(m.id)
    ensures Turn(Some(s), m, w) == (None, HandedOff(Requested)) <== s.lastMessage != Some(m.id) && m.asksForPerson
  {
  }

  /** The message is a new one for the step, not one to start again or to ask for a person. */
  predicate Answers(s: Session, m: Message) {
    s.lastMessage != Some(m.id) && !m.asksForPerson && m.normalized !in RESTART_WORDS
  }

  /** A message that goes through is saved if its reply can be sent; else a person takes over. */
  lemma WhatGoesThroughIsSaved(s: Session, m: Message, w: World)
    requires Answers(s, m) && Advance(s, m, w).Success?
    ensures Turn(Some(s), m, w) ==
            if w.sends then (Some(Advance(s, m, w).value.(misses := 0, lastMessage := Some(m.id))), Advanced)
            else (None, HandedOff(Error))
  {
  }

  /** One that does not leads to another try, to alternatives, to the date or to a person, every answer as it was. */
  lemma WhatDoesNotGoesBack(s: Session, m: Message, w: World, stop: Stop)
    requires Answers(s, m) && s.misses <= 1 && Advance(s, m, w) == Failure(stop)
    ensures var kept := s.(misses := 0, lastMessage := Some(m.id));
            Turn(Some(s), m, w) ==
            match stop
            case NotUnderstood =>
              if s.misses == 1 then (None, HandedOff(NotUnderstoodTwice)) else (Some(kept.(misses := 1)), Missed)
            case HandoffChosen => (None, HandedOff(Reason.Picked))
            case NoCatalog => (None, HandedOff(EmptyCatalog))
            case Crashed => (None, HandedOff(Error))
            case Raised(Outage) => (None, HandedOff(Error))
            case Raised(QuoteGone) => (Some(kept), Reacted)
            case Raised(BadData) => (Some(kept.(options := [], step := DATE)), Reacted)
            case Raised(Rejected(slots, available)) =>
              (Some(kept.(options := Alternatives(slots, available), step := ALTERNATIVES)), Reacted)
  {
  }
}
