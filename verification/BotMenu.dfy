/**
 * The menu engine of the bot: one turn reads a stored session, runs the handler of its step and either saves
 * the session, goes back to the snapshot and reacts, or hands the conversation to a person.
 *
 * A message arrives with what reading its text yields: the normalised text, the pieces of a list, a date, a
 * time. Days and minutes are integers; the keys of menu options keep their kinds apart.
 */
module BotMenu {
  import opened Common

  const MAX_MISSES := 2
  const MIN_ADDRESS := 5
  const MAX_ADDRESS := 200
  const MIN_NAME := 3
  const MAX_NAME := 120
  const MAX_OBSERVATIONS := 500
  const RESTART_WORDS := {"reiniciar", "menu", "inicio", "empezar"}
  const SKIP_WORDS := {"0", "no", "ninguno", "ninguna", "nada", "omitir", "continuar"}
  const YES_WORDS := {"si", "s", "yo proveo la movilidad", "yo la proveo"}
  const NO_WORDS := {"no", "n"}
  const PAY_WORDS := {"pagar", "pagar adelanto"}

  datatype BotStep =
    | CATEGORY | PACKAGE | THEME | EXTRAS | DATE | TIME | DISTRICT | ADDRESS | NAME | MOBILITY | OBSERVATIONS
    | CONFIRM | ALTERNATIVES | PAID

  datatype Key = Entry(id: nat) | Label(name: string) | Moment(day: int, minute: nat) | Other | Handoff

  /** `said` is the normalised title: what the client may write to choose the option. */
  datatype MenuOption = MenuOption(key: Key, title: string, said: string)

  datatype Choice = Choice(id: nat, name: string)

  datatype Session = Session(
    step: BotStep,
    options: seq<MenuOption>,
    category: Option<string>,
    package: Option<Choice>,
    theme: Option<Choice>,
    extras: seq<MenuOption>,
    date: Option<int>,
    time: Option<nat>,
    district: Option<string>,
    address: Option<string>,
    fullName: Option<string>,
    providesMobility: bool,
    observations: Option<string>,
    quote: Option<nat>,
    misses: nat,
    lastMessage: Option<nat>)

  const FRESH := Session(CATEGORY, [], None, None, None, [], None, None, None, None, None, false, None, None, 0, None)

  datatype Message = Message(
    id: nat, text: string, normalized: string, pieces: seq<string>, tokens: seq<string>, squeezed: string,
    hasLetter: bool, day: Option<int>, minute: Option<nat>, asksForPerson: bool)

  /** `said` is the normalised name. */
  datatype Package = Package(id: nat, name: string, said: string, category: string, themes: seq<MenuOption>)

  /** A free moment offered instead of a rejected one, with its label. */
  datatype Slot = Slot(day: int, minute: nat, title: string, said: string)

  /** How a use case called by the bot fails. */
  datatype Trouble = Rejected(alternatives: seq<Slot>, handoffAvailable: bool) | QuoteGone | BadData | Outage

  /** What the rest of the system answers during the turn. `found` is the package looked up by its id. */
  datatype World = World(
    categories: seq<MenuOption>,
    packages: seq<Package>,
    found: Option<Package>,
    extras: seq<MenuOption>,
    today: int,
    creation: Result<nat, Trouble>,
    payment: Result<bool, Trouble>,
    sends: bool)

  /** Why a handler does not finish; `Crashed` is missing or malformed data in the session itself. */
  datatype Stop = NotUnderstood | HandoffChosen | NoCatalog | Raised(trouble: Trouble) | Crashed

  type Outcome = Result<Session, Stop>

  // ---------------------------------------------------------------- reading an answer

  predicate IsDecimal(s: string) {
    s != "" && forall i :: 0 <= i < |s| ==> '0' <= s[i] <= '9'
  }

  function ToNat(s: string): nat
    requires IsDecimal(s)
  {
    if |s| == 1 then (s[0] - '0') as nat else 10 * ToNat(s[..|s| - 1]) + (s[|s| - 1] - '0') as nat
  }

  /** The first option whose title is the text. */
  function ByTitle(said: string, options: seq<MenuOption>): (r: Option<MenuOption>)
    ensures r.Some? ==> r.value in options && r.value.said == said
    ensures r.None? <==> forall i :: 0 <= i < |options| ==> options[i].said != said
  {
    if options == [] then None
    else if options[0].said == said then Some(options[0])
    else ByTitle(said, options[1..])
  }

  /** A number picks by position, counted from one, and never by title. */
  function PickOption(said: string, options: seq<MenuOption>): (r: Option<MenuOption>)
    ensures r.Some? ==> r.value in options
  {
    if IsDecimal(said) then
      var index := ToNat(said);
      if 1 <= index <= |options| then Some(options[index - 1]) else None
    else ByTitle(said, options)
  }

  function Parts(m: Message): seq<string> {
    if |m.pieces| == 1 && (forall i :: 0 <= i < |m.tokens| ==> IsDecimal(m.tokens[i])) then m.tokens else m.pieces
  }

  /** The picks of all parts without repetition, in order; nothing if some part picks nothing. */
  function Picks(parts: seq<string>, options: seq<MenuOption>): (r: Option<seq<MenuOption>>)
    ensures r.Some? ==> forall i :: 0 <= i < |r.value| ==> r.value[i] in options
  {
    if parts == [] then Some([])
    else
      var before := Picks(parts[..|parts| - 1], options);
      var option := PickOption(parts[|parts| - 1], options);
      if before.None? || option.None? then None
      else if option.value in before.value then before
      else Some(before.value + [option.value])
  }

  ghost predicate PickedBy(o: MenuOption, parts: seq<string>, options: seq<MenuOption>) {
    exists i :: 0 <= i < |parts| && PickOption(parts[i], options) == Some(o)
  }

  lemma PickedByTheLastOrBefore(o: MenuOption, parts: seq<string>, options: seq<MenuOption>)
    requires parts != []
    ensures PickedBy(o, parts, options)
            <==> PickedBy(o, parts[..|parts| - 1], options) || PickOption(parts[|parts| - 1], options) == Some(o)
  {
    var shorter := parts[..|parts| - 1];
    if PickedBy(o, shorter, options) {
      var i :| 0 <= i < |shorter| && PickOption(shorter[i], options) == Some(o);
      assert PickOption(parts[i], options) == Some(o);
    }
    if PickedBy(o, parts, options) {
      var i :| 0 <= i < |parts| && PickOption(parts[i], options) == Some(o);
      assert i < |shorter| ==> PickOption(shorter[i], options) == Some(o);
    }
  }

  lemma {:induction false} PicksAreThePickedOptions(parts: seq<string>, options: seq<MenuOption>)
    ensures Picks(parts, options).Some? <==> forall i :: 0 <= i < |parts| ==> PickOption(parts[i], options).Some?
    ensures Picks(parts, options).Some? ==>
              && Distinct(Picks(parts, options).value)
              && (forall o :: o in Picks(parts, options).value <==> PickedBy(o, parts, options))
  {
    if parts != [] {
      var shorter := parts[..|parts| - 1];
      PicksAreThePickedOptions(shorter, options);
      assert forall i :: 0 <= i < |shorter| ==> shorter[i] == parts[i];
      var before, option := Picks(shorter, options), PickOption(parts[|parts| - 1], options);
      if before.Some? && option.Some? {
        forall o ensures o in Picks(parts, options).value <==> PickedBy(o, parts, options) {
          PickedByTheLastOrBefore(o, parts, options);
          assert o in before.value <==> PickedBy(o, shorter, options);
        }
      }
    }
  }

  lemma OnePartWithoutPick(parts: seq<string>, options: seq<MenuOption>, i: nat)
    requires i < |parts| && PickOption(parts[i], options).None?
    ensures Picks(parts, options).None?
  {
    PicksAreThePickedOptions(parts, options);
  }

  lemma PicksAreDistinct(parts: seq<string>, options: seq<MenuOption>)
    requires Picks(parts, options).Some?
    ensures Distinct(Picks(parts, options).value)
  {
    PicksAreThePickedOptions(parts, options);
  }

  method PickMany(m: Message, options: seq<MenuOption>) returns (r: Option<seq<MenuOption>>)
    ensures r == (if Parts(m) == [] then None else Picks(Parts(m), options))
    ensures r.Some? ==> r.value != [] && Distinct(r.value) && forall o :: o in r.value ==> o in options
  {
    var parts := m.pieces;
    if |parts| == 1 && (forall i :: 0 <= i < |m.tokens| ==> IsDecimal(m.tokens[i])) {
      parts := m.tokens;
    }
    var chosen: seq<MenuOption> := [];
    for i := 0 to |parts|
      invariant Picks(parts[..i], options) == Some(chosen)
      invariant i > 0 ==> chosen != []
    {
      var option := PickOption(parts[i], options);
      assert parts[..i + 1][..i] == parts[..i];
      if option.None? {
        OnePartWithoutPick(parts, options, i);
        return None;
      }
      if option.value !in chosen {
        chosen := chosen + [option.value];
      }
    }
    assert parts[..|parts|] == parts;
    PicksAreDistinct(parts, options);
    r := if chosen == [] then None else Some(chosen);
  }

  // ---------------------------------------------------------------- the handlers

  function Entries(packages: seq<Package>, category: string): seq<MenuOption> {
    if packages == [] then []
    else
      var p := packages[|packages| - 1];
      var before := Entries(packages[..|packages| - 1], category);
      if p.category == category then before + [MenuOption(Entry(p.id), p.name, p.said)] else before
  }

  const DISTRICTS := [MenuOption(Label("lima"), "Lima", "lima"), MenuOption(Label("callao"), "Callao", "callao")]
  const MOBILITIES := [
    MenuOption(Label("yes"), "Yo proveo la movilidad", "yo proveo la movilidad"),
    MenuOption(Label("no"), "Necesito que cotice la movilidad", "necesito que cotice la movilidad")]
  const PAY := [MenuOption(Label("pay"), "Pagar adelanto", "pagar adelanto")]

  function Begin(s: Session, w: World): Outcome {
    if w.categories == [] then Failure(NoCatalog) else Success(s.(step := CATEGORY, options := w.categories))
  }

  function OnCategory(s: Session, m: Message, w: World): Outcome {
    var option := PickOption(m.normalized, s.options);
    if option.None? then Failure(NotUnderstood)
    else if !option.value.key.Label? then Failure(Crashed)
    else
      var entries := Entries(w.packages, option.value.key.name);
      if entries == [] then Failure(NoCatalog)
      else Success(s.(category := Some(option.value.key.name), options := entries, step := PACKAGE))
  }

  function AskDate(s: Session): Session {
    s.(options := [], step := DATE)
  }

  function AskExtras(s: Session, w: World): Session {
    if w.extras == [] then AskDate(s.(extras := [])) else s.(options := w.extras, step := EXTRAS)
  }

  function OnPackage(s: Session, m: Message, w: World): Outcome {
    var option := PickOption(m.normalized, s.options);
    if option.None? then Failure(NotUnderstood)
    else if !option.value.key.Entry? then Failure(Crashed)
    else if w.found.None? then Failure(NotUnderstood)
    else
      var chosen := s.(package := Some(Choice(option.value.key.id, w.found.value.name)));
      if w.found.value.themes == [] then Success(AskExtras(chosen, w))
      else Success(chosen.(options := w.found.value.themes, step := THEME))
  }

  function OnTheme(s: Session, m: Message, w: World): Outcome {
    var option := PickOption(m.normalized, s.options);
    if option.None? then Failure(NotUnderstood)
    else if !option.value.key.Entry? then Failure(Crashed)
    else Success(AskExtras(s.(theme := Some(Choice(option.value.key.id, option.value.title))), w))
  }

  function OnExtras(s: Session, m: Message): Outcome {
    if m.normalized in SKIP_WORDS then Success(AskDate(s.(extras := [])))
    else
      var chosen := Picks(Parts(m), s.options);
      if Parts(m) == [] || chosen.None? then Failure(NotUnderstood) else Success(AskDate(s.(extras := chosen.value)))
  }

  function OnDate(s: Session, m: Message, w: World): Outcome {
    if m.day.None? || m.day.value <= w.today then Failure(NotUnderstood)
    else Success(s.(date := m.day, step := TIME))
  }

  predicate Given(answer: Option<string>) {
    answer.Some? && answer.value != ""
  }

  predicate EntriesOnly(options: seq<MenuOption>) {
    forall i :: 0 <= i < |options| ==> options[i].key.Entry?
  }

  /** Nothing that creating a quote reads from the session is missing. */
  predicate Complete(s: Session) {
    && s.package.Some? && s.date.Some? && s.time.Some? && s.address.Some? && s.district.Some? && s.fullName.Some?
    && EntriesOnly(s.extras)
  }

  function CreateQuote(s: Session, w: World): Outcome {
    if !Complete(s) then Failure(Crashed)
    else match w.creation
      case Failure(trouble) => Failure(Raised(trouble))
      case Success(id) => Success(s.(quote := Some(id), options := PAY, step := CONFIRM))
  }

  function OnTime(s: Session, m: Message, w: World): Outcome {
    if m.minute.None? then Failure(NotUnderstood)
    else
      var timed := s.(time := m.minute);
      if Given(s.address) && Given(s.district) && Given(s.fullName) then CreateQuote(timed, w)
      else Success(timed.(options := DISTRICTS, step := DISTRICT))
  }

  function OnDistrict(s: Session, m: Message): Outcome {
    var option := PickOption(m.normalized, s.options);
    if option.None? then Failure(NotUnderstood)
    else Success(s.(district := Some(option.value.title), options := [], step := ADDRESS))
  }

  function Clip(text: string, limit: nat): (r: string)
    ensures r <= text && |r| == Min(|text|, limit)
  {
    if |text| <= limit then text else text[..limit]
  }

  function OnAddress(s: Session, m: Message): Outcome {
    if |m.text| < MIN_ADDRESS then Failure(NotUnderstood)
    else Success(s.(address := Some(Clip(m.text, MAX_ADDRESS)), step := NAME))
  }

  function OnName(s: Session, m: Message): Outcome {
    if |m.squeezed| < MIN_NAME || !m.hasLetter then Failure(NotUnderstood)
    else Success(s.(fullName := Some(Clip(m.squeezed, MAX_NAME)), options := MOBILITIES, step := MOBILITY))
  }

  function OnMobility(s: Session, m: Message): Outcome {
    var option := PickOption(m.normalized, s.options);
    var own :=
      if option.Some? then Some(option.value.key == Label("yes"))
      else if m.normalized in YES_WORDS then Some(true)
      else if m.normalized in NO_WORDS then Some(false)
      else None;
    if own.None? then Failure(NotUnderstood)
    else Success(s.(providesMobility := own.value, options := [], step := OBSERVATIONS))
  }

  function OnObservations(s: Session, m: Message, w: World): Outcome {
    if m.text == "" then Failure(NotUnderstood)
    else
      var noted := if m.normalized in SKIP_WORDS then None else Some(Clip(m.text, MAX_OBSERVATIONS));
      CreateQuote(s.(observations := noted), w)
  }

  function OnConfirm(s: Session, m: Message, w: World): Outcome {
    if PickOption(m.normalized, s.options).None? && m.normalized !in PAY_WORDS then Failure(NotUnderstood)
    else if s.quote.None? then Failure(Crashed)
    else match w.payment
      case Failure(trouble) => Failure(Raised(trouble))
      case Success(started) => if started then Success(s.(options := [], step := PAID)) else Failure(Raised(QuoteGone))
  }

  function OnAlternatives(s: Session, m: Message, w: World): Outcome {
    var option := PickOption(m.normalized, s.options);
    if option.None? then Failure(NotUnderstood)
    else match option.value.key
      case Handoff => Failure(HandoffChosen)
      case Other => Success(AskDate(s))
      case Moment(day, minute) => CreateQuote(s.(date := Some(day), time := Some(minute)), w)
      case _ => Failure(Crashed)
  }

  function Advance(s: Session, m: Message, w: World): Outcome {
    match s.step
    case CATEGORY => OnCategory(s, m, w)
    case PACKAGE => OnPackage(s, m, w)
    case THEME => OnTheme(s, m, w)
    case EXTRAS => OnExtras(s, m)
    case DATE => OnDate(s, m, w)
    case TIME => OnTime(s, m, w)
    case DISTRICT => OnDistrict(s, m)
    case ADDRESS => OnAddress(s, m)
    case NAME => OnName(s, m)
    case MOBILITY => OnMobility(s, m)
    case OBSERVATIONS => OnObservations(s, m, w)
    case CONFIRM => OnConfirm(s, m, w)
    case ALTERNATIVES => OnAlternatives(s, m, w)
    case PAID => Success(s)
  }

  // ---------------------------------------------------------------- a turn

  datatype Reason = Requested | Picked | EmptyCatalog | NotUnderstoodTwice | Error

  /** How a turn ends: the duplicate is ignored; an answer is taken; a miss or a business error is replied to
      from the snapshot; or a person takes over and the session is forgotten. */
  datatype Ending = Ignored | Advanced | Missed | Reacted | HandedOff(reason: Reason)

  function Offer(slot: Slot): MenuOption {
    MenuOption(Moment(slot.day, slot.minute), slot.title, slot.said)
  }

  function Alternatives(slots: seq<Slot>, handoffAvailable: bool): seq<MenuOption> {
    seq(|slots|, i requires 0 <= i < |slots| => Offer(slots[i]))
    + [MenuOption(Other, "Elegir otra fecha u horario", "elegir otra fecha u horario")]
    + (if handoffAvailable then [MenuOption(Handoff, "Hablar con un encargado", "hablar con un encargado")] else [])
  }

  function React(snapshot: Session, trouble: Trouble): Session {
    match trouble
    case Rejected(alternatives, available) =>
      snapshot.(options := Alternatives(alternatives, available), step := ALTERNATIVES)
    case BadData => AskDate(snapshot)
    case _ => snapshot
  }

  function Conclude(snapshot: Session, outcome: Outcome, m: Message, w: World): (Option<Session>, Ending) {
    match outcome
    case Success(s) =>
      if w.sends then (Some(s.(misses := 0, lastMessage := Some(m.id))), Advanced) else (None, HandedOff(Error))
    case Failure(NotUnderstood) =>
      if snapshot.misses + 1 >= MAX_MISSES then (None, HandedOff(NotUnderstoodTwice))
      else (Some(snapshot.(misses := snapshot.misses + 1, lastMessage := Some(m.id))), Missed)
    case Failure(HandoffChosen) => (None, HandedOff(Picked))
    case Failure(NoCatalog) => (None, HandedOff(EmptyCatalog))
    case Failure(Crashed) => (None, HandedOff(Error))
    case Failure(Raised(trouble)) =>
      if trouble.Outage? then (None, HandedOff(Error))
      else (Some(React(snapshot, trouble).(misses := 0, lastMessage := Some(m.id))), Reacted)
  }

  predicate Restarts(stored: Option<Session>, m: Message) {
    stored.None? || m.normalized in RESTART_WORDS
  }

  function Attempt(stored: Option<Session>, m: Message, w: World): Outcome {
    if Restarts(stored, m) then Begin(FRESH, w) else Advance(stored.value, m, w)
  }

  function Turn(stored: Option<Session>, m: Message, w: World): (Option<Session>, Ending) {
    if stored.Some? && stored.value.lastMessage == Some(m.id) then (stored, Ignored)
    else if m.asksForPerson then (None, HandedOff(Requested))
    else Conclude(if Restarts(stored, m) then FRESH else stored.value, Attempt(stored, m, w), m, w)
  }
}
