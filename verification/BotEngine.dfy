/** The menu engine as the program runs it: handlers assign the live session and a failed turn restores it. */
module BotEngine {
  import opened Common
  import opened BotMenu

  class LiveSession {
    var step: BotStep
    var options: seq<MenuOption>
    var category: Option<string>
    var package: Option<Choice>
    var theme: Option<Choice>
    var extras: seq<MenuOption>
    var date: Option<int>
    var time: Option<nat>
    var district: Option<string>
    var address: Option<string>
    var fullName: Option<string>
    var providesMobility: bool
    var observations: Option<string>
    var quote: Option<nat>
    var misses: nat
    var lastMessage: Option<nat>

    function Value(): Session
      reads this
    {
      Session(step, options, category, package, theme, extras, date, time, district, address, fullName,
              providesMobility, observations, quote, misses, lastMessage)
    }

    constructor (s: Session)
      ensures Value() == s
    {
      step, options, category, package, theme, extras := s.step, s.options, s.category, s.package, s.theme, s.extras;
      date, time, district, address, fullName := s.date, s.time, s.district, s.address, s.fullName;
      providesMobility, observations, quote := s.providesMobility, s.observations, s.quote;
      misses, lastMessage := s.misses, s.lastMessage;
    }

    /** The live session is what a finished handler made of it; a failed one may leave it half changed. */
    predicate Did(outcome: Outcome, stop: Option<Stop>)
      reads this
    {
      match outcome
      case Success(s) => stop == None && Value() == s
      case Failure(f) => stop == Some(f)
    }

    method RunBegin(w: World) returns (stop: Option<Stop>)
      modifies this
      ensures Did(Begin(old(Value()), w), stop)
    {
      if w.categories == [] { return Some(NoCatalog); }
      step := CATEGORY;
      options := w.categories;
      stop := None;
    }

    method RunAskDate()
      modifies this
      ensures Value() == AskDate(old(Value()))
    {
      options := [];
      step := DATE;
    }

    method RunAskExtras(w: World)
      modifies this
      ensures Value() == AskExtras(old(Value()), w)
    {
      if w.extras == [] {
        extras := [];
        RunAskDate();
        return;
      }
      options := w.extras;
      step := EXTRAS;
    }

    method RunOnCategory(m: Message, w: World) returns (stop: Option<Stop>)
      modifies this
      ensures Did(OnCategory(old(Value()), m, w), stop)
    {
      var option := PickOption(m.normalized, options);
      if option.None? { return Some(NotUnderstood); }
      if !option.value.key.Label? { return Some(Crashed); }
      var entries: seq<MenuOption> := [];
      for i := 0 to |w.packages|
        invariant entries == Entries(w.packages[..i], option.value.key.name)
      {
        assert w.packages[..i + 1][..i] == w.packages[..i];
        if w.packages[i].category == option.value.key.name {
          entries := entries + [MenuOption(Entry(w.packages[i].id), w.packages[i].name, w.packages[i].said)];
        }
      }
      assert w.packages[..|w.packages|] == w.packages;
      if entries == [] { return Some(NoCatalog); }
      category := Some(option.value.key.name);
      options := entries;
      step := PACKAGE;
      stop := None;
    }

    method RunOnPackage(m: Message, w: World) returns (stop: Option<Stop>)
      modifies this
      ensures Did(OnPackage(old(Value()), m, w), stop)
    {
      var option := PickOption(m.normalized, options);
      if option.None? { return Some(NotUnderstood); }
      if !option.value.key.Entry? { return Some(Crashed); }
      if w.found.None? { return Some(NotUnderstood); }
      package := Some(Choice(option.value.key.id, w.found.value.name));
      if w.found.value.themes == [] {
        RunAskExtras(w);
        return None;
      }
      options := w.found.value.themes;
      step := THEME;
      stop := None;
    }

    method RunOnTheme(m: Message, w: World) returns (stop: Option<Stop>)
      modifies this
      ensures Did(OnTheme(old(Value()), m, w), stop)
    {
      var option := PickOption(m.normalized, options);
      if option.None? { return Some(NotUnderstood); }
      if !option.value.key.Entry? { return Some(Crashed); }
      theme := Some(Choice(option.value.key.id, option.value.title));
      RunAskExtras(w);
      stop := None;
    }

    method RunOnExtras(m: Message) returns (stop: Option<Stop>)
      modifies this
      ensures Did(OnExtras(old(Value()), m), stop)
    {
      if m.normalized in SKIP_WORDS {
        extras := [];
      } else {
        var chosen := PickMany(m, options);
        if chosen.None? { return Some(NotUnderstood); }
        extras := chosen.value;
      }
      RunAskDate();
      stop := None;
    }

    method RunOnDate(m: Message, w: World) returns (stop: Option<Stop>)
      modifies this
      ensures Did(OnDate(old(Value()), m, w), stop)
    {
      if m.day.None? { return Some(NotUnderstood); }
      if m.day.value <= w.today { return Some(NotUnderstood); }
      date := m.day;
      step := TIME;
      stop := None;
    }

    method RunCreateQuote(w: World) returns (stop: Option<Stop>)
      modifies this
      ensures Did(CreateQuote(old(Value()), w), stop)
    {
      if !Complete(Value()) { return Some(Crashed); }
      if w.creation.Failure? { return Some(Raised(w.creation.error)); }
      quote := Some(w.creation.value);
      options := PAY;
      step := CONFIRM;
      stop := None;
    }

    method RunOnTime(m: Message, w: World) returns (stop: Option<Stop>)
      modifies this
      ensures Did(OnTime(old(Value()), m, w), stop)
    {
      if m.minute.None? { return Some(NotUnderstood); }
      time := m.minute;
      if Given(address) && Given(district) && Given(fullName) {
        stop := RunCreateQuote(w);
        return;
      }
      options := DISTRICTS;
      step := DISTRICT;
      stop := None;
    }

    method RunOnDistrict(m: Message) returns (stop: Option<Stop>)
      modifies this
      ensures Did(OnDistrict(old(Value()), m), stop)
    {
      var option := PickOption(m.normalized, options);
      if option.None? { return Some(NotUnderstood); }
      district := Some(option.value.title);
      options := [];
      step := ADDRESS;
      stop := None;
    }

    method RunOnAddress(m: Message) returns (stop: Option<Stop>)
      modifies this
      ensures Did(OnAddress(old(Value()), m), stop)
    {
      if |m.text| < MIN_ADDRESS { return Some(NotUnderstood); }
      address := Some(Clip(m.text, MAX_ADDRESS));
      step := NAME;
      stop := None;
    }

    method RunOnName(m: Message) returns (stop: Option<Stop>)
      modifies this
      ensures Did(OnName(old(Value()), m), stop)
    {
      if |m.squeezed| < MIN_NAME || !m.hasLetter { return Some(NotUnderstood); }
      fullName := Some(Clip(m.squeezed, MAX_NAME));
      options := MOBILITIES;
      step := MOBILITY;
      stop := None;
    }

    method RunOnMobility(m: Message) returns (stop: Option<Stop>)
      modifies this
      ensures Did(OnMobility(old(Value()), m), stop)
    {
      var option := PickOption(m.normalized, options);
      var own;
      if option.Some? {
        own := option.value.key == Label("yes");
      } else if m.normalized in YES_WORDS {
        own := true;
      } else if m.normalized in NO_WORDS {
        own := false;
      } else {
        return Some(NotUnderstood);
      }
      providesMobility := own;
      options := [];
      step := OBSERVATIONS;
      stop := None;
    }

    method RunOnObservations(m: Message, w: World) returns (stop: Option<Stop>)
      modifies this
      ensures Did(OnObservations(old(Value()), m, w), stop)
    {
      if m.text == "" { return Some(NotUnderstood); }
      observations := if m.normalized in SKIP_WORDS then None else Some(Clip(m.text, MAX_OBSERVATIONS));
      stop := RunCreateQuote(w);
    }

    method RunOnConfirm(m: Message, w: World) returns (stop: Option<Stop>)
      modifies this
      ensures Did(OnConfirm(old(Value()), m, w), stop)
    {
      var option := PickOption(m.normalized, options);
      if option.None? && m.normalized !in PAY_WORDS { return Some(NotUnderstood); }
      if quote.None? { return Some(Crashed); }
      if w.payment.Failure? { return Some(Raised(w.payment.error)); }
      if !w.payment.value { return Some(Raised(QuoteGone)); }
      options := [];
      step := PAID;
      stop := None;
    }

    method RunOnAlternatives(m: Message, w: World) returns (stop: Option<Stop>)
      modifies this
      ensures Did(OnAlternatives(old(Value()), m, w), stop)
    {
      var option := PickOption(m.normalized, options);
      if option.None? { return Some(NotUnderstood); }
      if option.value.key.Handoff? { return Some(HandoffChosen); }
      if option.value.key.Other? {
        RunAskDate();
        return None;
      }
      if !option.value.key.Moment? { return Some(Crashed); }
      date, time := Some(option.value.key.day), Some(option.value.key.minute);
      stop := RunCreateQuote(w);
    }

    method RunAdvance(m: Message, w: World) returns (stop: Option<Stop>)
      modifies this
      ensures Did(Advance(old(Value()), m, w), stop)
    {
      match step {
        case CATEGORY => stop := RunOnCategory(m, w);
        case PACKAGE => stop := RunOnPackage(m, w);
        case THEME => stop := RunOnTheme(m, w);
        case EXTRAS => stop := RunOnExtras(m);
        case DATE => stop := RunOnDate(m, w);
        case TIME => stop := RunOnTime(m, w);
        case DISTRICT => stop := RunOnDistrict(m);
        case ADDRESS => stop := RunOnAddress(m);
        case NAME => stop := RunOnName(m);
        case MOBILITY => stop := RunOnMobility(m);
        case OBSERVATIONS => stop := RunOnObservations(m, w);
        case CONFIRM => stop := RunOnConfirm(m, w);
        case ALTERNATIVES => stop := RunOnAlternatives(m, w);
        case PAID => stop := None;
      }
    }
  }

  /** The sessions of one conversation, as stored between turns. */
  class Conversation {
    var stored: Option<Session>

    constructor ()
      ensures stored == None
    {
      stored := None;
    }

    method Handle(m: Message, w: World) returns (ending: Ending)
      modifies this
      ensures (stored, ending) == Turn(old(stored), m, w)
    {
      if stored.Some? && stored.value.lastMessage == Some(m.id) { return Ignored; }
      if m.asksForPerson {
        ending := HandOff(Requested);
        return;
      }
      var restarts := stored.None? || m.normalized in RESTART_WORDS;
      var snapshot := if restarts then FRESH else stored.value;
      var session := new LiveSession(snapshot);
      var stop;
      if restarts {
        stop := session.RunBegin(w);
      } else {
        stop := session.RunAdvance(m, w);
      }
      ending := Settle(snapshot, session, stop, m, w);
    }

    /** What is saved after a handler: the live session if it finished and its reply went out, otherwise the
        snapshot with the reaction to the failure, or nothing when a person takes over. */
    method Settle(snapshot: Session, session: LiveSession, stop: Option<Stop>, m: Message, w: World)
      returns (ending: Ending)
      modifies this, session
      ensures (stored, ending)
           == Conclude(snapshot, if stop.None? then Success(old(session.Value())) else Failure(stop.value), m, w)
    {
      if stop.None? {
        if !w.sends {
          ending := HandOff(Error);
          return;
        }
        session.misses := 0;
        Save(session, m);
        return Advanced;
      }
      var restored := new LiveSession(snapshot);
      match stop.value {
        case NotUnderstood =>
          restored.misses := restored.misses + 1;
          if restored.misses >= MAX_MISSES {
            ending := HandOff(NotUnderstoodTwice);
            return;
          }
          Save(restored, m);
          return Missed;
        case HandoffChosen =>
          ending := HandOff(Picked);
        case NoCatalog =>
          ending := HandOff(EmptyCatalog);
        case Crashed =>
          ending := HandOff(Error);
        case Raised(trouble) =>
          if trouble.Outage? {
            ending := HandOff(Error);
            return;
          }
          if trouble.Rejected? {
            restored.options := Alternatives(trouble.alternatives, trouble.handoffAvailable);
            restored.step := ALTERNATIVES;
          } else if trouble.BadData? {
            restored.step, restored.options := DATE, [];
          }
          restored.misses := 0;
          Save(restored, m);
          ending := Reacted;
      }
    }

    method Save(session: LiveSession, m: Message)
      modifies this, session
      ensures stored == Some(old(session.Value()).(lastMessage := Some(m.id)))
    {
      session.lastMessage := Some(m.id);
      stored := Some(session.Value());
    }

    method HandOff(reason: Reason) returns (ending: Ending)
      modifies this
      ensures stored == None && ending == HandedOff(reason)
    {
      stored := None;
      ending := HandedOff(reason);
    }
  }
}
