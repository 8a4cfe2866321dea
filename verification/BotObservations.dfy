/**
 * A conversation that loses what the client wrote as observations: the quote attempted on that turn is rejected
 * for lack of availability, the client picks the alternative offered, and the quote created has no observations.
 */
module BotObservations {
  import opened Common
  import opened BotMenu
  import opened BotRuns

  const CATEGORIES := [MenuOption(Label("fiesta"), "Fiesta", "fiesta")]
  const SHOW := Package(1, "Show", "show", "fiesta", [])

  /** One category, one package without themes, no extras. */
  const SHOP := World(CATEGORIES, [SHOW], Some(SHOW), [], 0, Failure(Outage), Failure(Outage), true)

  const SLOT := Slot(2, 600, "2 a las 10:00", "2 a las 10:00")
  const FULL := SHOP.(creation := Failure(Rejected([SLOT], true)))
  const FREE := SHOP.(creation := Success(7))

  /** A message whose text reads as nothing in particular. */
  function Said(id: nat, text: string, normalized: string): Message {
    Message(id, text, normalized, [], [], text, true, None, None, false)
  }

  /** The client chooses the first option of a menu. */
  function First(id: nat): Message {
    Said(id, "1", "1")
  }

  function At(s: Session, ending: Ending): State {
    State(Some(s), map[], Some(ending))
  }

  const PICKED := FRESH.(category := Some("fiesta"), package := Some(Choice(1, "Show")))
  const DATED := PICKED.(date := Some(1), time := Some(600))
  const NAMED := DATED.(district := Some("Lima"), address := Some("Jr. Lima 100"), fullName := Some("Ana Paz"))

  const ASKED := NAMED.(providesMobility := true, step := OBSERVATIONS, lastMessage := Some(9))
  const OFFERED := ASKED.(step := ALTERNATIVES, options := Alternatives([SLOT], true), lastMessage := Some(10))
  const QUOTED :=
    OFFERED.(date := Some(2), time := Some(600), quote := Some(7), options := PAY, step := CONFIRM,
             lastMessage := Some(11))

  /** The quote created carries what the session shows. */
  const BOOKED := State(Some(QUOTED), map[7 := InputOf(QUOTED)], Some(Advanced))

  lemma FirstIsPicked(options: seq<MenuOption>)
    requires options != []
    ensures PickOption("1", options) == Some(options[0])
  {
    assert "1"[0] == '1' && ToNat("1") == 1;
  }

  /** A message understood at the step of the session, and answered. */
  lemma Answered(s: Session, m: Message, w: World, u: Session)
    requires Reached(At(s, Advanced)) && CatalogFits(w) && w.creation.Failure? && w.sends
    requires !m.asksForPerson && m.normalized !in RESTART_WORDS && s.lastMessage != Some(m.id)
    requires Advance(s, m, w) == Success(u) && u.step != CONFIRM
    ensures Reached(At(u.(misses := 0, lastMessage := Some(m.id)), Advanced))
  {
    ReachedThen(At(s, Advanced), Hear(m, w), At(u.(misses := 0, lastMessage := Some(m.id)), Advanced));
  }

  const S1 := FRESH.(options := CATEGORIES, lastMessage := Some(1))
  const ENTRIES := [MenuOption(Entry(1), "Show", "show")]
  const S2 := S1.(category := Some("fiesta"), options := ENTRIES, step := PACKAGE, lastMessage := Some(2))
  const S3 := PICKED.(step := DATE, lastMessage := Some(3))
  const S4 := S3.(date := Some(1), step := TIME, lastMessage := Some(4))
  const S5 := DATED.(options := DISTRICTS, step := DISTRICT, lastMessage := Some(5))
  const S6 := DATED.(district := Some("Lima"), step := ADDRESS, lastMessage := Some(6))
  const S7 := S6.(address := Some("Jr. Lima 100"), step := NAME, lastMessage := Some(7))
  const S8 := NAMED.(options := MOBILITIES, step := MOBILITY, lastMessage := Some(8))

  lemma NoneRestarts()
    ensures "1" !in RESTART_WORDS && "02/01/2030" !in RESTART_WORDS && "10:00" !in RESTART_WORDS
    ensures "jr. lima 100" !in RESTART_WORDS && "ana paz" !in RESTART_WORDS
  {
    assert |"1"| == 1 && |"02/01/2030"| == 10 && |"10:00"| == 5 && |"jr. lima 100"| == 12;
    assert "ana paz"[0] == 'a' && "empezar"[0] == 'e' && |"ana paz"| == 7;
  }

  lemma AsksForTheCategory()
    ensures Reached(At(S1, Advanced))
  {
    NothingSaid();
    ReachedThen(State(None, map[], None), Hear(First(1), SHOP), At(S1, Advanced));
  }

  lemma AsksForThePackage()
    ensures Reached(At(S2, Advanced))
  {
    AsksForTheCategory();
    NoneRestarts();
    FirstIsPicked(CATEGORIES);
    assert [SHOW][..0] == [];
    assert Entries([SHOW], "fiesta") == ENTRIES;
    Answered(S1, First(2), SHOP, S2.(lastMessage := Some(1)));
  }

  lemma AsksForTheDate()
    ensures Reached(At(S3, Advanced))
  {
    AsksForThePackage();
    NoneRestarts();
    FirstIsPicked(ENTRIES);
    Answered(S2, First(3), SHOP, S3.(lastMessage := Some(2)));
  }

  lemma AsksForTheTime()
    ensures Reached(At(S4, Advanced))
  {
    AsksForTheDate();
    NoneRestarts();
    Answered(S3, Said(4, "02/01/2030", "02/01/2030").(day := Some(1)), SHOP, S4.(lastMessage := Some(3)));
  }

  lemma AsksForTheDistrict()
    ensures Reached(At(S5, Advanced))
  {
    AsksForTheTime();
    NoneRestarts();
    Answered(S4, Said(5, "10:00", "10:00").(minute := Some(600)), SHOP, S5.(lastMessage := Some(4)));
  }

  lemma AsksForTheAddress()
    ensures Reached(At(S6, Advanced))
  {
    AsksForTheDistrict();
    NoneRestarts();
    FirstIsPicked(DISTRICTS);
    Answered(S5, First(6), SHOP, S6.(lastMessage := Some(5)));
  }

  lemma AsksForTheName()
    ensures Reached(At(S7, Advanced))
  {
    AsksForTheAddress();
    NoneRestarts();
    Answered(S6, Said(7, "Jr. Lima 100", "jr. lima 100"), SHOP, S7.(lastMessage := Some(6)));
  }

  lemma AsksForTheMobility()
    ensures Reached(At(S8, Advanced))
  {
    AsksForTheName();
    NoneRestarts();
    Answered(S7, Said(8, "Ana Paz", "ana paz"), SHOP, S8.(lastMessage := Some(7)));
  }

  lemma AsksForTheObservations()
    ensures Reached(At(ASKED, Advanced))
  {
    AsksForTheMobility();
    NoneRestarts();
    FirstIsPicked(MOBILITIES);
    Answered(S8, First(9), SHOP, ASKED.(lastMessage := Some(8)));
  }

  lemma TheTextIsHeard(text: string, normalized: string)
    requires text != "" && normalized !in SKIP_WORDS && normalized !in RESTART_WORDS
    ensures Apply(At(ASKED, Advanced), Hear(Said(10, text, normalized), FULL)) == At(OFFERED, Reacted)
  {
    assert Advance(ASKED, Said(10, text, normalized), FULL) == Failure(Raised(Rejected([SLOT], true)));
  }

  lemma TheAlternativeIsPicked()
    ensures Apply(At(OFFERED, Reacted), Hear(First(11), FREE)) == BOOKED
  {
    NoneRestarts();
    FirstIsPicked(OFFERED.options);
    assert Advance(OFFERED, First(11), FREE) == Success(QUOTED.(lastMessage := Some(10)));
  }

  /** Whatever the client writes, short of a word that skips or restarts, a run loses it: the session that asked
      for the observations hears them, offers an alternative, and the quote created for it carries none. */
  lemma ObservationsGetLost(text: string, normalized: string)
    requires text != "" && normalized !in SKIP_WORDS && normalized !in RESTART_WORDS
    ensures Reached(At(ASKED, Advanced)) && ASKED.step == OBSERVATIONS
    ensures Apply(At(ASKED, Advanced), Hear(Said(10, text, normalized), FULL)) == At(OFFERED, Reacted)
    ensures Apply(At(OFFERED, Reacted), Hear(First(11), FREE)) == BOOKED
    ensures Reached(BOOKED)
    ensures QUOTED.step == CONFIRM && InputOf(QUOTED).observations == None
  {
    AsksForTheObservations();
    TheTextIsHeard(text, normalized);
    ReachedThen(At(ASKED, Advanced), Hear(Said(10, text, normalized), FULL), At(OFFERED, Reacted));
    TheAlternativeIsPicked();
    ReachedThen(At(OFFERED, Reacted), Hear(First(11), FREE),
                BOOKED);
  }
}
