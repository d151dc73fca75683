/** The seed data the test suite starts from, and the outcomes the tests
    expect of it: two therapists sharing the CBT specialism, each with a
    one-off a minute from now and a later consultation. */
module Scenario {
  import opened Wrappers
  import Seqs
  import Text
  import opened Therapists
  import opened AppointmentModel
  import opened AppointmentRoutes

  const Day := 1440

  function SeedDirectory(): Directory
  {
    map[1 := Therapist("John Smith", {"Addiction", "CBT"}),
        2 := Therapist("Jane Smith", {"Sexuality", "CBT"})]
  }

  /** The four seed appointments, in the order they are saved. */
  function SeedRecords(now: int): seq<Appointment>
  {
    [ Appointment(Some(1), now + 1, now + 61, OneOff, 1),
      Appointment(Some(2), now + 14 * Day, now + 14 * Day + 30, Consultation, 1),
      Appointment(Some(3), now + 1, now + 61, OneOff, 2),
      Appointment(Some(4), now + 3 * Day, now + 3 * Day + 45, Consultation, 2) ]
  }

  /** The seed appointment `k` (counting from zero) before it is saved. */
  function SeedCandidate(now: int, k: nat): (c: Appointment)
    requires k < 4
    ensures c == SeedRecords(now)[k].(id := None)
  {
    SeedRecords(now)[k].(id := None)
  }

  /** No seed appointment conflicts with those saved before it. */
  lemma SeedWithoutConflicts(now: int, k: nat)
    requires k < 4
    ensures !HasConflict(SeedRecords(now)[..k], SeedCandidate(now, k))
  {
    var seed := SeedRecords(now);
    var c := SeedCandidate(now, k);
    forall x | x in seed[..k] && x.therapistId == c.therapistId
      ensures !Conflicts(x, c)
    {
      var i :| 0 <= i < k && seed[..k][i] == x;
    }
  }

  /** Saves seed appointment `k` once the `k` before it are stored. */
  method SaveSeedAppointment(store: AppointmentStore, now: int, k: nat)
    requires k < 4
    requires store.Valid() && store.records == SeedRecords(now)[..k] && store.nextId == k + 1
    modifies store
    ensures store.Valid() && store.records == SeedRecords(now)[..k + 1] && store.nextId == k + 2
  {
    SeedWithoutConflicts(now, k);
    var outcome := store.Save(SeedCandidate(now, k), now);
    assert outcome == Added;
    assert SeedRecords(now)[..k + 1] == SeedRecords(now)[..k] + [SeedRecords(now)[k]];
  }

  /** Saving the seed appointments one by one: every save succeeds, Jane's
      one-off at the same time as John's included, since only John's own
      appointments are scanned for his. */
  method Seed(now: int) returns (store: AppointmentStore)
    ensures fresh(store) && store.Valid()
    ensures store.records == SeedRecords(now) && store.nextId == 5
  {
    store := new AppointmentStore();
    SaveSeedAppointment(store, now, 0);
    SaveSeedAppointment(store, now, 1);
    SaveSeedAppointment(store, now, 2);
    SaveSeedAppointment(store, now, 3);
    assert SeedRecords(now)[..4] == SeedRecords(now);
  }

  /** The selector a query with the given arguments applies. */
  function QuerySelector(args: Args, toMinutes: string -> int): Appointment -> bool
  {
    Selects(QueryWindow(args, toMinutes), QueryTherapists(args, SeedDirectory()), QueryKinds(args))
  }

  /** Filtering the seed data looks at the four seed appointments in store
      order. */
  lemma FilterSeed(now: int, keep: Appointment -> bool)
    ensures var seed := SeedRecords(now);
            Seqs.Filter(seed, keep) ==
              Seqs.Kept(seed[0], keep) + (Seqs.Kept(seed[1], keep) + (Seqs.Kept(seed[2], keep) + (Seqs.Kept(seed[3], keep) + [])))
  {
    var seed := SeedRecords(now);
    assert seed[3..] == [seed[3]] + seed[4..];
    assert seed[2..] == [seed[2]] + seed[3..];
    assert seed[1..] == [seed[1]] + seed[2..];
    assert seed == [seed[0]] + seed[1..];
    Seqs.FilterStep(seed[3], seed[4..], keep);
    Seqs.FilterStep(seed[2], seed[3..], keep);
    Seqs.FilterStep(seed[1], seed[2..], keep);
    Seqs.FilterStep(seed[0], seed[1..], keep);
    assert seed[4..] == [];
  }

  /** The hits of a query over the seed data, by the selector it applies. */
  lemma SeedHits(now: int, args: Args, toMinutes: string -> int)
    ensures Hits(args, SeedRecords(now), SeedDirectory(), toMinutes) ==
              Seqs.Filter(SeedRecords(now), QuerySelector(args, toMinutes))
  {
  }

  /** The reply to a query whose hits are exactly two appointments. */
  lemma ReplyWithTwoHits(args: Args, records: seq<Appointment>, directory: Directory, toMinutes: string -> int,
                         first: Appointment, second: Appointment)
    requires args != map[]
    requires Hits(args, records, directory, toMinutes) == [first, second]
    requires first.therapistId in directory && second.therapistId in directory
    ensures GetAppointments(args, records, directory, toMinutes) ==
              QueryReply(Response("Appointments found: 2", 200),
                         Some([Shape(first, directory), Shape(second, directory)]))
  {
    var reply := GetAppointments(args, records, directory, toMinutes);
    assert Text.Decimal(2) == "2";
    assert reply.appointments.value == [Shape(first, directory), Shape(second, directory)];
  }

  /** Only John holds the Addiction specialism. */
  lemma OnlyJohnHoldsAddiction()
    ensures WithAnySpecialism(SeedDirectory(), ["Addiction"]) == {1}
  {
    var d := SeedDirectory();
    var r := WithAnySpecialism(d, ["Addiction"]);
    assert d.Keys == {1, 2};
    assert "Addiction" in d[1].specialisms;
    assert 1 in r;
    assert "Addiction" !in d[2].specialisms;
    assert 2 !in r;
  }

  /** `specialisms=Addiction` admits John alone. */
  lemma AddictionSelectsJohn(args: Args)
    requires args == map["specialisms" := "Addiction"]
    ensures QueryTherapists(args, SeedDirectory()) == {1}
  {
    OnlyJohnHoldsAddiction();
    assert args["specialisms"] == "Addiction";
    Text.SplitWithoutSeparator("Addiction", ',');
  }

  /** `specialisms=Addiction` accepts John's appointments and not Jane's. */
  lemma AddictionSelector(args: Args, now: int, toMinutes: string -> int)
    requires args == map["specialisms" := "Addiction"]
    requires DefaultStart <= now && now + 15 * Day <= DefaultEnd
    ensures var seed, keep := SeedRecords(now), QuerySelector(args, toMinutes);
            keep(seed[0]) && keep(seed[1]) && !keep(seed[2]) && !keep(seed[3])
  {
    var sel := Selects(Window(DefaultStart, DefaultEnd), {1}, Types());
    assert QuerySelector(args, toMinutes) == sel by {
      AddictionSelectsJohn(args);
      assert "start" !in args && "type" !in args;
    }
    SelectsJohnOnly(now);
  }

  /** John's appointments lie in the default window and have known kinds. */
  lemma SelectsJohnOnly(now: int)
    requires DefaultStart <= now && now + 15 * Day <= DefaultEnd
    ensures var seed, keep := SeedRecords(now), Selects(Window(DefaultStart, DefaultEnd), {1}, Types());
            keep(seed[0]) && keep(seed[1]) && !keep(seed[2]) && !keep(seed[3])
  {
  }

  /** Of the seed appointments, `specialisms=Addiction` selects John's two. */
  lemma AddictionHits(args: Args, now: int, toMinutes: string -> int)
    requires args == map["specialisms" := "Addiction"]
    requires DefaultStart <= now && now + 15 * Day <= DefaultEnd
    ensures Hits(args, SeedRecords(now), SeedDirectory(), toMinutes) == SeedRecords(now)[..2]
  {
    var seed := SeedRecords(now);
    var keep := QuerySelector(args, toMinutes);
    AddictionSelector(args, now, toMinutes);
    SeedHits(now, args, toMinutes);
    FilterSeed(now, keep);
    assert Seqs.Filter(seed, keep) == [seed[0]] + ([seed[1]] + ([] + ([] + [])));
  }

  /** `specialisms=Addiction` lists exactly John's two appointments. */
  lemma AddictionQuery(args: Args, now: int, toMinutes: string -> int)
    requires args == map["specialisms" := "Addiction"]
    requires DefaultStart <= now && now + 15 * Day <= DefaultEnd
    ensures GetAppointments(args, SeedRecords(now), SeedDirectory(), toMinutes) ==
              QueryReply(Response("Appointments found: 2", 200),
                         Some([Listed(now + 1, 60, "John Smith", OneOff),
                               Listed(now + 14 * Day, 30, "John Smith", Consultation)]))
  {
    var seed := SeedRecords(now);
    AddictionHits(args, now, toMinutes);
    assert seed[..2] == [seed[0], seed[1]];
    ReplyWithTwoHits(args, seed, SeedDirectory(), toMinutes, seed[0], seed[1]);
  }

  /** `type=one-off` lists exactly the two one-off appointments, John's first. */
  lemma OneOffQuery(now: int, toMinutes: string -> int)
    requires DefaultStart <= now && now + 15 * Day <= DefaultEnd
    ensures GetAppointments(map["type" := OneOff], SeedRecords(now), SeedDirectory(), toMinutes) ==
              QueryReply(Response("Appointments found: 2", 200),
                         Some([Listed(now + 1, 60, "John Smith", OneOff),
                               Listed(now + 1, 60, "Jane Smith", OneOff)]))
  {
    var args := map["type" := OneOff];
    var seed := SeedRecords(now);
    OneOffHits(args, now, toMinutes);
    ReplyWithTwoHits(args, seed, SeedDirectory(), toMinutes, seed[0], seed[2]);
  }

  /** Of the seed appointments, `type=one-off` selects the two one-offs. */
  lemma OneOffHits(args: Args, now: int, toMinutes: string -> int)
    requires args == map["type" := OneOff]
    requires DefaultStart <= now && now + 15 * Day <= DefaultEnd
    ensures var seed := SeedRecords(now);
            Hits(args, seed, SeedDirectory(), toMinutes) == [seed[0], seed[2]]
  {
    var seed := SeedRecords(now);
    var keep := QuerySelector(args, toMinutes);
    OneOffSelector(args, now, toMinutes);
    SeedHits(now, args, toMinutes);
    FilterSeed(now, keep);
    assert Seqs.Filter(seed, keep) == [seed[0]] + ([] + ([seed[2]] + ([] + [])));
  }

  /** `type=one-off` accepts both one-offs and neither consultation. */
  lemma OneOffSelector(args: Args, now: int, toMinutes: string -> int)
    requires args == map["type" := OneOff]
    requires DefaultStart <= now && now + 15 * Day <= DefaultEnd
    ensures var seed, keep := SeedRecords(now), QuerySelector(args, toMinutes);
            keep(seed[0]) && !keep(seed[1]) && keep(seed[2]) && !keep(seed[3])
  {
    assert QuerySelector(args, toMinutes) == Selects(Window(DefaultStart, DefaultEnd), {1, 2}, [OneOff]) by {
      assert "start" !in args && "specialisms" !in args && args["type"] == OneOff;
      assert SeedDirectory().Keys == {1, 2};
    }
  }

  /** Booking John's one-off a second time is refused as overlapping, while
      the same slot for Jane was accepted during seeding. */
  lemma RepeatedOneOffOverlaps(now: int)
    ensures SaveDecision(SeedRecords(now), NewAppointment(now + 1, 60, OneOff, 1), now) == Overlapping
  {
    assert SeedRecords(now)[0] in SeedRecords(now);
  }

  /** The same valid booking request of non-negative duration twice in a
      row, as the overlap test sends it, the clock reading `now1` and then
      `now2`: never two successes; after a success the second is refused as
      overlapping while its start has not passed, and as past once it has. */
  method AddSameRequestTwice(store: AppointmentStore, args: Args, directory: Directory, parsers: Parsers,
                             now1: int, now2: int)
    returns (first: Response, second: Response)
    requires store.Valid()
    requires AddRequest(args, directory, parsers).Success?
    requires parsers.minutes(args["duration"]).value >= 0
    requires now1 <= now2
    modifies store
    ensures store.Valid()
    ensures first.Response? && second.Response?
    ensures first.status == 200 && now2 <= parsers.start(args["start"]).value ==>
              second == Response("Overlapping with existing appointment.", 400)
    ensures first.status == 200 && parsers.start(args["start"]).value < now2 ==>
              second == Response("Cannot add an appointment in the past.", 400)
    ensures first.status != 200 || second.status != 200
  {
    var c := AddRequest(args, directory, parsers).value;
    first := AddAppointment(store, args, directory, parsers, now1);
    second := AddAppointment(store, args, directory, parsers, now2);
    if first.status == 200 && now2 <= c.start {
      SecondIdenticalSaveOverlaps(old(store.records), c, old(store.nextId), now2);
    }
  }
}
