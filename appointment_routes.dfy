/** The two appointment endpoints: the multi-criteria query and the ordered
    validation pipeline that ends in `save`. Request arguments are the query
    string as a map from key to value. */
module AppointmentRoutes {
  import opened Wrappers
  import Seqs
  import Text
  import opened Therapists
  import opened AppointmentModel
  import AuthRoutes

  type Args = map<string, string>

  /** 1970-01-01 00:00, the default lower bound of the query window. */
  const DefaultStart: int := 0
  /** 2999-12-12 00:00, the default upper bound of the query window. */
  const DefaultEnd: int := 541699200

  const NoParametersMessage := "No query parameters found."

  /** The inclusive window on start times: the given bounds only when both
      `start` and `end` are present, otherwise the defaults. */
  datatype Window = Window(lo: int, hi: int)

  function QueryWindow(args: Args, toMinutes: string -> int): Window
  {
    if "start" in args && "end" in args then Window(toMinutes(args["start"]), toMinutes(args["end"]))
    else Window(DefaultStart, DefaultEnd)
  }

  /** The therapists a query admits: holders of any comma-separated name
      given under `specialisms`, or every therapist. */
  function QueryTherapists(args: Args, directory: Directory): set<nat>
  {
    if "specialisms" in args then WithAnySpecialism(directory, Text.Split(args["specialisms"], ','))
    else directory.Keys
  }

  /** The kinds a query admits: the one given under `type`, or all of them. */
  function QueryKinds(args: Args): seq<string>
  {
    if "type" in args then [args["type"]] else Types()
  }

  function Selects(w: Window, ids: set<nat>, kinds: seq<string>): Appointment -> bool
  {
    (a: Appointment) => w.lo <= a.start <= w.hi && a.therapistId in ids && a.kind in kinds
  }

  /** What the query asks for, stated on the request itself. */
  ghost predicate Wanted(args: Args, directory: Directory, toMinutes: string -> int, a: Appointment)
  {
    && (if "start" in args && "end" in args
        then toMinutes(args["start"]) <= a.start <= toMinutes(args["end"])
        else DefaultStart <= a.start <= DefaultEnd)
    && a.therapistId in directory
    && ("specialisms" in args ==>
          exists n :: n in Text.Split(args["specialisms"], ',') && n in directory[a.therapistId].specialisms)
    && (if "type" in args then a.kind == args["type"] else a.kind == OneOff || a.kind == Consultation)
  }

  /** The stored appointments the query returns, in store order: exactly those
      meeting all three criteria. */
  function Hits(args: Args, records: seq<Appointment>, directory: Directory, toMinutes: string -> int): (hits: seq<Appointment>)
    ensures forall a :: a in hits <==> a in records && Wanted(args, directory, toMinutes, a)
    ensures forall a :: a in hits ==> a.therapistId in directory
    ensures forall a :: multiset(hits)[a] == if Wanted(args, directory, toMinutes, a) then multiset(records)[a] else 0
  {
    var keep := Selects(QueryWindow(args, toMinutes), QueryTherapists(args, directory), QueryKinds(args));
    var hits := Seqs.Filter(records, keep);
    assert forall a :: keep(a) <==> Wanted(args, directory, toMinutes, a) by {
      forall a ensures keep(a) <==> Wanted(args, directory, toMinutes, a) {
        if "specialisms" in args && a.therapistId in directory {
          var names := Text.Split(args["specialisms"], ',');
          assert (exists n :: n in names && n in directory[a.therapistId].specialisms)
             <==> (exists i :: 0 <= i < |names| && names[i] in directory[a.therapistId].specialisms);
        }
      }
    }
    forall a ensures multiset(hits)[a] == if Wanted(args, directory, toMinutes, a) then multiset(records)[a] else 0 {
      Seqs.FilterCount(records, keep, a);
    }
    hits
  }

  /** One entry of the reply: start time, duration in minutes, the therapist's
      name and the appointment's kind. */
  datatype Listed = Listed(time: int, duration: int, therapist: string, kind: string)

  function Shape(a: Appointment, directory: Directory): Listed
    requires a.therapistId in directory
  {
    Listed(a.start, a.end - a.start, directory[a.therapistId].name, a.kind)
  }

  /** The reply of `get_appointments`; `appointments` is absent when the
      request is refused. */
  datatype QueryReply = QueryReply(response: Response, appointments: Option<seq<Listed>>)

  /** `get_appointments`: refuses a request without any key; any key, even an
      unknown one, leads to a listing of the hits, counted in the message. */
  function GetAppointments(args: Args, records: seq<Appointment>, directory: Directory, toMinutes: string -> int): (reply: QueryReply)
    ensures args == map[] <==> reply == QueryReply(Response(NoParametersMessage, 400), None)
    ensures args != map[] ==>
              var hits := Hits(args, records, directory, toMinutes);
              && reply.response == Response("Appointments found: " + Text.Decimal(|hits|), 200)
              && reply.appointments.Some? && |reply.appointments.value| == |hits|
              && forall i :: 0 <= i < |hits| ==>
                   var l := reply.appointments.value[i];
                   && l.time == hits[i].start && l.duration == hits[i].end - hits[i].start
                   && l.therapist == directory[hits[i].therapistId].name && l.kind == hits[i].kind
  {
    if args == map[] then QueryReply(Response(NoParametersMessage, 400), None)
    else
      var hits := Hits(args, records, directory, toMinutes);
      assert forall i :: 0 <= i < |hits| ==> hits[i] in hits;
      var listed := seq(|hits|, i requires 0 <= i < |hits| => Shape(hits[i], directory));
      QueryReply(Response("Appointments found: " + Text.Decimal(|hits|), 200), Some(listed))
  }

  /** An appointment appended to the store under a fresh identity is listed
      once, after everything listed before, by every query it meets. */
  lemma AddedAppointmentListedOnce(records: seq<Appointment>, stored: Appointment, args: Args, directory: Directory, toMinutes: string -> int)
    requires stored !in records
    requires Wanted(args, directory, toMinutes, stored)
    ensures Hits(args, records + [stored], directory, toMinutes) == Hits(args, records, directory, toMinutes) + [stored]
    ensures multiset(Hits(args, records + [stored], directory, toMinutes))[stored] == 1
  {
    var keep := Selects(QueryWindow(args, toMinutes), QueryTherapists(args, directory), QueryKinds(args));
    Seqs.FilterConcat(records, [stored], keep);
    assert Seqs.Filter([stored], keep) == [stored] by {
      assert stored in records + [stored];
      assert [stored][1..] == [];
    }
    Seqs.FilterCount(records + [stored], keep, stored);
    assert multiset(records + [stored]) == multiset(records) + multiset{stored};
  }

  /** Booking and then querying: a booking that succeeds stores a record
      not stored before, and every query that record meets lists it after
      what the query listed before the booking. */
  method AddThenQuery(store: AppointmentStore, args: Args, directory: Directory, parsers: Parsers, now: int,
                      query: Args, toMinutes: string -> int)
    returns (resp: Response, reply: QueryReply)
    requires store.Valid()
    modifies store
    ensures reply == GetAppointments(query, store.records, directory, toMinutes)
    ensures resp.Response? && resp.status == 200 ==>
              && |store.records| == |old(store.records)| + 1
              && var stored := store.records[|store.records| - 1];
              && stored !in old(store.records)
              && (Wanted(query, directory, toMinutes, stored) ==>
                    Hits(query, store.records, directory, toMinutes) ==
                    Hits(query, old(store.records), directory, toMinutes) + [stored])
  {
    ghost var before := store.records;
    ghost var nextId := store.nextId;
    resp := AddAppointment(store, args, directory, parsers, now);
    if resp.Response? && resp.status == 200 {
      var stored := store.records[|store.records| - 1];
      assert store.records == before + [stored];
      assert stored.id == Some(nextId);
      assert stored !in before by {
        forall i | 0 <= i < |before| ensures before[i] != stored {
          assert before[i].id.value < nextId;
        }
      }
      if Wanted(query, directory, toMinutes, stored) {
        AddedAppointmentListedOnce(before, stored, query, directory, toMinutes);
      }
    }
    reply := GetAppointments(query, store.records, directory, toMinutes);
  }

  /** A query naming a kind that is not one of the known kinds lists nothing,
      as long as the store only holds known kinds; it is not an error. */
  lemma UnknownTypeListsNothing(records: seq<Appointment>, args: Args, directory: Directory, toMinutes: string -> int)
    requires "type" in args && args["type"] !in Types()
    requires forall x :: x in records ==> x.kind in Types()
    ensures Hits(args, records, directory, toMinutes) == []
  {
    var keep := Selects(QueryWindow(args, toMinutes), QueryTherapists(args, directory), QueryKinds(args));
    Seqs.FilterNone(records, keep);
  }

  /** A query whose keys are all unrecognised applies every default: it lists
      the whole store when every appointment lies in the default window,
      belongs to a known therapist and has a known kind. */
  lemma UnrecognisedKeysListEverything(records: seq<Appointment>, args: Args, directory: Directory, toMinutes: string -> int)
    requires args != map[]
    requires "start" !in args && "specialisms" !in args && "type" !in args
    requires forall x :: x in records ==>
               DefaultStart <= x.start <= DefaultEnd && x.therapistId in directory && x.kind in Types()
    ensures Hits(args, records, directory, toMinutes) == records
    ensures GetAppointments(args, records, directory, toMinutes).response ==
              Response("Appointments found: " + Text.Decimal(|records|), 200)
  {
    var keep := Selects(QueryWindow(args, toMinutes), QueryTherapists(args, directory), QueryKinds(args));
    Seqs.FilterAll(records, keep);
  }

  const MissingArgumentsMessage := "Missing arguments. All of [start, duration, type, therapist_id] are required."
  /** The message names `Types()` as Python renders the list. */
  const IncorrectTypeMessage := "Incorrect type. Must be one of " + Text.PythonList(Types())

  /** The rendered refusal, spelled out. */
  lemma IncorrectTypeMessageText()
    ensures IncorrectTypeMessage == "Incorrect type. Must be one of " + "['" + OneOff + "', '" + Consultation + "']"
  {
    KindsRendered();
  }

  /** Python's rendering of `Types()`. */
  lemma KindsRendered()
    ensures Text.PythonList(Types()) == "['" + OneOff + "', '" + Consultation + "']"
  {
    var kinds := Types();
    assert kinds[1..] == [Consultation];
    assert Text.PythonItems(kinds) == "'" + OneOff + "', " + ("'" + Consultation + "'");
  }

  const TherapistNotFoundMessage := "Therapist not found."
  const InvalidTimeMessage := "Invalid start time or duration."

  /** The conversions `add_appointment` applies to its arguments:
      `strptime(start, "%Y-%m-%d %H:%M")`, `int(duration)`, and the
      database's reading of `therapist_id` as an identity. */
  datatype Parsers = Parsers(
    start: string -> Option<int>,
    minutes: string -> Option<int>,
    therapistId: string -> Option<nat>)

  predicate HasAddKeys(args: Args)
  {
    "start" in args && "duration" in args && "type" in args && "therapist_id" in args
  }

  /** `Therapist.query.filter_by(id=therapist_id).first()`, as an identity. */
  function FindTherapist(args: Args, directory: Directory, parsers: Parsers): (r: Option<nat>)
    requires "therapist_id" in args
    ensures r.Some? <==> parsers.therapistId(args["therapist_id"]).Some? &&
                         parsers.therapistId(args["therapist_id"]).value in directory
    ensures r.Some? ==> r.value == parsers.therapistId(args["therapist_id"]).value
  {
    match parsers.therapistId(args["therapist_id"])
    case Some(id) => if id in directory then Some(id) else None
    case None => None
  }

  /** The checks `add_appointment` makes before saving, in their fixed order:
      all four keys, a known kind, an existing therapist, then a parsable
      start and duration. The first that fails decides the message. */
  function AddRequest(args: Args, directory: Directory, parsers: Parsers): (r: Result<Appointment, string>)
    ensures !HasAddKeys(args) ==> r == Failure(MissingArgumentsMessage)
    ensures HasAddKeys(args) && args["type"] !in Types() ==> r == Failure(IncorrectTypeMessage)
    ensures HasAddKeys(args) && args["type"] in Types() && FindTherapist(args, directory, parsers).None? ==>
              r == Failure(TherapistNotFoundMessage)
    ensures r.Success? <==>
              && HasAddKeys(args) && args["type"] in Types() && FindTherapist(args, directory, parsers).Some?
              && parsers.start(args["start"]).Some? && parsers.minutes(args["duration"]).Some?
    ensures HasAddKeys(args) && args["type"] in Types() && FindTherapist(args, directory, parsers).Some? &&
            (parsers.start(args["start"]).None? || parsers.minutes(args["duration"]).None?) ==>
              r == Failure(InvalidTimeMessage)
    ensures r.Success? ==>
              r.value == NewAppointment(parsers.start(args["start"]).value, parsers.minutes(args["duration"]).value,
                                        args["type"], parsers.therapistId(args["therapist_id"]).value)
    ensures r.Success? ==>
              && r.value.id == None && r.value.kind in Types() && r.value.therapistId in directory
              && r.value.start == parsers.start(args["start"]).value
              && r.value.end - r.value.start == parsers.minutes(args["duration"]).value
  {
    if !HasAddKeys(args) then Failure(MissingArgumentsMessage)
    else if args["type"] !in Types() then Failure(IncorrectTypeMessage)
    else match FindTherapist(args, directory, parsers)
      case None => Failure(TherapistNotFoundMessage)
      case Some(id) =>
        match (parsers.start(args["start"]), parsers.minutes(args["duration"]))
        case (Some(start), Some(length)) => Success(NewAppointment(start, length, args["type"], id))
        case _ => Failure(InvalidTimeMessage)
  }

  /** `add_appointment`: the checks, then `save`; 200 exactly when `save`
      added the appointment, 400 for every refusal. */
  method AddAppointment(store: AppointmentStore, args: Args, directory: Directory, parsers: Parsers, now: int)
    returns (resp: Response)
    requires store.Valid()
    modifies store
    ensures store.Valid()
    ensures AddRequest(args, directory, parsers).Failure? ==>
              resp == Response(AddRequest(args, directory, parsers).error, 400) &&
              store.records == old(store.records)
    ensures AddRequest(args, directory, parsers).Success? ==>
              var c := AddRequest(args, directory, parsers).value;
              var o := SaveDecision(old(store.records), c, now);
              && resp == Response(SaveMessage(o), if o == Added then 200 else 400)
              && store.records == if o == Added then old(store.records) + [c.(id := Some(old(store.nextId)))]
                                  else old(store.records)
  {
    var request := AddRequest(args, directory, parsers);
    if request.Failure? {
      return Response(request.error, 400);
    }
    var outcome := store.Save(request.value, now);
    var message := SaveMessage(outcome);
    var code := if message == "Appointment added." then 200 else 400;
    resp := Response(message, code);
  }

  /** A booking for a therapist that is not found is answered as such at
      every clock reading, a past start included, and leaves the store as it
      was: the clock is only consulted by `save`. */
  method UnknownTherapistBeforePastStart(store: AppointmentStore, args: Args, directory: Directory,
                                         parsers: Parsers, now: int) returns (resp: Response)
    requires store.Valid()
    requires HasAddKeys(args) && args["type"] in Types()
    requires FindTherapist(args, directory, parsers).None?
    modifies store
    ensures resp == Response(TherapistNotFoundMessage, 400)
    ensures store.records == old(store.records)
  {
    resp := AddAppointment(store, args, directory, parsers, now);
  }

  /** The query endpoint behind the token gate. */
  function GuardedGetAppointments(header: Option<string>, decode: string -> AuthRoutes.Decoded,
                                  args: Args, records: seq<Appointment>, directory: Directory,
                                  toMinutes: string -> int): (reply: QueryReply)
    ensures AuthRoutes.Gate(header, decode).Deny? ==>
              reply == QueryReply(AuthRoutes.Gate(header, decode).response, None)
    ensures AuthRoutes.Gate(header, decode).Proceed? ==>
              reply == GetAppointments(args, records, directory, toMinutes)
  {
    match AuthRoutes.Gate(header, decode)
    case Deny(resp) => QueryReply(resp, None)
    case Proceed => GetAppointments(args, records, directory, toMinutes)
  }

  /** The add endpoint behind the token gate: a denied request never reaches
      the store. */
  method GuardedAddAppointment(header: Option<string>, decode: string -> AuthRoutes.Decoded,
                               store: AppointmentStore, args: Args, directory: Directory,
                               parsers: Parsers, now: int) returns (resp: Response)
    requires store.Valid()
    modifies store
    ensures store.Valid()
    ensures AuthRoutes.Gate(header, decode).Deny? ==>
              resp == AuthRoutes.Gate(header, decode).response && store.records == old(store.records)
    ensures AuthRoutes.Gate(header, decode).Proceed? && AddRequest(args, directory, parsers).Failure? ==>
              resp == Response(AddRequest(args, directory, parsers).error, 400) &&
              store.records == old(store.records)
    ensures AuthRoutes.Gate(header, decode).Proceed? && AddRequest(args, directory, parsers).Success? ==>
              var c := AddRequest(args, directory, parsers).value;
              var o := SaveDecision(old(store.records), c, now);
              && resp == Response(SaveMessage(o), if o == Added then 200 else 400)
              && store.records == if o == Added then old(store.records) + [c.(id := Some(old(store.nextId)))]
                                  else old(store.records)
    ensures AuthRoutes.Gate(header, decode).Proceed? ==>
              resp.Response? && (resp.status == 200 <==> |store.records| == |old(store.records)| + 1)
  {
    var gate := AuthRoutes.Gate(header, decode);
    if gate.Deny? {
      return gate.response;
    }
    resp := AddAppointment(store, args, directory, parsers, now);
  }
}
