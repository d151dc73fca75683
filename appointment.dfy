/** Appointments and the store that owns them: construction (end = start +
    length), the conflict rule, and the checked insertion `Save`.
    Times are whole minutes since 1970-01-01 00:00, without a time zone. */
module AppointmentModel {
  import opened Wrappers
  import Seqs

  const OneOff := "one-off"
  const Consultation := "consultation"

  /** One scheduled session. `id` is `None` until the store saves it, as the
      database assigns identities on insertion. */
  datatype Appointment = Appointment(
    id: Option<nat>,
    start: int,
    end: int,
    kind: string,
    therapistId: nat)

  /** The fixed, ordered list of appointment kinds. */
  function Types(): (r: seq<string>)
    ensures |r| == 2
    ensures forall k :: k in r <==> k == OneOff || k == Consultation
    ensures r[0] == OneOff && r[1] == Consultation
  {
    [OneOff, Consultation]
  }

  /** The constructor: an unsaved appointment ending `length` minutes after it
      starts. */
  function NewAppointment(start: int, length: int, kind: string, therapistId: nat): (a: Appointment)
    ensures a.id == None
    ensures a.end - a.start == length && a.start == start
    ensures a.kind == kind && a.therapistId == therapistId
  {
    Appointment(None, start, start + length, kind, therapistId)
  }

  /** The instant `t` lies in the closed interval `[x.start, x.end]`. */
  predicate Within(x: Appointment, t: int)
  {
    x.start <= t <= x.end
  }

  /** The rule `save` applies to an existing appointment `x` of the same
      therapist: a different record, and BOTH the candidate's start AND its
      end lie inside `x`'s closed interval. This is containment, not overlap. */
  predicate Conflicts(x: Appointment, c: Appointment)
  {
    x.id != c.id && Within(x, c.start) && Within(x, c.end)
  }

  /** The textbook test for two closed intervals sharing an instant. */
  predicate Overlaps(a: Appointment, b: Appointment)
  {
    a.start <= b.end && b.start <= a.end
  }

  /** Some record of the candidate's therapist conflicts with it. */
  ghost predicate HasConflict(records: seq<Appointment>, c: Appointment)
  {
    exists x :: x in records && x.therapistId == c.therapistId && Conflicts(x, c)
  }

  /** The selector of one therapist's records. */
  function OfTherapist(therapistId: nat): Appointment -> bool
  {
    (x: Appointment) => x.therapistId == therapistId
  }

  /** The selector of the records a candidate conflicts with. */
  function ConflictingWith(c: Appointment): Appointment -> bool
  {
    (x: Appointment) => Conflicts(x, c)
  }

  /** `therapist.appointments`: the records of one therapist, in store order. */
  function AppointmentsOf(records: seq<Appointment>, therapistId: nat): (r: seq<Appointment>)
    ensures forall x :: x in r <==> x in records && x.therapistId == therapistId
  {
    Seqs.Filter(records, OfTherapist(therapistId))
  }

  /** The `overlap` list `save` builds: the therapist's records the candidate
      conflicts with. It is empty exactly when there is no conflict. */
  function OverlapList(records: seq<Appointment>, c: Appointment): (r: seq<Appointment>)
    ensures r == [] <==> !HasConflict(records, c)
    ensures forall x :: x in r ==> x.therapistId == c.therapistId && Conflicts(x, c)
  {
    var r := Seqs.Filter(AppointmentsOf(records, c.therapistId), ConflictingWith(c));
    assert r != [] ==> r[0] in r;
    r
  }

  /** The three results of `save`. */
  datatype SaveOutcome = Added | PastStart | Overlapping

  /** The message `save` returns for each outcome. */
  function SaveMessage(o: SaveOutcome): (m: string)
    ensures m == "Appointment added." <==> o == Added
  {
    match o
    case Added => "Appointment added."
    case PastStart => "Cannot add an appointment in the past."
    case Overlapping => "Overlapping with existing appointment."
  }

  /** What `save` decides for candidate `c` against `records` at time `now`:
      a start strictly before `now` is refused before any conflict scan; then a
      conflicting record refuses it; otherwise it is added. */
  function SaveDecision(records: seq<Appointment>, c: Appointment, now: int): (o: SaveOutcome)
    ensures o == PastStart <==> c.start < now
    ensures o == Overlapping <==> now <= c.start && HasConflict(records, c)
    ensures o == Added <==> now <= c.start && !HasConflict(records, c)
  {
    if c.start < now then PastStart
    else if OverlapList(records, c) == [] then Added
    else Overlapping
  }

  /** A candidate that starts or ends outside `x` is never refused because of
      `x`, even when the two intervals share time. */
  lemma PartialOverlapAccepted(x: Appointment, c: Appointment)
    requires c.start < x.start <= c.end || c.start <= x.end < c.end
    ensures !Conflicts(x, c)
  {
  }

  /** A candidate strictly containing `x` is not refused because of `x`. */
  lemma StrictContainmentAccepted(x: Appointment, c: Appointment)
    requires x.start <= x.end && c.start < x.start && x.end < c.end
    ensures Overlaps(x, c) && !Conflicts(x, c)
  {
  }

  /** For a candidate of non-negative length the rule is exactly containment of
      the candidate in `x`, and it is never triggered without an overlap. */
  lemma ConflictIsContainment(x: Appointment, c: Appointment)
    requires x.id != c.id && c.start <= c.end
    ensures Conflicts(x, c) <==> x.start <= c.start && c.end <= x.end
    ensures Conflicts(x, c) ==> Overlaps(x, c)
  {
  }

  /** Records of other therapists never change the decision. */
  lemma {:induction false} OtherTherapistsIgnored(records: seq<Appointment>, others: seq<Appointment>, c: Appointment, now: int)
    requires forall x :: x in others ==> x.therapistId != c.therapistId
    ensures OverlapList(records + others, c) == OverlapList(records, c)
    ensures SaveDecision(records + others, c, now) == SaveDecision(records, c, now)
  {
    var mine := OfTherapist(c.therapistId);
    Seqs.FilterConcat(records, others, mine);
    Seqs.FilterNone(others, mine);
    assert AppointmentsOf(records + others, c.therapistId) == AppointmentsOf(records, c.therapistId) + [];
    assert AppointmentsOf(records + others, c.therapistId) == AppointmentsOf(records, c.therapistId);
  }

  /** The same candidate saved twice: once stored, it conflicts with its own
      stored copy, whatever identity the copy received. */
  lemma SecondIdenticalSaveOverlaps(records: seq<Appointment>, c: Appointment, id: nat, now: int)
    requires c.id == None && c.start <= c.end && now <= c.start
    ensures SaveDecision(records + [c.(id := Some(id))], c, now) == Overlapping
  {
    var stored := c.(id := Some(id));
    assert stored in records + [stored];
    assert Conflicts(stored, c);
  }

  /** With a negative length (end before start) the same candidate can be
      stored twice: no instant lies in its own interval. */
  lemma NegativeLengthSavedTwice(records: seq<Appointment>, c: Appointment, id: nat, now: int)
    requires c.id == None && c.end < c.start && now <= c.start
    requires SaveDecision(records, c, now) == Added
    ensures SaveDecision(records + [c.(id := Some(id))], c, now) == Added
  {
    var stored := c.(id := Some(id));
    forall x | x in records + [stored] && x.therapistId == c.therapistId
      ensures !Conflicts(x, c)
    {
      if x != stored { assert x in records; }
    }
  }

  /** No record of a therapist lies, start and end, inside an earlier record of
      the same therapist: the invariant `save` keeps. */
  ghost predicate NoneContainedInEarlier(records: seq<Appointment>)
  {
    forall i, j :: 0 <= i < j < |records| && records[i].therapistId == records[j].therapistId ==>
      !(Within(records[i], records[j].start) && Within(records[i], records[j].end))
  }

  /** The appointments table. `nextId` is the identity the next insertion
      receives. */
  class AppointmentStore {
    var records: seq<Appointment>
    var nextId: nat

    ghost predicate Valid()
      reads this
    {
      && (forall i :: 0 <= i < |records| ==> records[i].id.Some? && records[i].id.value < nextId)
      && (forall i, j :: 0 <= i < j < |records| ==> records[i].id != records[j].id)
      && NoneContainedInEarlier(records)
    }

    constructor ()
      ensures Valid() && records == [] && nextId == 1
    {
      records := [];
      nextId := 1;
    }

    /** `Appointment.save`: refuses a start in the past, then scans the
        therapist's appointments for a conflict, and otherwise appends the
        candidate under a fresh identity. */
    method Save(c: Appointment, now: int) returns (outcome: SaveOutcome)
      requires Valid() && c.id == None
      modifies this
      ensures Valid()
      ensures outcome == SaveDecision(old(records), c, now)
      ensures outcome == Added ==>
                records == old(records) + [c.(id := Some(old(nextId)))] && nextId == old(nextId) + 1
      ensures outcome != Added ==> records == old(records) && nextId == old(nextId)
    {
      if c.start < now {
        return PastStart;
      }
      var overlap := OverlapList(records, c);
      if overlap == [] {
        var stored := c.(id := Some(nextId));
        forall i | 0 <= i < |records| && records[i].therapistId == c.therapistId
          ensures !(Within(records[i], c.start) && Within(records[i], c.end))
        {
          assert records[i] in records && records[i].id != c.id;
        }
        records := records + [stored];
        nextId := nextId + 1;
        return Added;
      }
      return Overlapping;
    }
  }
}
