/** Therapists and their specialisms. The directory is read-only for the
    scheduling core: it maps a therapist's identity to the therapist. */
module Therapists {

  /** A practitioner: a display name (not unique) and the names of the
      specialisms held. */
  datatype Therapist = Therapist(name: string, specialisms: set<string>)

  type Directory = map<nat, Therapist>

  /** True when the therapist holds at least one of the requested names. */
  predicate HoldsAnyOf(t: Therapist, names: seq<string>)
  {
    exists n :: n in names && n in t.specialisms
  }

  /** `Therapist.query.filter(Therapist.specialisms.any(Specialism.name.in_(names)))`:
      the identities of the therapists holding any of the names (OR, not AND). */
  function WithAnySpecialism(directory: Directory, names: seq<string>): (ids: set<nat>)
    ensures ids <= directory.Keys
    ensures forall id :: id in directory ==>
              (id in ids <==> exists i :: 0 <= i < |names| && names[i] in directory[id].specialisms)
  {
    set id | id in directory && HoldsAnyOf(directory[id], names)
  }

  /** A name no therapist holds selects nobody. */
  lemma UnknownSpecialismMatchesNobody(directory: Directory, name: string)
    requires forall id :: id in directory ==> name !in directory[id].specialisms
    ensures WithAnySpecialism(directory, [name]) == {}
  {
  }

  /** Asking for more names never selects fewer therapists. */
  lemma MoreNamesSelectMore(directory: Directory, names: seq<string>, more: seq<string>)
    ensures WithAnySpecialism(directory, names) <= WithAnySpecialism(directory, names + more)
  {
    forall id | id in WithAnySpecialism(directory, names)
      ensures id in WithAnySpecialism(directory, names + more)
    {
      var n :| n in names && n in directory[id].specialisms;
      assert n in names + more;
    }
  }
}
