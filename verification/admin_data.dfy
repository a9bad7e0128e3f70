/** The administration store (src/hooks/useAdminData.ts): the editable
    question bank, career catalogue and type profiles, their updates and
    resets, and the lookups into the official subtype table. Persistence is
    reduced to the choice between a stored value and the compiled default. */
module AdminData {
  import opened Wrappers
  import opened Seqs
  import opened QuizQuestions
  import opened QuestionBank
  import opened CareerDetails

  /** The three collections the administration screens edit. */
  datatype Store = Store(questions: seq<Question>, careers: seq<CareerDetail>, profiles: ProfileTable)

  /** `load`: the stored text is used when present, non-empty and readable;
      otherwise the fallback. Reading (`JSON.parse`) is the parameter `read`. */
  function Load<T>(stored: Option<string>, read: string -> Option<T>, fallback: T): (r: T)
    ensures stored.Some? && stored.value != "" && read(stored.value).Some? ==> r == read(stored.value).value
    ensures stored.None? || stored.value == "" || read(stored.value).None? ==> r == fallback
  {
    if stored.Some? && stored.value != "" then read(stored.value).GetOr(fallback) else fallback
  }

  /** A stored text that is present, non-empty and read successfully. */
  predicate Readable<T>(stored: Option<string>, read: string -> Option<T>) {
    stored.Some? && stored.value != "" && read(stored.value).Some?
  }

  /** The store as the hook starts it: each collection loaded over its compiled default. */
  function InitialStore(
    storedQuestions: Option<string>, readQuestions: string -> Option<seq<Question>>,
    storedCareers: Option<string>, readCareers: string -> Option<seq<CareerDetail>>,
    storedProfiles: Option<string>, readProfiles: string -> Option<ProfileTable>): (s: Store)
    ensures Readable(storedQuestions, readQuestions) ==> s.questions == readQuestions(storedQuestions.value).value
    ensures !Readable(storedQuestions, readQuestions) ==> s.questions == AllQuestions
    ensures Readable(storedCareers, readCareers) ==> s.careers == readCareers(storedCareers.value).value
    ensures !Readable(storedCareers, readCareers) ==> s.careers == DefaultCareers
    ensures Readable(storedProfiles, readProfiles) ==> s.profiles == readProfiles(storedProfiles.value).value
    ensures !Readable(storedProfiles, readProfiles) ==> s.profiles == DefaultProfiles
  {
    Store(Load(storedQuestions, readQuestions, AllQuestions),
          Load(storedCareers, readCareers, DefaultCareers),
          Load(storedProfiles, readProfiles, DefaultProfiles))
  }

  // ---------------------------------------------------------------------------
  // Updates

  /** `updateQuestion(index, updated)`; callers pass the index of a listed question. */
  function UpdateQuestion(s: Store, index: nat, updated: Question): (r: Store)
    requires index < |s.questions|
    ensures |r.questions| == |s.questions|
    ensures r.questions[index] == updated
    ensures forall j | 0 <= j < |s.questions| && j != index :: r.questions[j] == s.questions[j]
    ensures r.careers == s.careers && r.profiles == s.profiles
  {
    s.(questions := s.questions[index := updated])
  }

  /** `updateCareer(index, updated)`; callers pass the index of a listed career. */
  function UpdateCareer(s: Store, index: nat, updated: CareerDetail): (r: Store)
    requires index < |s.careers|
    ensures |r.careers| == |s.careers|
    ensures r.careers[index] == updated
    ensures forall j | 0 <= j < |s.careers| && j != index :: r.careers[j] == s.careers[j]
    ensures r.questions == s.questions && r.profiles == s.profiles
  {
    s.(careers := s.careers[index := updated])
  }

  /** `updateProfile(type, updated)`: `{ ...prev, [type]: updated }`. */
  function UpdateProfile(s: Store, t: RiasecType, updated: RiasecProfile): (r: Store)
    ensures t in r.profiles && r.profiles[t] == updated
    ensures forall u | u != t :: (u in r.profiles <==> u in s.profiles)
    ensures forall u | u != t && u in s.profiles :: r.profiles[u] == s.profiles[u]
    ensures r.questions == s.questions && r.careers == s.careers
    ensures IsTotal(s.profiles) ==> IsTotal(r.profiles)
  {
    s.(profiles := s.profiles[t := updated])
  }

  /** Writing a slot twice keeps only the second value, and writing back what
      a slot holds changes nothing. */
  lemma UpdateQuestionOverwrites(s: Store, index: nat, a: Question, b: Question)
    requires index < |s.questions|
    ensures UpdateQuestion(UpdateQuestion(s, index, a), index, b) == UpdateQuestion(s, index, b)
    ensures UpdateQuestion(s, index, s.questions[index]) == s
  {
    var r1 := UpdateQuestion(UpdateQuestion(s, index, a), index, b);
    var r2 := UpdateQuestion(s, index, b);
    assert r1.questions == r2.questions;
    assert s.questions[index := s.questions[index]] == s.questions;
  }

  /** Updates of different slots commute. */
  lemma UpdateCareersCommute(s: Store, i: nat, j: nat, a: CareerDetail, b: CareerDetail)
    requires i < |s.careers| && j < |s.careers| && i != j
    ensures UpdateCareer(UpdateCareer(s, i, a), j, b) == UpdateCareer(UpdateCareer(s, j, b), i, a)
  {
    var r1 := UpdateCareer(UpdateCareer(s, i, a), j, b);
    var r2 := UpdateCareer(UpdateCareer(s, j, b), i, a);
    assert r1.careers == r2.careers;
  }

  /** A profile update is read back, and a later update of the same type wins. */
  lemma UpdateProfileOverwrites(s: Store, t: RiasecType, a: RiasecProfile, b: RiasecProfile)
    ensures UpdateProfile(UpdateProfile(s, t, a), t, b) == UpdateProfile(s, t, b)
    ensures t in s.profiles ==> UpdateProfile(s, t, s.profiles[t]) == s
  {
    var r1 := UpdateProfile(UpdateProfile(s, t, a), t, b);
    var r2 := UpdateProfile(s, t, b);
    assert r1.profiles == r2.profiles;
    if t in s.profiles {
      assert s.profiles[t := s.profiles[t]] == s.profiles;
    }
  }

  /** The careers handed over by a confirmed spreadsheet import replace the catalogue. */
  function ReplaceCareers(s: Store, careers: seq<CareerDetail>): (r: Store)
    ensures r.careers == careers && r.questions == s.questions && r.profiles == s.profiles
  {
    s.(careers := careers)
  }

  // ---------------------------------------------------------------------------
  // Resets

  /** `resetQuestions`. */
  function ResetQuestions(s: Store): (r: Store)
    ensures r.questions == AllQuestions && r.careers == s.careers && r.profiles == s.profiles
  {
    s.(questions := AllQuestions)
  }

  /** `resetCareers`. */
  function ResetCareers(s: Store): (r: Store)
    ensures r.careers == DefaultCareers && r.questions == s.questions && r.profiles == s.profiles
  {
    s.(careers := DefaultCareers)
  }

  /** `resetProfiles`. */
  function ResetProfiles(s: Store): (r: Store)
    ensures r.profiles == DefaultProfiles && r.questions == s.questions && r.careers == s.careers
  {
    s.(profiles := DefaultProfiles)
  }

  /** A reset undoes every edit of its collection, whichever update or
      replacement came before, and resetting twice is resetting once. */
  lemma ResetUndoesEdits(s: Store, i: nat, q: Question, j: nat, c: CareerDetail, cs: seq<CareerDetail>,
                         t: RiasecType, p: RiasecProfile)
    requires i < |s.questions| && j < |s.careers|
    ensures ResetQuestions(UpdateQuestion(s, i, q)) == ResetQuestions(s)
    ensures ResetCareers(UpdateCareer(s, j, c)) == ResetCareers(s)
    ensures ResetCareers(ReplaceCareers(s, cs)) == ResetCareers(s)
    ensures ResetProfiles(UpdateProfile(s, t, p)) == ResetProfiles(s)
    ensures ResetQuestions(ResetQuestions(s)) == ResetQuestions(s)
    ensures ResetCareers(ResetCareers(s)) == ResetCareers(s)
    ensures ResetProfiles(ResetProfiles(s)) == ResetProfiles(s)
  {
  }

  // ---------------------------------------------------------------------------
  // The official subtype table

  /** `getTypeForSubtype`: the type of an official subtype, nothing for any other label. */
  function GetTypeForSubtype(subtypeMap: SubtypeMap, sub: string): (r: Option<RiasecType>)
    ensures r.Some? <==> sub in subtypeMap
    ensures r.Some? ==> r.value == subtypeMap[sub]
  {
    if sub in subtypeMap then Some(subtypeMap[sub]) else None
  }

  /** `ALL_SUBTYPES = Object.keys(subtypeTypeMap)`: every official subtype
      once, in the table's enumeration order (left open here). */
  method AllSubtypes(subtypeMap: SubtypeMap) returns (keys: seq<string>)
    ensures forall k :: k in keys <==> k in subtypeMap
    ensures Distinct(keys)
    ensures |keys| == |subtypeMap|
    ensures forall k | k in keys :: GetTypeForSubtype(subtypeMap, k) == Some(subtypeMap[k])
  {
    keys := [];
    var rest := subtypeMap.Keys;
    while rest != {}
      invariant forall k :: k in subtypeMap <==> k in rest || k in keys
      invariant forall k | k in keys :: k !in rest
      invariant Distinct(keys)
      invariant |keys| + |rest| == |subtypeMap|
      decreases |rest|
    {
      var k :| k in rest;
      keys := keys + [k];
      rest := rest - {k};
    }
  }
}
