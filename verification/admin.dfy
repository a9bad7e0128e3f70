/** The administration screens (src/pages/Admin.tsx): the three edit
    validators and what a save does to the store, the two list filters, and
    the count tables shown beside the lists. */
module Admin {
  import opened Wrappers
  import opened Seqs
  import opened Sorting
  import opened Text
  import opened QuizQuestions
  import opened CareerDetails
  import opened CatalogueChecks
  import opened AdminData

  /** Why a save was refused (the message of the error toast). */
  datatype EditError =
    | EmptyText
    | InvalidSubtype
    | EmptyName
    | NotFourDistinct
    | UnknownSubtype(subtype: string)
    | EmptySubtype
    | NotTenUnique
    {
      function Message(): string {
        match this
        case EmptyText => "Texto não pode ficar vazio"
        case InvalidSubtype => "Subtipo inválido"
        case EmptyName => "Nome não pode ficar vazio"
        case NotFourDistinct => "4 subtipos sem duplicatas"
        case UnknownSubtype(s) => "Subtipo inválido: " + s
        case EmptySubtype => "Nenhum subtipo pode ficar vazio"
        case NotTenUnique => "10 subtipos únicos necessários"
      }
    }

  /** One letter is one type. */
  lemma LetterInjective(a: RiasecType, b: RiasecType)
    ensures Letter(a) == Letter(b) <==> a == b
  {
  }

  // ---------------------------------------------------------------------------
  // Question edits

  /** The fields of the question edit form. */
  datatype QuestionEdit = QuestionEdit(text: string, yesSub: string, noSub: string)

  /** Each side's subtype is official and the side awards that subtype's type. */
  predicate SidesMatchSubtypes(q: Question, subtypeMap: SubtypeMap) {
    && q.yesSub.Some? && q.yesSub.value in subtypeMap && subtypeMap[q.yesSub.value] == q.yesType
    && q.noSub.Some? && q.noSub.value in subtypeMap && subtypeMap[q.noSub.value] == q.noType
  }

  /** `saveEdit` of the questions tab: the question as saved, or why not. */
  function SaveQuestionEdit(q: Question, edit: QuestionEdit, subtypeMap: SubtypeMap): (r: Result<Question, EditError>)
    ensures r.Success? <==> Trim(edit.text) != "" && edit.yesSub in subtypeMap && edit.noSub in subtypeMap
    ensures r.Failure? ==> (r.error == EmptyText <==> Trim(edit.text) == "")
    ensures r.Success? ==> && r.value.id == q.id
                           && r.value.text == Trim(edit.text)
                           && r.value.yesSub == Some(edit.yesSub) && r.value.noSub == Some(edit.noSub)
                           && SidesMatchSubtypes(r.value, subtypeMap)
  {
    if Trim(edit.text) == "" then Failure(EmptyText)
    else
      match (GetTypeForSubtype(subtypeMap, edit.yesSub), GetTypeForSubtype(subtypeMap, edit.noSub))
      case (Some(yesType), Some(noType)) =>
        Success(q.(text := Trim(edit.text), yesSub := Some(edit.yesSub), noSub := Some(edit.noSub),
                   yesType := yesType, noType := noType))
      case _ => Failure(InvalidSubtype)
  }

  /** The save never checks that the two sides differ: picking two subtypes
      of the same type stores a question that awards that type either way. */
  lemma QuestionEditAllowsOneSidedQuestion(q: Question)
    ensures var subtypeMap := map["PRATICIDADE" := R, "FERRAMENTAS" := R];
            var r := SaveQuestionEdit(q, QuestionEdit("Pergunta", "PRATICIDADE", "FERRAMENTAS"), subtypeMap);
            r.Success? && r.value.yesType == r.value.noType && !WellShaped(r.value)
  {
    var subtypeMap := map["PRATICIDADE" := R, "FERRAMENTAS" := R];
    var r := SaveQuestionEdit(q, QuestionEdit("Pergunta", "PRATICIDADE", "FERRAMENTAS"), subtypeMap);
    assert Trim("Pergunta") != "" by {
      assert !IsWhiteSpace("Pergunta"[0]);
    }
    assert r.value.yesType == R && r.value.noType == R;
  }

  /** Saving from the questions tab: on success the first question with the
      edited question's id (`findIndex`) is replaced; otherwise nothing changes. */
  function ApplyQuestionEdit(s: Store, q: Question, edit: QuestionEdit, subtypeMap: SubtypeMap): (r: Store)
    ensures r.careers == s.careers && r.profiles == s.profiles
    ensures |r.questions| == |s.questions|
    ensures SaveQuestionEdit(q, edit, subtypeMap).Failure? ==> r == s
    ensures (forall j | 0 <= j < |s.questions| :: s.questions[j].id != q.id) ==> r == s
    ensures forall j | 0 <= j < |s.questions| && r.questions[j] != s.questions[j] ::
              s.questions[j].id == q.id && r.questions[j] == SaveQuestionEdit(q, edit, subtypeMap).value
  {
    match SaveQuestionEdit(q, edit, subtypeMap)
    case Failure(_) => s
    case Success(saved) =>
      match FirstIndex(s.questions, (x: Question) => x.id == q.id)
      case None => s
      case Some(i) => UpdateQuestion(s, i, saved)
  }

  /** A refused question edit leaves the store as it was; an accepted one on
      a bank with distinct ids replaces exactly the edited question. */
  lemma QuestionEditEffect(s: Store, i: nat, edit: QuestionEdit, subtypeMap: SubtypeMap)
    requires i < |s.questions|
    requires forall j, k | 0 <= j < k < |s.questions| :: s.questions[j].id != s.questions[k].id
    ensures var q := s.questions[i];
            var r := ApplyQuestionEdit(s, q, edit, subtypeMap);
            && (SaveQuestionEdit(q, edit, subtypeMap).Failure? ==> r == s)
            && (SaveQuestionEdit(q, edit, subtypeMap).Success? ==>
                  r == UpdateQuestion(s, i, SaveQuestionEdit(q, edit, subtypeMap).value))
  {
    var q := s.questions[i];
    var found := FirstIndex(s.questions, (x: Question) => x.id == q.id);
    assert found.Some?;
    assert found.value == i;
  }

  // ---------------------------------------------------------------------------
  // Career edits

  /** The fields of the career edit form; `subs` holds the slot labels. */
  datatype CareerEdit = CareerEdit(name: string, description: string, strengths: string, weaknesses: string,
                                   riasecType: RiasecType, subs: seq<string>)

  /** `saveEdit` of the careers tab: the career as saved, or why not. */
  function SaveCareerEdit(edit: CareerEdit, subtypeMap: SubtypeMap): (r: Result<CareerDetail, EditError>)
    ensures r.Success? <==> && Trim(edit.name) != ""
                            && |Elements(edit.subs)| == 4
                            && forall s | s in edit.subs :: s in subtypeMap
    ensures r.Success? ==> && r.value.name == Trim(edit.name)
                           && r.value.description == Trim(edit.description)
                           && r.value.strengths == Trim(edit.strengths)
                           && r.value.weaknesses == Trim(edit.weaknesses)
                           && r.value.riasecType == edit.riasecType
                           && |r.value.relatedSubtypes| == |edit.subs|
                           && (forall k | 0 <= k < |edit.subs| :: r.value.relatedSubtypes[k].subtype == edit.subs[k])
                           && (forall s | s in r.value.relatedSubtypes :: s.subtype in subtypeMap && s.riasecType == subtypeMap[s.subtype])
    ensures r.Failure? ==> (r.error == EmptyName <==> Trim(edit.name) == "")
    ensures r.Success? ==> r.value == EditedCareer(edit, subtypeMap)
  {
    if Trim(edit.name) == "" then Failure(EmptyName)
    else if |Elements(edit.subs)| != 4 then Failure(NotFourDistinct)
    else
      var unknown := Filter(edit.subs, (s: string) => s !in subtypeMap);
      if unknown != [] then
        assert unknown[0] in edit.subs;
        Failure(UnknownSubtype(unknown[0]))
      else
        Success(EditedCareer(edit, subtypeMap))
  }

  /** The career a valid edit stores: trimmed texts, the chosen type, and each
      slot label paired with its official type. */
  function EditedCareer(edit: CareerEdit, subtypeMap: SubtypeMap): (c: CareerDetail)
    requires forall s | s in edit.subs :: s in subtypeMap
    ensures c.name == Trim(edit.name) && c.riasecType == edit.riasecType
    ensures c.description == Trim(edit.description) && c.strengths == Trim(edit.strengths)
            && c.weaknesses == Trim(edit.weaknesses)
    ensures |c.relatedSubtypes| == |edit.subs|
    ensures forall k | 0 <= k < |edit.subs| :: c.relatedSubtypes[k].subtype == edit.subs[k]
    ensures forall s | s in c.relatedSubtypes :: s.subtype in subtypeMap && s.riasecType == subtypeMap[s.subtype]
  {
    CareerDetail(
      Trim(edit.name), edit.riasecType, Trim(edit.description), Trim(edit.strengths), Trim(edit.weaknesses),
      seq(|edit.subs|, k requires 0 <= k < |edit.subs| => RelatedSubtype(edit.subs[k], subtypeMap[edit.subs[k]])))
  }

  /** A saved career lists the edited slot labels, in order. */
  lemma SavedCareerLabels(edit: CareerEdit, subtypeMap: SubtypeMap)
    requires SaveCareerEdit(edit, subtypeMap).Success?
    ensures Labels(SaveCareerEdit(edit, subtypeMap).value) == edit.subs
  {
  }

  /** A career whose four labels are four different official subtypes
      passes the catalogue's slot rules. */
  lemma FourDifferentOfficialLabels(c: CareerDetail, subtypeMap: SubtypeMap)
    requires |Labels(c)| == 4 && |Elements(Labels(c))| == 4
    requires forall s | s in c.relatedSubtypes :: s.subtype in subtypeMap
    ensures Distinct(Labels(c)) && AllOfficial([c], subtypeMap) && NoDuplicateLabels([c])
  {
    ElementsSize(Labels(c));
    assert forall d | d in [c] :: d == c;
    DuplicateReportsEmpty([c]);
  }

  /** A career saved through the four slot selectors passes the catalogue's
      slot rules: four distinct labels, all official. */
  lemma SavedCareerPassesSlotRules(edit: CareerEdit, subtypeMap: SubtypeMap)
    requires SaveCareerEdit(edit, subtypeMap).Success?
    requires |edit.subs| == 4
    ensures var c := SaveCareerEdit(edit, subtypeMap).value;
            && |c.relatedSubtypes| == 4
            && Distinct(Labels(c))
            && AllOfficial([c], subtypeMap)
            && NoDuplicateLabels([c])
  {
    SavedCareerLabels(edit, subtypeMap);
    FourDifferentOfficialLabels(SaveCareerEdit(edit, subtypeMap).value, subtypeMap);
  }

  /** Saving from the careers tab at the edited career's index: refused edits
      leave the store as it was. */
  function ApplyCareerEdit(s: Store, index: nat, edit: CareerEdit, subtypeMap: SubtypeMap): (r: Store)
    requires index < |s.careers|
    ensures SaveCareerEdit(edit, subtypeMap).Failure? ==> r == s
    ensures SaveCareerEdit(edit, subtypeMap).Success? ==>
              && |r.careers| == |s.careers|
              && r.careers[index] == SaveCareerEdit(edit, subtypeMap).value
              && (forall j | 0 <= j < |s.careers| && j != index :: r.careers[j] == s.careers[j])
              && r.questions == s.questions && r.profiles == s.profiles
  {
    var saved := SaveCareerEdit(edit, subtypeMap);
    if saved.Failure? then s else UpdateCareer(s, index, saved.value)
  }

  // ---------------------------------------------------------------------------
  // Profile edits

  /** The fields of the type edit form. */
  datatype ProfileEdit = ProfileEdit(name: string, description: string, color: string, subdivisions: seq<string>)

  /** The first rule of the types tab's `saveEdit` an edit breaks: a blank
      name, a blank subtype, or not exactly ten different subtypes as typed. */
  function ProfileEditProblem(edit: ProfileEdit): (r: Option<EditError>)
    ensures r.None? <==> && Trim(edit.name) != ""
                         && (forall s | s in edit.subdivisions :: !AllWhiteSpace(s))
                         && |Elements(edit.subdivisions)| == 10
    ensures r == Some(EmptyName) <==> Trim(edit.name) == ""
  {
    var blank := Filter(edit.subdivisions, AllWhiteSpace);
    if Trim(edit.name) == "" then Some(EmptyName)
    else if blank != [] then
      assert blank[0] in edit.subdivisions;
      Some(EmptySubtype)
    else if |Elements(edit.subdivisions)| != 10 then Some(NotTenUnique)
    else None
  }

  /** How the types tab stores a subtype: trimmed and upper-cased. */
  function NormalizedSubtype(s: string): string {
    ToUpper(Trim(s))
  }

  /** The profile a valid edit stores: trimmed name and description, the
      colour as typed, upper-cased trimmed subtypes, the rest as before. */
  function EditedProfile(prev: RiasecProfile, edit: ProfileEdit): (p: RiasecProfile)
    ensures && p.riasecType == prev.riasecType
            && p.icon == prev.icon
            && p.careers == prev.careers
            && p.name == Trim(edit.name)
            && p.description == Trim(edit.description)
            && p.color == edit.color
            && |p.subdivisions| == |edit.subdivisions|
            && forall k | 0 <= k < |edit.subdivisions| :: p.subdivisions[k] == NormalizedSubtype(edit.subdivisions[k])
  {
    prev.(name := Trim(edit.name), description := Trim(edit.description), color := edit.color,
          subdivisions := Map(NormalizedSubtype, edit.subdivisions))
  }

  /** `saveEdit` of the types tab: the profile as saved, or why not. */
  function SaveProfileEdit(prev: RiasecProfile, edit: ProfileEdit): (r: Result<RiasecProfile, EditError>)
    ensures r.Success? <==> && Trim(edit.name) != ""
                            && (forall s | s in edit.subdivisions :: !AllWhiteSpace(s))
                            && |Elements(edit.subdivisions)| == 10
    ensures r.Success? ==> && r.value.riasecType == prev.riasecType
                           && r.value.icon == prev.icon
                           && r.value.careers == prev.careers
                           && r.value.name == Trim(edit.name)
                           && r.value.description == Trim(edit.description)
                           && r.value.color == edit.color
                           && |r.value.subdivisions| == |edit.subdivisions|
                           && forall k | 0 <= k < |edit.subdivisions| ::
                                r.value.subdivisions[k] == NormalizedSubtype(edit.subdivisions[k])
    ensures r.Failure? ==> Some(r.error) == ProfileEditProblem(edit)
    ensures r.Success? ==> r.value == EditedProfile(prev, edit)
  {
    match ProfileEditProblem(edit)
    case Some(e) => Failure(e)
    case None => Success(EditedProfile(prev, edit))
  }

  /** A one-character non-blank string trims to itself. */
  lemma TrimOneChar(c: char)
    requires !IsWhiteSpace(c)
    ensures Trim([c]) == [c]
  {
    assert LeadingWhiteSpace([c]) == 0;
    assert TrailingWhiteSpace([c]) == 0;
  }

  /** Ten subtypes as typed, two of which differ only in case. */
  const CaseVariantSubtypes: seq<string> := ["a", "A", "B", "C", "D", "E", "F", "G", "H", "I"]

  /** As typed, the ten subtypes are ten different strings. */
  lemma CaseVariantSubtypesDiffer()
    ensures |Elements(CaseVariantSubtypes)| == 10
  {
    assert Distinct(CaseVariantSubtypes) by {
      forall i, j | 0 <= i < j < |CaseVariantSubtypes|
        ensures CaseVariantSubtypes[i] != CaseVariantSubtypes[j]
      {
        assert CaseVariantSubtypes[i][0] != CaseVariantSubtypes[j][0];
      }
    }
    ElementsSize(CaseVariantSubtypes);
  }

  /** None of the ten subtypes is blank. */
  lemma CaseVariantSubtypesFilled()
    ensures forall s | s in CaseVariantSubtypes :: !AllWhiteSpace(s)
  {
    forall s | s in CaseVariantSubtypes
      ensures !AllWhiteSpace(s)
    {
      assert !IsWhiteSpace(s[0]);
    }
  }

  /** The first two subtypes are stored alike. */
  lemma CaseVariantSubtypesCollide()
    ensures NormalizedSubtype(CaseVariantSubtypes[0]) == NormalizedSubtype(CaseVariantSubtypes[1])
  {
    TrimOneChar('a');
    TrimOneChar('A');
  }

  /** With a name that is not blank, an edit typing those ten subtypes
      passes every rule. */
  lemma CaseVariantEditAccepted(prev: RiasecProfile, edit: ProfileEdit)
    requires Trim(edit.name) != "" && edit.subdivisions == CaseVariantSubtypes
    ensures SaveProfileEdit(prev, edit).Success?
  {
    CaseVariantSubtypesDiffer();
    CaseVariantSubtypesFilled();
  }

  /** Uniqueness is checked before trimming and upper-casing: "a" and "A"
      pass as two subtypes and are stored as the same one. */
  lemma ProfileEditMayStoreDuplicates(prev: RiasecProfile, edit: ProfileEdit)
    requires Trim(edit.name) != "" && edit.subdivisions == CaseVariantSubtypes
    ensures var r := SaveProfileEdit(prev, edit);
            r.Success? && r.value.subdivisions[0] == r.value.subdivisions[1]
  {
    CaseVariantEditAccepted(prev, edit);
    CaseVariantSubtypesCollide();
  }

  /** Saving from the types tab: refused edits leave the store as it was;
      accepted ones replace that type's profile only. */
  function ApplyProfileEdit(s: Store, t: RiasecType, edit: ProfileEdit): (r: Store)
    requires t in s.profiles
    ensures SaveProfileEdit(s.profiles[t], edit).Failure? ==> r == s
    ensures SaveProfileEdit(s.profiles[t], edit).Success? ==>
              && t in r.profiles && r.profiles[t] == SaveProfileEdit(s.profiles[t], edit).value
              && (forall u | u != t && u in s.profiles :: u in r.profiles && r.profiles[u] == s.profiles[u])
              && r.questions == s.questions && r.careers == s.careers
  {
    match SaveProfileEdit(s.profiles[t], edit)
    case Failure(_) => s
    case Success(p) => UpdateProfile(s, t, p)
  }

  // ---------------------------------------------------------------------------
  // List filters

  /** The pair label `${yesType}-${noType}` the pair filter compares with. */
  function PairLabel(q: Question): string {
    [Letter(q.yesType), '-', Letter(q.noType)]
  }

  /** A question is listed when the search is empty or found in its text
      (ignoring case) or its id, and the pair filter is "all" or its pair. */
  predicate QuestionListed(q: Question, search: string, filterPair: string) {
    && (search == "" || Contains(ToLower(q.text), ToLower(search)) || Contains(DecimalInt(q.id), search))
    && (filterPair == "all" || PairLabel(q) == filterPair)
  }

  /** The questions tab's `filtered`. */
  function FilterQuestions(qs: seq<Question>, search: string, filterPair: string): (r: seq<Question>)
    ensures |r| <= |qs|
    ensures forall q | q in r :: q in qs && QuestionListed(q, search, filterPair)
    ensures forall i | 0 <= i < |qs| && QuestionListed(qs[i], search, filterPair) :: qs[i] in r
  {
    Filter(qs, (q: Question) => QuestionListed(q, search, filterPair))
  }

  /** The filtered list holds each listed question as often as the bank does
      and nothing else; it keeps the bank's order, so a bank in id order
      stays in id order; with no search and "all" it is the whole bank. */
  lemma FilterQuestionsExact(qs: seq<Question>, search: string, filterPair: string)
    ensures forall q :: multiset(FilterQuestions(qs, search, filterPair))[q]
                        == if QuestionListed(q, search, filterPair) then multiset(qs)[q] else 0
    ensures SortedBy(qs, (a: Question, b: Question) => a.id < b.id) ==>
              SortedBy(FilterQuestions(qs, search, filterPair), (a: Question, b: Question) => a.id < b.id)
    ensures search == "" && filterPair == "all" ==> FilterQuestions(qs, search, filterPair) == qs
    ensures SubsequenceOf(FilterQuestions(qs, search, filterPair), qs)
  {
    FilterIsSubsequence(qs, (q: Question) => QuestionListed(q, search, filterPair));
    forall q {
      FilterMultiplicity(qs, (q: Question) => QuestionListed(q, search, filterPair), q);
    }
    if SortedBy(qs, (a: Question, b: Question) => a.id < b.id) {
      FilterSorted(qs, (q: Question) => QuestionListed(q, search, filterPair), (a: Question, b: Question) => a.id < b.id);
    }
    if search == "" && filterPair == "all" {
      FilterKeepsAll(qs, (q: Question) => QuestionListed(q, search, filterPair));
    }
  }

  /** With no search, the filter for the pair of types `a` and `b` (in that
      orientation) lists exactly the questions that ask `a` on yes and `b` on no. */
  lemma PairFilterSelectsOrientation(q: Question, a: RiasecType, b: RiasecType)
    ensures QuestionListed(q, "", [Letter(a), '-', Letter(b)]) <==> q.yesType == a && q.noType == b
  {
    LetterInjective(q.yesType, a);
    LetterInjective(q.noType, b);
    if QuestionListed(q, "", [Letter(a), '-', Letter(b)]) {
      assert PairLabel(q)[0] == Letter(a) && PairLabel(q)[2] == Letter(b);
    }
  }

  /** A career is listed when the search is empty or found in its name
      (ignoring case), and the type filter is "all" or its letter. */
  predicate CareerListed(c: CareerDetail, search: string, filterType: string) {
    && (search == "" || Contains(ToLower(c.name), ToLower(search)))
    && (filterType == "all" || [Letter(c.riasecType)] == filterType)
  }

  /** The careers tab's `filtered`. */
  function FilterCareers(cs: seq<CareerDetail>, search: string, filterType: string): (r: seq<CareerDetail>)
    ensures |r| <= |cs|
    ensures forall c | c in r :: c in cs && CareerListed(c, search, filterType)
    ensures forall i | 0 <= i < |cs| && CareerListed(cs[i], search, filterType) :: cs[i] in r
  {
    Filter(cs, (c: CareerDetail) => CareerListed(c, search, filterType))
  }

  /** The filtered careers are the listed ones, each as often as in the
      catalogue; with no search and "all" it is the whole catalogue; with no
      search and a type letter, it has as many entries as that type's count. */
  lemma FilterCareersExact(cs: seq<CareerDetail>, search: string, filterType: string)
    ensures forall c :: multiset(FilterCareers(cs, search, filterType))[c]
                        == if CareerListed(c, search, filterType) then multiset(cs)[c] else 0
    ensures search == "" && filterType == "all" ==> FilterCareers(cs, search, filterType) == cs
    ensures SubsequenceOf(FilterCareers(cs, search, filterType), cs)
  {
    FilterIsSubsequence(cs, (c: CareerDetail) => CareerListed(c, search, filterType));
    forall c {
      FilterMultiplicity(cs, (c: CareerDetail) => CareerListed(c, search, filterType), c);
    }
    if search == "" && filterType == "all" {
      FilterKeepsAll(cs, (c: CareerDetail) => CareerListed(c, search, filterType));
    }
  }

  // ---------------------------------------------------------------------------
  // Count tables

  /** The statistics key `${yesType} × ${noType}`. */
  function PairKey(q: Question): string {
    [Letter(q.yesType)] + " × " + [Letter(q.noType)]
  }

  /** `pairCounts`. */
  function PairCounts(qs: seq<Question>): (r: map<string, int>)
    ensures forall k :: k in r <==> exists q | q in qs :: PairKey(q) == k
    ensures forall k | k in r :: r[k] >= 1
  {
    var keys := Map(PairKey, qs);
    assert forall k :: k in keys <==> exists q | q in qs :: PairKey(q) == k by {
      forall k | k in keys
        ensures exists q | q in qs :: PairKey(q) == k
      {
        var i :| 0 <= i < |keys| && keys[i] == k;
        assert qs[i] in qs;
      }
      forall q | q in qs
        ensures PairKey(q) in keys
      {
        var i :| 0 <= i < |qs| && qs[i] == q;
        assert keys[i] == PairKey(q);
      }
    }
    Histogram(keys)
  }

  /** Each row of the statistics table: the count under `X × Y` is the number
      of questions with yes-type X and no-type Y. */
  lemma PairCountsPerKey(qs: seq<Question>, a: RiasecType, b: RiasecType)
    ensures GetOrZero(PairCounts(qs), [Letter(a)] + " × " + [Letter(b)])
            == Count(qs, (q: Question) => q.yesType == a && q.noType == b)
  {
    var key := [Letter(a)] + " × " + [Letter(b)];
    forall q: Question
      ensures (q.yesType == a && q.noType == b) == (PairKey(q) == key)
    {
      LetterInjective(q.yesType, a);
      LetterInjective(q.noType, b);
      if PairKey(q) == key {
        assert PairKey(q)[0] == key[0] && PairKey(q)[4] == key[4];
      }
    }
    CountIsMultiplicity(qs, (q: Question) => q.yesType == a && q.noType == b, PairKey, key);
  }

  /** `careerTypeCounts`, keyed by type letter. */
  function CareerTypeCounts(cs: seq<CareerDetail>): (r: map<string, int>)
    ensures forall k :: k in r <==> exists c | c in cs :: [Letter(c.riasecType)] == k
    ensures forall k | k in r :: r[k] >= 1
  {
    var keys := Map((c: CareerDetail) => [Letter(c.riasecType)], cs);
    assert forall k :: k in keys <==> exists c | c in cs :: [Letter(c.riasecType)] == k by {
      forall k | k in keys
        ensures exists c | c in cs :: [Letter(c.riasecType)] == k
      {
        var i :| 0 <= i < |keys| && keys[i] == k;
        assert cs[i] in cs;
      }
      forall c | c in cs
        ensures [Letter(c.riasecType)] in keys
      {
        var i :| 0 <= i < |cs| && cs[i] == c;
        assert keys[i] == [Letter(c.riasecType)];
      }
    }
    Histogram(keys)
  }

  /** The key a question side is counted under: its subtype, or "undefined"
      when it has none (JavaScript's `obj[undefined]`). */
  function SubKey(sub: Option<string>): string {
    match sub
    case None => "undefined"
    case Some(s) => s
  }

  /** The keys the question-subtype table counts: yes side then no side, question by question. */
  function QuestionSubtypeKeys(qs: seq<Question>): (keys: seq<string>)
    ensures |keys| == 2 * |qs|
    ensures forall i | 0 <= i < |qs| :: SidesAt(keys, qs, i)
  {
    if qs == [] then []
    else
      var rest := QuestionSubtypeKeys(qs[1..]);
      var keys := [SubKey(qs[0].yesSub), SubKey(qs[0].noSub)] + rest;
      assert forall i | 1 <= i < |qs| :: SidesAt(keys, qs, i) by {
        forall i | 1 <= i < |qs|
          ensures SidesAt(keys, qs, i)
        {
          assert SidesAt(rest, qs[1..], i - 1);
          assert qs[i] == qs[1..][i - 1];
        }
      }
      keys
  }

  /** Keys `2 * i` and `2 * i + 1` are question `i`'s yes-side and no-side keys. */
  predicate SidesAt(keys: seq<string>, qs: seq<Question>, i: nat) {
    && i < |qs| && 2 * i + 1 < |keys|
    && keys[2 * i] == SubKey(qs[i].yesSub) && keys[2 * i + 1] == SubKey(qs[i].noSub)
  }

  /** `subtypeCounts` of the types tab. */
  function QuestionSubtypeCounts(qs: seq<Question>): (r: map<string, int>)
    ensures forall k :: k in r <==> exists q | q in qs :: SubKey(q.yesSub) == k || SubKey(q.noSub) == k
    ensures forall k | k in r :: r[k] >= 1
  {
    var keys := QuestionSubtypeKeys(qs);
    QuestionSubtypeKeysFrom(qs);
    Histogram(keys)
  }

  /** The keys are exactly the questions' side keys. */
  lemma QuestionSubtypeKeysFrom(qs: seq<Question>)
    ensures forall k :: k in QuestionSubtypeKeys(qs) <==> exists q | q in qs :: SubKey(q.yesSub) == k || SubKey(q.noSub) == k
  {
    var keys := QuestionSubtypeKeys(qs);
    forall k
      ensures k in keys <==> exists q | q in qs :: SubKey(q.yesSub) == k || SubKey(q.noSub) == k
    {
      if k in keys {
        var j :| 0 <= j < |keys| && keys[j] == k;
        var i := j / 2;
        assert SidesAt(keys, qs, i);
        assert j == 2 * i || j == 2 * i + 1;
        assert qs[i] in qs;
      }
      if q :| q in qs && (SubKey(q.yesSub) == k || SubKey(q.noSub) == k) {
        var i :| 0 <= i < |qs| && qs[i] == q;
        assert SidesAt(keys, qs, i);
        assert keys[2 * i] in keys && keys[2 * i + 1] in keys;
      }
    }
  }

  /** A key occurs among the question-subtype keys once per question whose
      yes side carries it and once per question whose no side carries it. */
  lemma {:induction false} QuestionSubtypeKeysMultiplicity(qs: seq<Question>, k: string,
                                                           yes: Question -> bool, no: Question -> bool)
    requires forall q | q in qs :: yes(q) == (SubKey(q.yesSub) == k) && no(q) == (SubKey(q.noSub) == k)
    ensures multiset(QuestionSubtypeKeys(qs))[k] == Count(qs, yes) + Count(qs, no)
  {
    if qs != [] {
      assert forall q | q in qs[1..] :: q in qs;
      QuestionSubtypeKeysMultiplicity(qs[1..], k, yes, no);
      var head := [SubKey(qs[0].yesSub), SubKey(qs[0].noSub)];
      var rest := QuestionSubtypeKeys(qs[1..]);
      assert QuestionSubtypeKeys(qs) == head + rest;
      assert multiset(head + rest)[k] == multiset(head)[k] + multiset(rest)[k];
      assert multiset(head)[k] == (if yes(qs[0]) then 1 else 0) + (if no(qs[0]) then 1 else 0);
      assert Count(qs, yes) == (if yes(qs[0]) then 1 else 0) + Count(qs[1..], yes);
      assert Count(qs, no) == (if no(qs[0]) then 1 else 0) + Count(qs[1..], no);
    }
  }

  /** The table shows, for each subtype, how many questions offer it on their
      yes side plus how many offer it on their no side; questions without a
      subtype are tallied under "undefined". */
  lemma QuestionSubtypeCountsPerKey(qs: seq<Question>, k: string)
    ensures GetOrZero(QuestionSubtypeCounts(qs), k)
            == Count(qs, (q: Question) => SubKey(q.yesSub) == k) + Count(qs, (q: Question) => SubKey(q.noSub) == k)
  {
    QuestionSubtypeKeysMultiplicity(qs, k, (q: Question) => SubKey(q.yesSub) == k, (q: Question) => SubKey(q.noSub) == k);
  }

  /** The labels of every career's slots, career by career. */
  function CareerSlotLabels(cs: seq<CareerDetail>): (keys: seq<string>)
    ensures |keys| == SlotCount(cs)
    ensures forall x :: x in keys <==> exists c | c in cs :: x in Labels(c)
  {
    if cs == [] then []
    else
      var rest := CareerSlotLabels(cs[1..]);
      assert forall c | c in cs :: c == cs[0] || c in cs[1..];
      Labels(cs[0]) + rest
  }

  /** The slot labels of two catalogues side by side are the first's labels followed by the second's. */
  lemma {:induction false} CareerSlotLabelsAppend(a: seq<CareerDetail>, b: seq<CareerDetail>)
    ensures CareerSlotLabels(a + b) == CareerSlotLabels(a) + CareerSlotLabels(b)
  {
    if a == [] {
      assert a + b == b;
    } else {
      assert (a + b)[1..] == a[1..] + b;
      CareerSlotLabelsAppend(a[1..], b);
    }
  }

  /** `careerSubtypeCounts` of the types tab. */
  function CareerSubtypeCounts(cs: seq<CareerDetail>): (r: map<string, int>)
    ensures forall k :: k in r <==> exists c | c in cs :: k in Labels(c)
    ensures forall k | k in r :: r[k] >= 1
  {
    Histogram(CareerSlotLabels(cs))
  }

  /** A label occurs among the slot labels as often as the careers' slots carry it, summed over the careers. */
  lemma {:induction false} CareerSlotLabelsMultiplicity(cs: seq<CareerDetail>, x: string, slots: CareerDetail -> int)
    requires forall c | c in cs :: slots(c) == multiset(Labels(c))[x]
    ensures multiset(CareerSlotLabels(cs))[x] == SumOf(cs, slots)
  {
    if cs != [] {
      assert forall c | c in cs[1..] :: c in cs;
      CareerSlotLabelsMultiplicity(cs[1..], x, slots);
      assert CareerSlotLabels(cs) == Labels(cs[0]) + CareerSlotLabels(cs[1..]);
      assert multiset(CareerSlotLabels(cs)) == multiset(Labels(cs[0])) + multiset(CareerSlotLabels(cs[1..]));
    }
  }

  /** The table shows, for each label, how many career slots carry it: a
      career listing the label twice counts twice. */
  lemma CareerSubtypeCountsPerLabel(cs: seq<CareerDetail>, x: string)
    ensures GetOrZero(CareerSubtypeCounts(cs), x) == SumOf(cs, (c: CareerDetail) => multiset(Labels(c))[x])
  {
    CareerSlotLabelsMultiplicity(cs, x, (c: CareerDetail) => multiset(Labels(c))[x]);
  }

  /** The count tables add up: one pair per question, one type per career,
      two subtype sides per question, and one label per career slot (four
      per career when every career has four slots). */
  lemma CountTablesTotals(qs: seq<Question>, cs: seq<CareerDetail>)
    ensures MapSum(PairCounts(qs)) == |qs|
    ensures MapSum(CareerTypeCounts(cs)) == |cs|
    ensures MapSum(QuestionSubtypeCounts(qs)) == 2 * |qs|
    ensures MapSum(CareerSubtypeCounts(cs)) == SlotCount(cs)
    ensures (forall c | c in cs :: |c.relatedSubtypes| == 4) ==> MapSum(CareerSubtypeCounts(cs)) == 4 * |cs|
  {
    HistogramTotal(Map(PairKey, qs));
    HistogramTotal(Map((c: CareerDetail) => [Letter(c.riasecType)], cs));
    HistogramTotal(QuestionSubtypeKeys(qs));
    HistogramTotal(CareerSlotLabels(cs));
    if forall c | c in cs :: |c.relatedSubtypes| == 4 {
      FourSlotsEach(cs);
    }
  }

  /** The per-type career count shown on each type card. */
  function CareersForType(cs: seq<CareerDetail>, t: RiasecType): (n: nat)
    ensures n == multiset(Map((c: CareerDetail) => c.riasecType, cs))[t]
    ensures n <= |cs|
  {
    CountIsMultiplicity(cs, (c: CareerDetail) => c.riasecType == t, (c: CareerDetail) => c.riasecType, t);
    Count(cs, (c: CareerDetail) => c.riasecType == t)
  }

  /** The per-type question count shown on each type card. */
  function QuestionsForType(qs: seq<Question>, t: RiasecType): (n: nat)
    ensures n <= |qs|
    ensures n == 0 <==> forall q | q in qs :: q.yesType != t && q.noType != t
    ensures n == Count(qs, (q: Question) => q.yesType == t) + Count(qs, (q: Question) => q.noType == t)
                 - Count(qs, (q: Question) => q.yesType == t && q.noType == t)
  {
    var asking := Filter(qs, (q: Question) => q.yesType == t || q.noType == t);
    assert asking != [] ==> asking[0] in asking;
    CountUnion(qs, (q: Question) => q.yesType == t || q.noType == t, (q: Question) => q.yesType == t,
               (q: Question) => q.noType == t, (q: Question) => q.yesType == t && q.noType == t);
    |asking|
  }

  /** The type card and the statistics table agree on each type's number of careers. */
  lemma CareersForTypeInTable(cs: seq<CareerDetail>, t: RiasecType)
    ensures CareersForType(cs, t) == GetOrZero(CareerTypeCounts(cs), [Letter(t)])
  {
    forall c: CareerDetail
      ensures (c.riasecType == t) == ([Letter(c.riasecType)] == [Letter(t)])
    {
      LetterInjective(c.riasecType, t);
      if [Letter(c.riasecType)] == [Letter(t)] {
        assert [Letter(c.riasecType)][0] == [Letter(t)][0];
      }
    }
    CountIsMultiplicity(cs, (c: CareerDetail) => c.riasecType == t, (c: CareerDetail) => [Letter(c.riasecType)], [Letter(t)]);
  }

  /** In a bank whose questions oppose two different types, a type's card
      counts the questions asking it on the yes side plus those asking it on
      the no side. */
  lemma QuestionsForTypeBySide(qs: seq<Question>, t: RiasecType)
    requires forall q | q in qs :: q.yesType != q.noType
    ensures QuestionsForType(qs, t) == Count(qs, (q: Question) => q.yesType == t) + Count(qs, (q: Question) => q.noType == t)
  {
    CountSplit(qs, (q: Question) => q.yesType == t || q.noType == t, (q: Question) => q.yesType == t, (q: Question) => q.noType == t);
  }
}
