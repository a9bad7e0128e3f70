/** The result screen's per-type folds over the answered questions and the
    choice of the dominant type (src/components/ResultsScreen.tsx). */
module ResultsScreen {
  import opened Seqs
  import opened Sorting
  import opened QuizQuestions

  /** The question shape the result screen reads: each side names the type it
      awards and the label it activates. */
  datatype ResultsQuestion = ResultsQuestion(
    id: int,
    yesType: RiasecType,
    noType: RiasecType,
    yesLabel: string,
    noLabel: string)

  /** A `Record<RiasecType, V>`: one value per type. */
  datatype PerType<V> = PerType(r: V, i: V, a: V, s: V, e: V, c: V) {
    /** The value recorded for `t`. */
    function Get(t: RiasecType): V {
      match t
      case R => r case I => i case A => a case S => s case E => e case C => c
    }

    /** The record with the value for `t` replaced and every other kept. */
    function With(t: RiasecType, v: V): (m: PerType<V>)
      ensures m.Get(t) == v
      ensures forall u: RiasecType | u != t :: m.Get(u) == Get(u)
    {
      match t
      case R => this.(r := v) case I => this.(i := v) case A => this.(a := v)
      case S => this.(s := v) case E => this.(e := v) case C => this.(c := v)
    }
  }

  /** Counters per type. */
  type Tally = PerType<nat>

  /** Label lists per type. */
  type LabelTable = PerType<seq<string>>

  /** Every counter at zero, as each fold starts. */
  const ZeroTally: Tally := PerType(0, 0, 0, 0, 0, 0)

  /** Every label list empty. */
  const NoLabels: LabelTable := PerType([], [], [], [], [], [])

  /** The sum of the six counters (the totals row). */
  function Total(m: Tally): nat {
    m.r + m.i + m.a + m.s + m.e + m.c
  }

  // ---------------------------------------------------------------------------
  // What one reply contributes

  /** The type a reply awards. */
  function Awarded(q: ResultsQuestion, a: Answer): RiasecType {
    if a == Yes then q.yesType else q.noType
  }

  /** The label a reply activates. */
  function ActivatedLabel(q: ResultsQuestion, a: Answer): string {
    if a == Yes then q.yesLabel else q.noLabel
  }

  /** The question is answered. */
  predicate Answered(q: ResultsQuestion, answers: Answers) {
    q.id in answers
  }

  /** The question is answered with `a`. */
  predicate AnsweredWith(q: ResultsQuestion, answers: Answers, a: Answer) {
    q.id in answers && answers[q.id] == a
  }

  /** The question is answered and its reply awards `t`. */
  predicate Awards(q: ResultsQuestion, answers: Answers, t: RiasecType) {
    q.id in answers && Awarded(q, answers[q.id]) == t
  }

  /** The question is answered yes and its yes side is of type `t`. */
  predicate YesFor(q: ResultsQuestion, answers: Answers, t: RiasecType) {
    AnsweredWith(q, answers, Yes) && q.yesType == t
  }

  /** The question is answered no and its no side is of type `t`. */
  predicate NoFor(q: ResultsQuestion, answers: Answers, t: RiasecType) {
    AnsweredWith(q, answers, No) && q.noType == t
  }

  /** The label of the chosen side; only read for answered questions. */
  function LabelOf(q: ResultsQuestion, answers: Answers): string {
    if q.id in answers then ActivatedLabel(q, answers[q.id]) else ""
  }

  /** One counter incremented. */
  function Bump(m: Tally, t: RiasecType): (r: Tally)
    ensures r.Get(t) == m.Get(t) + 1
    ensures forall u: RiasecType | u != t :: r.Get(u) == m.Get(u)
    ensures Total(r) == Total(m) + 1
  {
    m.With(t, m.Get(t) + 1)
  }

  // ---------------------------------------------------------------------------
  // calculateScores

  /** The `forEach` of `calculateScores`, continuing from the counters `acc`:
      each counter grows by the number of questions whose reply awards it. */
  function ScoresFrom(acc: Tally, qs: seq<ResultsQuestion>, answers: Answers): (r: Tally)
    decreases qs
    ensures forall t: RiasecType :: r.Get(t) == acc.Get(t) + Count(qs, (q: ResultsQuestion) => Awards(q, answers, t))
  {
    if qs == [] then acc
    else
      var q := qs[0];
      var next := if q.id in answers then Bump(acc, Awarded(q, answers[q.id])) else acc;
      ScoresFrom(next, qs[1..], answers)
  }

  /** The score of each type: the number of questions whose reply awards it. */
  function CalculateScores(qs: seq<ResultsQuestion>, answers: Answers): (r: Tally)
    ensures forall t: RiasecType :: r.Get(t) == Count(qs, (q: ResultsQuestion) => Awards(q, answers, t))
  {
    ScoresFrom(ZeroTally, qs, answers)
  }

  /** Every answered question adds exactly one point in all. */
  lemma {:induction false} ScoresFromTotal(acc: Tally, qs: seq<ResultsQuestion>, answers: Answers)
    decreases qs
    ensures Total(ScoresFrom(acc, qs, answers)) == Total(acc) + Count(qs, (q: ResultsQuestion) => Answered(q, answers))
  {
    if qs != [] {
      var q := qs[0];
      var next := if q.id in answers then Bump(acc, Awarded(q, answers[q.id])) else acc;
      ScoresFromTotal(next, qs[1..], answers);
    }
  }

  /** The six scores add up to the number of answered questions. */
  lemma ScoresTotal(qs: seq<ResultsQuestion>, answers: Answers)
    ensures Total(CalculateScores(qs, answers)) == Count(qs, (q: ResultsQuestion) => Answered(q, answers))
  {
    ScoresFromTotal(ZeroTally, qs, answers);
  }

  // ---------------------------------------------------------------------------
  // calculateSimNao

  /** The `forEach` of `calculateSimNao`, continuing from `sim` and `nao`. */
  function SimNaoFrom(sim: Tally, nao: Tally, qs: seq<ResultsQuestion>, answers: Answers): (r: (Tally, Tally))
    decreases qs
    ensures forall t: RiasecType :: r.0.Get(t) == sim.Get(t) + Count(qs, (q: ResultsQuestion) => YesFor(q, answers, t))
    ensures forall t: RiasecType :: r.1.Get(t) == nao.Get(t) + Count(qs, (q: ResultsQuestion) => NoFor(q, answers, t))
  {
    if qs == [] then (sim, nao)
    else
      var q := qs[0];
      if AnsweredWith(q, answers, Yes) then SimNaoFrom(Bump(sim, q.yesType), nao, qs[1..], answers)
      else if AnsweredWith(q, answers, No) then SimNaoFrom(sim, Bump(nao, q.noType), qs[1..], answers)
      else SimNaoFrom(sim, nao, qs[1..], answers)
  }

  /** Per type, the points won by yes replies and by no replies. */
  function CalculateSimNao(qs: seq<ResultsQuestion>, answers: Answers): (r: (Tally, Tally))
    ensures forall t: RiasecType :: r.0.Get(t) == Count(qs, (q: ResultsQuestion) => YesFor(q, answers, t))
    ensures forall t: RiasecType :: r.1.Get(t) == Count(qs, (q: ResultsQuestion) => NoFor(q, answers, t))
  {
    SimNaoFrom(ZeroTally, ZeroTally, qs, answers)
  }

  /** The yes and no columns add up to the score column, type by type. */
  lemma SimNaoSplitScores(qs: seq<ResultsQuestion>, answers: Answers)
    ensures forall t: RiasecType :: CalculateSimNao(qs, answers).0.Get(t) + CalculateSimNao(qs, answers).1.Get(t)
                                  == CalculateScores(qs, answers).Get(t)
  {
    forall t: RiasecType
      ensures CalculateSimNao(qs, answers).0.Get(t) + CalculateSimNao(qs, answers).1.Get(t)
           == CalculateScores(qs, answers).Get(t)
    {
      CountSplit(qs, (q: ResultsQuestion) => Awards(q, answers, t),
                 (q: ResultsQuestion) => YesFor(q, answers, t), (q: ResultsQuestion) => NoFor(q, answers, t));
    }
  }

  /** The yes column totals the yes replies and the no column the no replies. */
  lemma {:induction false} SimNaoFromTotals(sim: Tally, nao: Tally, qs: seq<ResultsQuestion>, answers: Answers)
    decreases qs
    ensures Total(SimNaoFrom(sim, nao, qs, answers).0) == Total(sim) + Count(qs, (q: ResultsQuestion) => AnsweredWith(q, answers, Yes))
    ensures Total(SimNaoFrom(sim, nao, qs, answers).1) == Total(nao) + Count(qs, (q: ResultsQuestion) => AnsweredWith(q, answers, No))
  {
    if qs != [] {
      var q := qs[0];
      if AnsweredWith(q, answers, Yes) {
        SimNaoFromTotals(Bump(sim, q.yesType), nao, qs[1..], answers);
      } else if AnsweredWith(q, answers, No) {
        SimNaoFromTotals(sim, Bump(nao, q.noType), qs[1..], answers);
      } else {
        SimNaoFromTotals(sim, nao, qs[1..], answers);
      }
    }
  }

  /** The totals row: sim totals the yes replies, nao the no replies. */
  lemma SimNaoTotals(qs: seq<ResultsQuestion>, answers: Answers)
    ensures Total(CalculateSimNao(qs, answers).0) == Count(qs, (q: ResultsQuestion) => AnsweredWith(q, answers, Yes))
    ensures Total(CalculateSimNao(qs, answers).1) == Count(qs, (q: ResultsQuestion) => AnsweredWith(q, answers, No))
  {
    SimNaoFromTotals(ZeroTally, ZeroTally, qs, answers);
  }

  // ---------------------------------------------------------------------------
  // getActivatedLabels

  /** The `forEach` of `getActivatedLabels`, continuing from `acc`: each list
      is extended by the labels of the questions awarding its type, in order. */
  function LabelsFrom(acc: LabelTable, qs: seq<ResultsQuestion>, answers: Answers): (r: LabelTable)
    decreases qs
    ensures forall t: RiasecType :: r.Get(t) == acc.Get(t) + Map((q: ResultsQuestion) => LabelOf(q, answers),
                                                         Filter(qs, (q: ResultsQuestion) => Awards(q, answers, t)))
  {
    if qs == [] then acc
    else
      var q := qs[0];
      var next := if q.id in answers then
                    var t := Awarded(q, answers[q.id]);
                    acc.With(t, acc.Get(t) + [ActivatedLabel(q, answers[q.id])])
                  else acc;
      LabelsFrom(next, qs[1..], answers)
  }

  /** Per type, the activated labels in question order. */
  function GetActivatedLabels(qs: seq<ResultsQuestion>, answers: Answers): (r: LabelTable)
    ensures forall t: RiasecType :: r.Get(t) == Map((q: ResultsQuestion) => LabelOf(q, answers),
                                                Filter(qs, (q: ResultsQuestion) => Awards(q, answers, t)))
  {
    LabelsFrom(NoLabels, qs, answers)
  }

  /** Each type lists exactly as many labels as it scored. */
  lemma LabelsMatchScores(qs: seq<ResultsQuestion>, answers: Answers)
    ensures forall t: RiasecType :: |GetActivatedLabels(qs, answers).Get(t)| == CalculateScores(qs, answers).Get(t)
  {
  }

  // ---------------------------------------------------------------------------
  // The dominant type

  /** `Object.entries(scores)`: (type, score) in R, I, A, S, E, C order. */
  function Entries(m: Tally): (r: seq<(RiasecType, nat)>)
    ensures |r| == 6
    ensures forall k | 0 <= k < 6 :: r[k] == (AllTypes[k], m.Get(AllTypes[k]))
  {
    [(R, m.Get(R)), (I, m.Get(I)), (A, m.Get(A)), (S, m.Get(S)), (E, m.Get(E)), (C, m.Get(C))]
  }

  /** The order a stable sort by descending score leaves the entries in:
      higher score first, ties in their original type order. */
  predicate Before(x: (RiasecType, nat), y: (RiasecType, nat)) {
    x.1 > y.1 || (x.1 == y.1 && TypeIndex(x.0) < TypeIndex(y.0))
  }

  /** `sorted`. */
  function SortedEntries(m: Tally): (r: seq<(RiasecType, nat)>)
    ensures |r| == 6
    ensures multiset(r) == multiset(Entries(m))
  {
    Sort(Entries(m), Before)
  }

  /** `sorted[0][0]`: the type of the first sorted entry, which carries that type's score. */
  function DominantType(m: Tally): (t: RiasecType)
    ensures SortedEntries(m)[0] == (t, m.Get(t))
  {
    EntriesKeepScores(m);
    SortedEntries(m)[0].0
  }

  /** `Before` is a strict total order on entries that differ in their type. */
  lemma BeforeStrictTotal(s: seq<(RiasecType, nat)>)
    requires forall i, j | 0 <= i < j < |s| :: s[i].0 != s[j].0
    ensures StrictTotalOn(s, Before)
  {
    forall x, y | x in s && y in s && x != y
      ensures Before(x, y) || Before(y, x)
    {
      var i :| 0 <= i < |s| && s[i] == x;
      var j :| 0 <= j < |s| && s[j] == y;
      if i < j {
        assert x.0 != y.0;
      } else {
        assert y.0 != x.0;
      }
      assert AllTypes[TypeIndex(x.0)] != AllTypes[TypeIndex(y.0)];
    }
  }

  /** Scores never increase along `r`, and equal scores appear in type order. */
  predicate ScoreOrdered(r: seq<(RiasecType, nat)>) {
    && (forall i, j | 0 <= i < j < |r| :: r[i].1 >= r[j].1)
    && (forall i, j | 0 <= i < j < |r| && r[i].1 == r[j].1 :: TypeIndex(r[i].0) < TypeIndex(r[j].0))
  }

  /** Where `Before` is a strict total order, sorting by it yields score order. */
  lemma SortedScoreOrdered(s: seq<(RiasecType, nat)>)
    requires StrictTotalOn(s, Before) && Distinct(s)
    ensures ScoreOrdered(Sort(s, Before))
  {
    SortSorted(s, Before);
    ScoreOrderedWhenSorted(Sort(s, Before));
  }

  /** A sequence sorted by `Before` is in score order. */
  lemma ScoreOrderedWhenSorted(r: seq<(RiasecType, nat)>)
    requires SortedBy(r, Before)
    ensures ScoreOrdered(r)
  {
    forall i, j | 0 <= i < j < |r|
      ensures r[i].1 >= r[j].1
      ensures r[i].1 == r[j].1 ==> TypeIndex(r[i].0) < TypeIndex(r[j].0)
    {
      assert Before(r[i], r[j]);
    }
  }

  /** Entries with pairwise different types are pairwise different. */
  lemma TypesDifferDistinct(s: seq<(RiasecType, nat)>)
    requires forall i, j | 0 <= i < j < |s| :: s[i].0 != s[j].0
    ensures Distinct(s)
  {
    forall i, j | 0 <= i < j < |s|
      ensures s[i] != s[j]
    {
      assert s[i].0 != s[j].0;
    }
  }

  /** The six entries name six different types. */
  lemma EntriesTypesDiffer(m: Tally)
    ensures forall i, j | 0 <= i < j < |Entries(m)| :: Entries(m)[i].0 != Entries(m)[j].0
  {
    var es := Entries(m);
    forall i, j | 0 <= i < j < |es|
      ensures es[i].0 != es[j].0
    {
      assert es[i].0 == AllTypes[i] && es[j].0 == AllTypes[j];
    }
  }

  /** `sorted` rearranges the six entries into non-increasing score order,
      keeping equal scores in type order; each entry still carries its
      type's score. */
  lemma SortedEntriesOrder(m: Tally)
    ensures multiset(SortedEntries(m)) == multiset(Entries(m))
    ensures |SortedEntries(m)| == 6
    ensures forall i, j | 0 <= i < j < 6 :: SortedEntries(m)[i].1 >= SortedEntries(m)[j].1
    ensures forall i, j | 0 <= i < j < 6 && SortedEntries(m)[i].1 == SortedEntries(m)[j].1 ::
              TypeIndex(SortedEntries(m)[i].0) < TypeIndex(SortedEntries(m)[j].0)
    ensures forall k | 0 <= k < 6 :: SortedEntries(m)[k].1 == m.Get(SortedEntries(m)[k].0)
  {
    SortedEntriesByScore(m);
    EntriesKeepScores(m);
  }

  /** The sorted entries have non-increasing scores, equal scores in type order. */
  lemma SortedEntriesByScore(m: Tally)
    ensures |SortedEntries(m)| == 6
    ensures ScoreOrdered(SortedEntries(m))
  {
    var es := Entries(m);
    EntriesTypesDiffer(m);
    BeforeStrictTotal(es);
    TypesDifferDistinct(es);
    SortedScoreOrdered(es);
  }

  /** Every sorted entry pairs a type with that type's score. */
  lemma EntriesKeepScores(m: Tally)
    ensures forall k | 0 <= k < |SortedEntries(m)| :: SortedEntries(m)[k].1 == m.Get(SortedEntries(m)[k].0)
  {
    var es := Entries(m);
    var r := SortedEntries(m);
    forall k | 0 <= k < |r|
      ensures r[k].1 == m.Get(r[k].0)
    {
      assert r[k] in multiset(es);
      var n :| 0 <= n < 6 && es[n] == r[k];
    }
  }

  /** The dominant type has the highest score, and among the types sharing
      it, the earliest in R, I, A, S, E, C order. */
  lemma DominantTypeIsFirstMaximum(m: Tally)
    ensures forall t: RiasecType :: m.Get(t) <= m.Get(DominantType(m))
    ensures forall t: RiasecType :: m.Get(t) == m.Get(DominantType(m)) ==> TypeIndex(DominantType(m)) <= TypeIndex(t)
  {
    SortedEntriesOrder(m);
    var r := SortedEntries(m);
    var es := Entries(m);
    forall t: RiasecType
      ensures m.Get(t) <= r[0].1
      ensures m.Get(t) == r[0].1 ==> TypeIndex(r[0].0) <= TypeIndex(t)
    {
      assert es[TypeIndex(t)] == (t, m.Get(t));
      assert (t, m.Get(t)) in multiset(r);
      var k :| 0 <= k < 6 && r[k] == (t, m.Get(t));
    }
  }
}
