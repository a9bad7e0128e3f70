/** The subtype dialog of the results screen (src/components/SubtypeModal.tsx):
    the type's total over its subtypes, the two-digit badge, and which
    subtype chips are lit. */
module SubtypeModal {
  import opened Wrappers
  import opened Seqs
  import opened Text
  import opened QuizQuestions

  /** A subtype chip: its subtype, its count, and whether it is drawn filled. */
  datatype Chip = Chip(subtype: string, count: int, active: bool)

  /** What the dialog shows for one type. */
  datatype ModalView = ModalView(name: string, badge: string, total: int, chips: seq<Chip>)

  /** `subtypeScores[sub] || 0`. */
  function ScoreOf(scores: map<string, int>, sub: string): int {
    GetOrZero(scores, sub)
  }

  /** `totalScore`: the counts of the profile's subtypes added up, a missing
      subtype counting zero. */
  function TotalScore(subdivisions: seq<string>, scores: map<string, int>): int {
    SumOf(subdivisions, (sub: string) => ScoreOf(scores, sub))
  }

  /** Only the profile's own subtypes enter the total: two score tables that
      agree on them give the same total, whatever else they hold. */
  lemma {:induction false} TotalIgnoresOtherLabels(subdivisions: seq<string>, scores: map<string, int>, other: map<string, int>)
    requires forall sub | sub in subdivisions :: ScoreOf(scores, sub) == ScoreOf(other, sub)
    ensures TotalScore(subdivisions, scores) == TotalScore(subdivisions, other)
  {
    if subdivisions != [] {
      assert forall sub | sub in subdivisions[1..] :: sub in subdivisions;
      TotalIgnoresOtherLabels(subdivisions[1..], scores, other);
    }
  }

  /** The chips, one per subtype in profile order; a chip is lit exactly
      when its count is positive. */
  function Chips(subdivisions: seq<string>, scores: map<string, int>): (r: seq<Chip>)
    ensures |r| == |subdivisions|
    ensures forall k | 0 <= k < |r| :: r[k].subtype == subdivisions[k] && r[k].count == ScoreOf(scores, subdivisions[k])
    ensures forall k | 0 <= k < |r| :: r[k].active <==> r[k].count > 0
  {
    Map((sub: string) => Chip(sub, ScoreOf(scores, sub), ScoreOf(scores, sub) > 0), subdivisions)
  }

  /** With non-negative counts the total is at least the number of lit chips,
      and it is zero exactly when no chip is lit. */
  lemma {:induction false} LitChipsAndTotal(subdivisions: seq<string>, scores: map<string, int>)
    requires forall sub | sub in subdivisions :: ScoreOf(scores, sub) >= 0
    ensures TotalScore(subdivisions, scores) >= Count(Chips(subdivisions, scores), (c: Chip) => c.active)
    ensures TotalScore(subdivisions, scores) == 0 <==> forall c | c in Chips(subdivisions, scores) :: !c.active
  {
    var chips := Chips(subdivisions, scores);
    CountPointwise(chips, (c: Chip) => c.active, subdivisions, (sub: string) => ScoreOf(scores, sub) > 0);
    SumAtLeastCount(subdivisions, (sub: string) => ScoreOf(scores, sub), (sub: string) => ScoreOf(scores, sub) > 0);
    if subdivisions != [] {
      assert forall sub | sub in subdivisions[1..] :: sub in subdivisions;
      LitChipsAndTotal(subdivisions[1..], scores);
      assert Chips(subdivisions[1..], scores) == chips[1..];
      assert forall c | c in chips[1..] :: c in chips;
      if forall c | c in chips :: !c.active {
        assert !chips[0].active;
      } else {
        var c :| c in chips && c.active;
        assert Count(chips, (c: Chip) => c.active) >= 1 by {
          assert c in Filter(chips, (c: Chip) => c.active);
        }
      }
    }
  }

  /** `String(totalScore).padStart(2, '0')`. */
  function Badge(total: int): (r: string)
    ensures |r| >= 2
    ensures 0 <= total < 10 ==> r == ['0', DigitChar(total)]
    ensures total >= 10 ==> r == Decimal(total)
  {
    DecimalLength(if total < 0 then -total else total);
    PadStart(DecimalInt(total), 2, '0')
  }

  /** A leading zero does not change the value of a digit string. */
  lemma {:induction false} LeadingZero(s: string)
    requires forall i | 0 <= i < |s| :: IsDigit(s[i])
    ensures ParseDecimal(['0'] + s) == ParseDecimal(s)
  {
    if s != [] {
      var z := ['0'] + s;
      assert z[..|z| - 1] == ['0'] + s[..|s| - 1];
      LeadingZero(s[..|s| - 1]);
    }
  }

  /** The badge of a non-negative total reads back as that total, so the
      padding only adds a leading zero to one-digit totals. */
  lemma BadgeReadsBack(total: nat)
    ensures forall i | 0 <= i < |Badge(total)| :: IsDigit(Badge(total)[i])
    ensures ParseDecimal(Badge(total)) == total
  {
    DecimalRoundTrip(total);
    if total < 10 {
      assert Badge(total) == ['0'] + Decimal(total);
      LeadingZero(Decimal(total));
    }
  }

  /** The badge of 7 is "07" and the badge of 12 is "12". */
  lemma BadgeExamples()
    ensures Badge(7) == "07"
    ensures Badge(12) == "12"
  {
    assert Decimal(12) == Decimal(1) + [DigitChar(2)];
  }

  /** The dialog: nothing when no type is selected; otherwise the type's
      name, its total over its own subtypes, the badge that reads back as
      that total, and one chip per subtype. */
  function View(t: Option<RiasecType>, profiles: ProfileTable, scores: map<string, int>): (r: Option<ModalView>)
    requires IsTotal(profiles)
    ensures r.None? <==> t.None?
    ensures r.Some? ==> && r.value.name == profiles[t.value].name
                        && r.value.total == TotalScore(profiles[t.value].subdivisions, scores)
                        && (r.value.total >= 0 ==> && (forall i | 0 <= i < |r.value.badge| :: IsDigit(r.value.badge[i]))
                                                   && ParseDecimal(r.value.badge) == r.value.total)
                        && |r.value.chips| == |profiles[t.value].subdivisions|
                        && r.value.chips == Chips(profiles[t.value].subdivisions, scores)
                        && r.value.badge == Badge(r.value.total)
  {
    match t
    case None => None
    case Some(t) =>
      var p := profiles[t];
      var total := TotalScore(p.subdivisions, scores);
      assert total >= 0 ==> ParseDecimal(Badge(total)) == total by {
        if total >= 0 {
          BadgeReadsBack(total);
        }
      }
      Some(ModalView(p.name, Badge(total), total, Chips(p.subdivisions, scores)))
  }
}
