/** The career matcher of the results screen (src/components/CareersTab.tsx):
    every catalogue career is scored against the per-(type, subtype) counts,
    ranked, bucketed by match level, and each bucket is cut to four entries
    with careers of the dominant type first. */
module CareersTab {
  import opened Seqs
  import opened Sorting
  import opened QuizQuestions
  import opened CareerDetails

  /** The four match levels, best first. */
  datatype MatchLevel = Excelente | Bom | Atencao | Refazer

  /** The level a number of matched subtypes earns. */
  function GetMatchLevel(matchCount: int): (r: MatchLevel)
    ensures r == Excelente <==> matchCount >= 4
    ensures r == Bom <==> matchCount == 3
    ensures r == Atencao <==> matchCount == 2
    ensures r == Refazer <==> matchCount <= 1
  {
    if matchCount >= 4 then Excelente
    else if matchCount == 3 then Bom
    else if matchCount == 2 then Atencao
    else Refazer
  }

  // ---------------------------------------------------------------------------
  // Scoring one career

  /** The key `${type}_${label}` under which a subtype's count is stored. */
  function CountKey(sub: RelatedSubtype): string {
    [Letter(sub.riasecType)] + "_" + sub.subtype
  }

  /** Different (type, label) pairs are stored under different keys. */
  lemma CountKeyInjective(a: RelatedSubtype, b: RelatedSubtype)
    requires CountKey(a) == CountKey(b)
    ensures a == b
  {
    assert CountKey(a)[0] == CountKey(b)[0];
    assert a.riasecType == b.riasecType by {
      match a.riasecType
      case R => {} case I => {} case A => {} case S => {} case E => {} case C => {}
    }
    assert a.subtype == CountKey(a)[2..] && b.subtype == CountKey(b)[2..];
  }

  /** The count of one related subtype, 0 when absent (`counts[key] || 0`). */
  function SubtypeCount(counts: map<string, int>, sub: RelatedSubtype): int {
    GetOrZero(counts, CountKey(sub))
  }

  /** A career with its scores, catalogue position and level. */
  datatype Scored = Scored(career: CareerDetail, matchCount: nat, subtypeSum: int, idx: nat, level: MatchLevel)

  /** The number of related subtypes with a positive count. */
  function MatchCount(c: CareerDetail, counts: map<string, int>): (n: nat)
    ensures n <= |c.relatedSubtypes|
  {
    Count(c.relatedSubtypes, (sub: RelatedSubtype) => SubtypeCount(counts, sub) > 0)
  }

  /** The match count is zero exactly when no related subtype was counted. */
  lemma MatchCountZero(c: CareerDetail, counts: map<string, int>)
    ensures MatchCount(c, counts) == 0 <==> forall sub | sub in c.relatedSubtypes :: SubtypeCount(counts, sub) <= 0
  {
    var matched := Filter(c.relatedSubtypes, (sub: RelatedSubtype) => SubtypeCount(counts, sub) > 0);
    if matched != [] {
      assert matched[0] in c.relatedSubtypes;
    }
  }

  /** The match count reaches the number of related subtypes exactly when
      every one of them was counted. */
  lemma MatchCountFull(c: CareerDetail, counts: map<string, int>)
    ensures MatchCount(c, counts) == |c.relatedSubtypes| <==> forall sub | sub in c.relatedSubtypes :: SubtypeCount(counts, sub) > 0
  {
    var rel := c.relatedSubtypes;
    if forall sub | sub in rel :: SubtypeCount(counts, sub) > 0 {
      FilterKeepsAll(rel, (sub: RelatedSubtype) => SubtypeCount(counts, sub) > 0);
    } else {
      var i :| 0 <= i < |rel| && SubtypeCount(counts, rel[i]) <= 0;
      FilterComplement(rel, (sub: RelatedSubtype) => SubtypeCount(counts, sub) > 0, (sub: RelatedSubtype) => !(SubtypeCount(counts, sub) > 0));
      assert rel[i] in Filter(rel, (sub: RelatedSubtype) => !(SubtypeCount(counts, sub) > 0));
    }
  }

  /** The sum of the related subtypes' counts. */
  function SubtypeSum(c: CareerDetail, counts: map<string, int>): (r: int)
    ensures (forall k | k in counts :: counts[k] >= 0) ==>
              r >= 0 && (r == 0 <==> forall sub | sub in c.relatedSubtypes :: SubtypeCount(counts, sub) == 0)
  {
    var f := (sub: RelatedSubtype) => SubtypeCount(counts, sub);
    if forall k | k in counts :: counts[k] >= 0 then
      SumZeroIff(c.relatedSubtypes, f);
      SumOf(c.relatedSubtypes, f)
    else
      SumOf(c.relatedSubtypes, f)
  }

  /** One entry of `scored`. */
  function Score(c: CareerDetail, idx: nat, counts: map<string, int>): Scored {
    var n := MatchCount(c, counts);
    Scored(c, n, SubtypeSum(c, counts), idx, GetMatchLevel(n))
  }

  /** With counts that are never negative, the sum of the matched counts is at
      least the number of matches. */
  lemma SumAtLeastMatches(c: CareerDetail, counts: map<string, int>)
    requires forall k | k in counts :: counts[k] >= 0
    ensures SubtypeSum(c, counts) >= MatchCount(c, counts)
  {
    SumAtLeastCount(c.relatedSubtypes, (sub: RelatedSubtype) => SubtypeCount(counts, sub),
                    (sub: RelatedSubtype) => SubtypeCount(counts, sub) > 0);
  }

  /** `careerDetails.map(...)`: every career scored, with its index. */
  function ScoreAll(careers: seq<CareerDetail>, counts: map<string, int>): (r: seq<Scored>)
    ensures |r| == |careers|
    ensures forall i | 0 <= i < |r| :: r[i].career == careers[i] && r[i].idx == i
    ensures forall i | 0 <= i < |r| :: r[i].matchCount == MatchCount(careers[i], counts)
                                      && r[i].subtypeSum == SubtypeSum(careers[i], counts)
    ensures forall i | 0 <= i < |r| :: r[i].level == GetMatchLevel(r[i].matchCount)
  {
    seq(|careers|, i requires 0 <= i < |careers| => Score(careers[i], i, counts))
  }

  // ---------------------------------------------------------------------------
  // Ranking

  /** The comparator: more matches first, then careers of the dominant type,
      then the larger subtype sum, then the earlier catalogue position. */
  predicate Outranks(x: Scored, y: Scored, dom: RiasecType) {
    if x.matchCount != y.matchCount then x.matchCount > y.matchCount
    else if (x.career.riasecType == dom) != (y.career.riasecType == dom) then x.career.riasecType == dom
    else if x.subtypeSum != y.subtypeSum then x.subtypeSum > y.subtypeSum
    else x.idx < y.idx
  }

  /** The comparator as a function value. */
  function RankOrder(dom: RiasecType): (Scored, Scored) -> bool {
    (x: Scored, y: Scored) => Outranks(x, y, dom)
  }

  /** `scored.sort(...)`. */
  function Ranked(scored: seq<Scored>, dom: RiasecType): (r: seq<Scored>)
    ensures multiset(r) == multiset(scored) && |r| == |scored|
    ensures IndexedApart(scored) && Distinct(scored) ==> SortedBy(r, RankOrder(dom))
  {
    if IndexedApart(scored) && Distinct(scored) then
      OutranksStrictTotal(scored, dom);
      SortSorted(scored, RankOrder(dom));
      Sort(scored, RankOrder(dom))
    else
      Sort(scored, RankOrder(dom))
  }

  /** Entries are told apart by their index. */
  predicate IndexedApart(s: seq<Scored>) {
    forall x, y | x in s && y in s && x.idx == y.idx :: x == y
  }

  /** The comparator is a strict total order on entries with distinct indices. */
  lemma OutranksStrictTotal(s: seq<Scored>, dom: RiasecType)
    requires IndexedApart(s)
    ensures StrictTotalOn(s, RankOrder(dom))
  {
  }

  /** The scored list has one entry per index. */
  lemma ScoreAllApart(careers: seq<CareerDetail>, counts: map<string, int>)
    ensures IndexedApart(ScoreAll(careers, counts))
    ensures Distinct(ScoreAll(careers, counts))
  {
    var s := ScoreAll(careers, counts);
    forall x, y | x in s && y in s && x.idx == y.idx
      ensures x == y
    {
      var i :| 0 <= i < |s| && s[i] == x;
      var j :| 0 <= j < |s| && s[j] == y;
    }
  }

  /** The ranking is a rearrangement of the scored careers in which each
      entry outranks every later one; being strictly ordered, it is the only
      such arrangement, whatever sort algorithm produces it. */
  lemma RankedOrder(careers: seq<CareerDetail>, counts: map<string, int>, dom: RiasecType)
    ensures multiset(Ranked(ScoreAll(careers, counts), dom)) == multiset(ScoreAll(careers, counts))
    ensures SortedBy(Ranked(ScoreAll(careers, counts), dom), RankOrder(dom))
    ensures forall other: seq<Scored> | multiset(other) == multiset(ScoreAll(careers, counts)) && SortedBy(other, RankOrder(dom)) ::
              other == Ranked(ScoreAll(careers, counts), dom)
  {
    var s := ScoreAll(careers, counts);
    ScoreAllApart(careers, counts);
    OutranksStrictTotal(s, dom);
    SortSorted(s, RankOrder(dom));
    var r := Ranked(s, dom);
    forall other: seq<Scored> | multiset(other) == multiset(s) && SortedBy(other, RankOrder(dom))
      ensures other == r
    {
      assert forall x | x in r :: x in multiset(s);
      StrictTotalOnSub(s, r, RankOrder(dom));
      SortedUnique(r, other, RankOrder(dom));
    }
  }

  // ---------------------------------------------------------------------------
  // Tiers

  /** `grouped[level]` before trimming: the ranked entries of that level, in order. */
  function Tier(ranked: seq<Scored>, level: MatchLevel): (r: seq<Scored>)
    ensures forall x | x in r :: x.level == level && x in ranked
    ensures forall i | 0 <= i < |ranked| && ranked[i].level == level :: ranked[i] in r
    ensures SubsequenceOf(r, ranked)
  {
    FilterIsSubsequence(ranked, (x: Scored) => x.level == level);
    Filter(ranked, (x: Scored) => x.level == level)
  }

  /** Each entry lands in exactly one tier, the one its level names, and each
      tier keeps the ranking's order. */
  lemma TiersPartition(ranked: seq<Scored>, dom: RiasecType)
    ensures multiset(Tier(ranked, Excelente)) + multiset(Tier(ranked, Bom))
          + multiset(Tier(ranked, Atencao)) + multiset(Tier(ranked, Refazer)) == multiset(ranked)
    ensures forall level: MatchLevel, x | x in Tier(ranked, level) :: x.level == level && x in ranked
    ensures SortedBy(ranked, RankOrder(dom)) ==> forall level: MatchLevel :: SortedBy(Tier(ranked, level), RankOrder(dom))
  {
    forall x
      ensures (multiset(Tier(ranked, Excelente)) + multiset(Tier(ranked, Bom))
             + multiset(Tier(ranked, Atencao)) + multiset(Tier(ranked, Refazer)))[x] == multiset(ranked)[x]
    {
      FilterMultiplicity(ranked, (x: Scored) => x.level == Excelente, x);
      FilterMultiplicity(ranked, (x: Scored) => x.level == Bom, x);
      FilterMultiplicity(ranked, (x: Scored) => x.level == Atencao, x);
      FilterMultiplicity(ranked, (x: Scored) => x.level == Refazer, x);
    }
    if SortedBy(ranked, RankOrder(dom)) {
      forall level: MatchLevel
        ensures SortedBy(Tier(ranked, level), RankOrder(dom))
      {
        FilterSorted(ranked, (x: Scored) => x.level == level, RankOrder(dom));
      }
    }
  }

  // ---------------------------------------------------------------------------
  // Trimming a tier

  /** The tier's entries of the dominant type, in order. */
  function DominantPart(all: seq<Scored>, dom: RiasecType): seq<Scored> {
    Filter(all, (x: Scored) => x.career.riasecType == dom)
  }

  /** The tier's other entries, in order. */
  function OtherPart(all: seq<Scored>, dom: RiasecType): seq<Scored> {
    Filter(all, (x: Scored) => x.career.riasecType != dom)
  }

  /** Up to four dominant-type entries, topped up with other entries to four. */
  function TrimTier(all: seq<Scored>, dom: RiasecType): (r: seq<Scored>)
    ensures |r| == Min(4, |all|)
    ensures forall x | x in r :: x in all
  {
    PartsOfTier(all, dom);
    var dominant := DominantPart(all, dom);
    var others := OtherPart(all, dom);
    var selected := dominant[..Min(4, |dominant|)];
    var remaining := 4 - |selected|;
    if remaining > 0 then selected + others[..Min(remaining, |others|)] else selected
  }

  /** The two parts of a tier hold its entries between them. */
  lemma PartsOfTier(all: seq<Scored>, dom: RiasecType)
    ensures multiset(DominantPart(all, dom)) + multiset(OtherPart(all, dom)) == multiset(all)
    ensures |DominantPart(all, dom)| + |OtherPart(all, dom)| == |all|
  {
    FilterComplement(all, (x: Scored) => x.career.riasecType == dom, (x: Scored) => x.career.riasecType != dom);
  }

  /** A trimmed tier holds min(4, tier size) entries of the tier: first the
      leading dominant-type entries (at most four), then the leading others. */
  lemma TrimTierShape(all: seq<Scored>, dom: RiasecType)
    ensures |TrimTier(all, dom)| == Min(4, |all|)
    ensures multiset(TrimTier(all, dom)) <= multiset(all)
    ensures var k := Min(4, |DominantPart(all, dom)|);
            && k <= |TrimTier(all, dom)| && |TrimTier(all, dom)| - k <= |OtherPart(all, dom)|
            && TrimTier(all, dom) == DominantPart(all, dom)[..k] + OtherPart(all, dom)[..|TrimTier(all, dom)| - k]
    ensures forall x | x in TrimTier(all, dom) :: x in all
  {
    PartsOfTier(all, dom);
    var d := DominantPart(all, dom);
    var o := OtherPart(all, dom);
    var k := Min(4, |d|);
    var r := TrimTier(all, dom);
    PrefixSubMultiset(d, k);
    PrefixSubMultiset(o, |r| - k);
    assert r == d[..k] + o[..|r| - k];
    assert multiset(r) == multiset(d[..k]) + multiset(o[..|r| - k]);
    forall x | x in r
      ensures x in all
    {
      assert x in multiset(r);
    }
  }

  /** In a ranked tier whose entries share their match count, no entry of
      another type comes before one of the dominant type. */
  lemma DominantComeFirst(all: seq<Scored>, dom: RiasecType)
    requires SortedBy(all, RankOrder(dom))
    requires forall x, y | x in all && y in all :: x.matchCount == y.matchCount
    ensures all == DominantPart(all, dom) + OtherPart(all, dom)
  {
    forall i, j | 0 <= i < j < |all| && all[j].career.riasecType == dom
      ensures all[i].career.riasecType == dom
    {
      assert RankOrder(dom)(all[i], all[j]);
      assert all[i].matchCount == all[j].matchCount;
    }
    FilterSplitsOrdered(all, (x: Scored) => x.career.riasecType == dom, (x: Scored) => x.career.riasecType != dom);
  }

  /** In a ranked tier whose entries all have the same match count the
      comparator already puts the dominant type first, so trimming keeps
      exactly the tier's first four entries. */
  lemma TrimTierOfEvenTier(all: seq<Scored>, dom: RiasecType)
    requires SortedBy(all, RankOrder(dom))
    requires forall x, y | x in all && y in all :: x.matchCount == y.matchCount
    ensures TrimTier(all, dom) == all[..Min(4, |all|)]
  {
    var d := DominantPart(all, dom);
    var o := OtherPart(all, dom);
    var r := TrimTier(all, dom);
    var k := Min(4, |d|);
    assert r == d[..k] + o[..|r| - k] && |r| == Min(4, |all|) by {
      TrimTierShape(all, dom);
    }
    assert all == d + o by {
      DominantComeFirst(all, dom);
    }
    assert k == |d| || |r| - k == 0;
    PrefixOfParts(d, o, k, |r| - k);
  }

  /** Taking all of a short first part and then some of the second is a
      prefix of their concatenation; so is taking part of a long first part alone. */
  lemma PrefixOfParts<T>(d: seq<T>, o: seq<T>, k: nat, m: nat)
    requires k <= |d| && m <= |o|
    requires k == |d| || m == 0
    ensures d[..k] + o[..m] == (d + o)[..k + m]
  {
    forall i | 0 <= i < k + m
      ensures (d[..k] + o[..m])[i] == (d + o)[i]
    {
      if i >= k {
        assert k == |d|;
      }
    }
  }

  // ---------------------------------------------------------------------------
  // The whole computation

  /** The four trimmed tiers. */
  datatype Grouped = Grouped(excelente: seq<Scored>, bom: seq<Scored>, atencao: seq<Scored>, refazer: seq<Scored>) {
    /** The tier of a level. */
    function Get(level: MatchLevel): seq<Scored> {
      match level
      case Excelente => excelente case Bom => bom case Atencao => atencao case Refazer => refazer
    }
  }

  /** The tab of one level: its tier of the ranking, trimmed. */
  function Tab(ranked: seq<Scored>, level: MatchLevel, dom: RiasecType): (r: seq<Scored>)
    ensures |r| <= 4
    ensures forall x | x in r :: x.level == level && x in ranked
  {
    TrimTier(Tier(ranked, level), dom)
  }

  /** `groupedCareers`. */
  function GroupedCareers(careers: seq<CareerDetail>, counts: map<string, int>, dom: RiasecType): (r: Grouped)
    ensures |r.excelente| <= 4 && |r.bom| <= 4 && |r.atencao| <= 4 && |r.refazer| <= 4
    ensures forall x | x in r.excelente :: x.level == Excelente
    ensures forall x | x in r.bom :: x.level == Bom
    ensures forall x | x in r.atencao :: x.level == Atencao
    ensures forall x | x in r.refazer :: x.level == Refazer
  {
    var ranked := Ranked(ScoreAll(careers, counts), dom);
    Grouped(Tab(ranked, Excelente, dom), Tab(ranked, Bom, dom), Tab(ranked, Atencao, dom), Tab(ranked, Refazer, dom))
  }

  /** Every tab shows min(4, careers at that level) entries, each a scored
      catalogue career of that level. */
  lemma GroupedCareersShape(careers: seq<CareerDetail>, counts: map<string, int>, dom: RiasecType, level: MatchLevel)
    ensures var scored := ScoreAll(careers, counts);
            |GroupedCareers(careers, counts, dom).Get(level)| == Min(4, Count(scored, (x: Scored) => x.level == level))
    ensures forall x | x in GroupedCareers(careers, counts, dom).Get(level) ::
              && x.idx < |careers| && x.career == careers[x.idx]
              && x.matchCount == MatchCount(x.career, counts) && x.subtypeSum == SubtypeSum(x.career, counts)
              && x.level == level && level == GetMatchLevel(MatchCount(x.career, counts))
  {
    var scored := ScoreAll(careers, counts);
    var ranked := Ranked(scored, dom);
    RankedOrder(careers, counts, dom);
    CountPermutation(ranked, scored, (x: Scored) => x.level == level);
    var tier := Tier(ranked, level);
    TrimTierShape(tier, dom);
    assert GroupedCareers(careers, counts, dom).Get(level) == TrimTier(tier, dom);
    forall x | x in TrimTier(tier, dom)
      ensures x.level == level && x in scored
    {
      assert x in tier;
      assert x in multiset(scored);
    }
  }

  /** The Bom and Atenção tabs, whose entries share one match count, show
      simply the four best-ranked careers of their level. */
  lemma EvenTabsShowTopFour(careers: seq<CareerDetail>, counts: map<string, int>, dom: RiasecType, level: MatchLevel)
    requires level == Bom || level == Atencao
    ensures var tier := Tier(Ranked(ScoreAll(careers, counts), dom), level);
            GroupedCareers(careers, counts, dom).Get(level) == tier[..Min(4, |tier|)]
  {
    var tier := Tier(Ranked(ScoreAll(careers, counts), dom), level);
    EvenTierCounts(careers, counts, dom, level);
    TrimTierOfEvenTier(tier, dom);
    assert GroupedCareers(careers, counts, dom).Get(level) == TrimTier(tier, dom);
  }

  /** Every entry of the Bom tier has match count 3, and of the Atenção tier 2. */
  lemma EvenTierCounts(careers: seq<CareerDetail>, counts: map<string, int>, dom: RiasecType, level: MatchLevel)
    requires level == Bom || level == Atencao
    ensures forall x | x in Tier(Ranked(ScoreAll(careers, counts), dom), level) ::
              x.matchCount == (if level == Bom then 3 else 2)
  {
    var scored := ScoreAll(careers, counts);
    var ranked := Ranked(scored, dom);
    forall x | x in Tier(ranked, level)
      ensures x.matchCount == (if level == Bom then 3 else 2)
    {
      assert x in multiset(ranked);
      assert x in scored;
      var i :| 0 <= i < |scored| && scored[i] == x;
      assert x.level == level && x.level == GetMatchLevel(x.matchCount);
    }
  }
}
