/** The well-formedness rules a career catalogue is held to
    (src/test/phantom-subtypes.test.ts). Each rule is a predicate over the
    catalogue, paired with the list of offending entries the test collects;
    the rule holds exactly when that list is empty. */
module CatalogueChecks {
  import opened Seqs
  import opened QuizQuestions
  import opened CareerDetails

  // ---------------------------------------------------------------------------
  // All subtype slots use official subtypes

  /** Every related-subtype label is a key of the official table. */
  predicate AllOfficial(careers: seq<CareerDetail>, subtypeMap: SubtypeMap) {
    forall c, s | c in careers && s in c.relatedSubtypes :: s.subtype in subtypeMap
  }

  /** The unofficial slots of one career, as (career name, label). */
  function InvalidSlotsOf(c: CareerDetail, subtypeMap: SubtypeMap): seq<(string, string)> {
    Map((s: RelatedSubtype) => (c.name, s.subtype), Filter(c.relatedSubtypes, (s: RelatedSubtype) => s.subtype !in subtypeMap))
  }

  /** The test's `invalid` list: every unofficial slot, career by career. */
  function InvalidSlots(careers: seq<CareerDetail>, subtypeMap: SubtypeMap): seq<(string, string)> {
    if careers == [] then [] else InvalidSlotsOf(careers[0], subtypeMap) + InvalidSlots(careers[1..], subtypeMap)
  }

  /** The first rule passes exactly when no slot is reported. */
  lemma {:induction false} InvalidSlotsEmpty(careers: seq<CareerDetail>, subtypeMap: SubtypeMap)
    ensures InvalidSlots(careers, subtypeMap) == [] <==> AllOfficial(careers, subtypeMap)
  {
    if careers != [] {
      InvalidSlotsEmpty(careers[1..], subtypeMap);
      var c := careers[0];
      var bad := Filter(c.relatedSubtypes, (s: RelatedSubtype) => s.subtype !in subtypeMap);
      if bad != [] {
        assert bad[0] in c.relatedSubtypes && bad[0].subtype !in subtypeMap;
      }
      assert forall d | d in careers :: d == c || d in careers[1..];
    }
  }

  // ---------------------------------------------------------------------------
  // No career lists a subtype twice

  /** `new Set(labels).size === labels.length` for every career. */
  predicate NoDuplicateLabels(careers: seq<CareerDetail>) {
    forall c | c in careers :: |Elements(Labels(c))| == |Labels(c)|
  }

  /** The test's `dupes` list: (name, labels) of every career whose label set is smaller than its list. */
  function DuplicateReports(careers: seq<CareerDetail>): seq<(string, seq<string>)> {
    Map((c: CareerDetail) => (c.name, Labels(c)), Filter(careers, (c: CareerDetail) => |Elements(Labels(c))| != |Labels(c)|))
  }

  /** The second rule passes exactly when no career is reported, which is
      exactly when every career's labels are pairwise different. */
  lemma DuplicateReportsEmpty(careers: seq<CareerDetail>)
    ensures DuplicateReports(careers) == [] <==> NoDuplicateLabels(careers)
    ensures NoDuplicateLabels(careers) <==> forall c | c in careers :: Distinct(Labels(c))
  {
    var bad := Filter(careers, (c: CareerDetail) => |Elements(Labels(c))| != |Labels(c)|);
    if bad != [] {
      assert bad[0] in careers;
    }
    forall c | c in careers
      ensures |Elements(Labels(c))| == |Labels(c)| <==> Distinct(Labels(c))
    {
      ElementsSize(Labels(c));
    }
  }

  // ---------------------------------------------------------------------------
  // 600 careers with four subtypes each

  /** The third rule: 600 careers, each with exactly four related subtypes. */
  predicate FullCatalogue(careers: seq<CareerDetail>) {
    |careers| == 600 && forall c | c in careers :: |c.relatedSubtypes| == 4
  }

  /** The number of subtype slots in a catalogue. */
  function SlotCount(careers: seq<CareerDetail>): nat {
    if careers == [] then 0 else |careers[0].relatedSubtypes| + SlotCount(careers[1..])
  }

  /** Four slots per career: a catalogue of `n` careers has `4 n` slots, so a
      full catalogue has the 2400 slots the first rule speaks of. */
  lemma {:induction false} FourSlotsEach(careers: seq<CareerDetail>)
    requires forall c | c in careers :: |c.relatedSubtypes| == 4
    ensures SlotCount(careers) == 4 * |careers|
    ensures FullCatalogue(careers) ==> SlotCount(careers) == 2400
  {
    if careers != [] {
      assert forall c | c in careers[1..] :: c in careers;
      FourSlotsEach(careers[1..]);
    }
  }

  // ---------------------------------------------------------------------------
  // No phantom subtypes

  /** Labels that are not official subtypes but once appeared in the catalogue. */
  const Phantoms: seq<string> := ["RESOLUÇÕES", "ESTABILIDADE", "COISAS"]

  /** The fourth rule: no related subtype is a phantom. */
  predicate NoPhantoms(careers: seq<CareerDetail>) {
    forall c, s | c in careers && s in c.relatedSubtypes :: s.subtype !in Phantoms
  }

  /** The compiled catalogue breaks the fourth rule: Mecânica lists COISAS
      and Construção Civil lists ESTABILIDADE. */
  lemma DefaultCareersHavePhantoms()
    ensures DefaultCareers[1].name == "Mecânica" && RelatedSubtype("COISAS", R) in DefaultCareers[1].relatedSubtypes
    ensures DefaultCareers[3].name == "Construção Civil" && RelatedSubtype("ESTABILIDADE", R) in DefaultCareers[3].relatedSubtypes
    ensures !NoPhantoms(DefaultCareers)
  {
    assert DefaultCareers[1] == CareersR[1];
    assert DefaultCareers[3] == CareersR[3];
    assert CareersR[1].relatedSubtypes[0] == RelatedSubtype("COISAS", R);
    assert CareersR[3].relatedSubtypes[3] == RelatedSubtype("ESTABILIDADE", R);
    assert Phantoms[2] == "COISAS";
  }

  // ---------------------------------------------------------------------------
  // At least two subtypes of the career's own type

  /** The career's related subtypes whose official type is the career's own;
      a label missing from the table never counts. */
  function OwnTypeCount(c: CareerDetail, subtypeMap: SubtypeMap): nat {
    Count(c.relatedSubtypes, (s: RelatedSubtype) => s.subtype in subtypeMap && subtypeMap[s.subtype] == c.riasecType)
  }

  /** The fifth rule: every career has at least two related subtypes of its own type. */
  predicate OwnTypeAtLeastTwo(careers: seq<CareerDetail>, subtypeMap: SubtypeMap) {
    forall c | c in careers :: OwnTypeCount(c, subtypeMap) >= 2
  }

  /** The test's `failures` list: (name, type, own-type count) of every career below two. */
  function OwnTypeFailures(careers: seq<CareerDetail>, subtypeMap: SubtypeMap): seq<(string, RiasecType, nat)> {
    Map((c: CareerDetail) => (c.name, c.riasecType, OwnTypeCount(c, subtypeMap)),
        Filter(careers, (c: CareerDetail) => OwnTypeCount(c, subtypeMap) < 2))
  }

  /** The fifth rule passes exactly when no career is reported, and every
      reported count is below two. */
  lemma OwnTypeFailuresEmpty(careers: seq<CareerDetail>, subtypeMap: SubtypeMap)
    ensures OwnTypeFailures(careers, subtypeMap) == [] <==> OwnTypeAtLeastTwo(careers, subtypeMap)
    ensures forall f | f in OwnTypeFailures(careers, subtypeMap) :: f.2 < 2
  {
    var bad := Filter(careers, (c: CareerDetail) => OwnTypeCount(c, subtypeMap) < 2);
    if bad != [] {
      assert bad[0] in careers;
    }
    var reports := OwnTypeFailures(careers, subtypeMap);
    forall f | f in reports
      ensures f.2 < 2
    {
      var i :| 0 <= i < |reports| && reports[i] == f;
      assert bad[i] in bad;
    }
  }

  /** A career whose every slot the table assigns to the career's type passes
      the fifth rule as soon as it has two slots. */
  lemma {:induction false} OwnTypeWhenAllMapped(c: CareerDetail, subtypeMap: SubtypeMap)
    requires forall s | s in c.relatedSubtypes :: s.subtype in subtypeMap && subtypeMap[s.subtype] == c.riasecType
    ensures OwnTypeCount(c, subtypeMap) == |c.relatedSubtypes|
  {
    FilterKeepsAll(c.relatedSubtypes, (s: RelatedSubtype) => s.subtype in subtypeMap && subtypeMap[s.subtype] == c.riasecType);
  }
}
