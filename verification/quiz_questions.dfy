/** The quiz's data model, the per-subtype score fold, and the session sampler
    that draws a balanced set of questions and stamps a random subtype on each
    side (src/data/quizQuestions.ts). */
module QuizQuestions {
  import opened Wrappers
  import opened Seqs

  /** The six Holland types. */
  datatype RiasecType = R | I | A | S | E | C

  /** The types in the order the application lists them. */
  const AllTypes: seq<RiasecType> := [R, I, A, S, E, C]

  /** The one-letter name of a type, as used in composite keys and filters. */
  function Letter(t: RiasecType): char {
    match t
    case R => 'R' case I => 'I' case A => 'A' case S => 'S' case E => 'E' case C => 'C'
  }

  /** The position of a type in `AllTypes`. */
  function TypeIndex(t: RiasecType): (n: nat)
    ensures n < 6 && AllTypes[n] == t
  {
    match t
    case R => 0 case I => 1 case A => 2 case S => 3 case E => 4 case C => 5
  }

  /** A yes/no reply. */
  datatype Answer = Yes | No

  /** Replies keyed by question id. */
  type Answers = map<int, Answer>

  /** A question of the bank. `yesSub`/`noSub` are absent in the bank and are
      filled in when a session draws the question. */
  datatype Question = Question(
    id: int,
    text: string,
    yesType: RiasecType,
    noType: RiasecType,
    yesSub: Option<string>,
    noSub: Option<string>)

  /** The descriptive record of one type, including its list of subtypes. */
  datatype RiasecProfile = RiasecProfile(
    riasecType: RiasecType,
    name: string,
    icon: string,
    description: string,
    careers: seq<string>,
    color: string,
    subdivisions: seq<string>)

  /** A `Record<RiasecType, RiasecProfile>`. */
  type ProfileTable = map<RiasecType, RiasecProfile>

  /** A record over the types has an entry for every type. */
  predicate IsTotal<V>(m: map<RiasecType, V>) {
    forall t: RiasecType :: t in m
  }

  // ---------------------------------------------------------------------------
  // computeSubtypeCounts

  /** The subtype a reply selects: the yes side's on yes, the no side's on no. */
  function ChosenSub(q: Question, a: Answer): Option<string> {
    if a == Yes then q.yesSub else q.noSub
  }

  /** The type a reply awards. */
  function AwardedType(q: Question, a: Answer): RiasecType {
    if a == Yes then q.yesType else q.noType
  }

  /** The question is answered and the reply awards `t`. */
  predicate AwardsType(q: Question, answers: Answers, t: RiasecType) {
    q.id in answers && AwardedType(q, answers[q.id]) == t
  }

  /** The question is answered, its chosen side carries a non-empty subtype,
      and that side's type passes the optional filter. */
  predicate Contributes(q: Question, answers: Answers, filterType: Option<RiasecType>) {
    && q.id in answers
    && ChosenSub(q, answers[q.id]).Some?
    && ChosenSub(q, answers[q.id]).value != ""
    && (filterType.None? || AwardedType(q, answers[q.id]) == filterType.value)
  }

  /** The subtype label a contributing question adds to. */
  function ContributedLabel(q: Question, answers: Answers): string {
    if q.id in answers then ChosenSub(q, answers[q.id]).GetOr("") else ""
  }

  /** How many questions add one to `label`. */
  function TimesCounted(questions: seq<Question>, answers: Answers, filterType: Option<RiasecType>, sub: string): nat {
    Count(questions, q => Contributes(q, answers, filterType) && ContributedLabel(q, answers) == sub)
  }

  /** How many questions add one to some label. */
  function NumContributing(questions: seq<Question>, answers: Answers, filterType: Option<RiasecType>): nat {
    Count(questions, q => Contributes(q, answers, filterType))
  }

  /** `computeSubtypeCounts`: walks the questions in order and, for each
      contributing one, does `result[sub] = (result[sub] || 0) + 1`. */
  function ComputeSubtypeCounts(questions: seq<Question>, answers: Answers, filterType: Option<RiasecType>): (r: map<string, int>)
    ensures forall k :: k in r <==> TimesCounted(questions, answers, filterType, k) > 0
    ensures forall k | k in r :: r[k] == TimesCounted(questions, answers, filterType, k)
  {
    if questions == [] then map[]
    else
      var init := questions[..|questions| - 1];
      var q := questions[|questions| - 1];
      var prev := ComputeSubtypeCounts(init, answers, filterType);
      assert questions == init + [q];
      forall k
        ensures TimesCounted(questions, answers, filterType, k)
             == TimesCounted(init, answers, filterType, k)
              + (if Contributes(q, answers, filterType) && ContributedLabel(q, answers) == k then 1 else 0)
      {
        CountAppend(init, [q], q => Contributes(q, answers, filterType) && ContributedLabel(q, answers) == k);
      }
      if Contributes(q, answers, filterType) then
        var sub := ContributedLabel(q, answers);
        prev[sub := GetOrZero(prev, sub) + 1]
      else prev
  }

  /** Every key present has a count of at least one, and the counts add up to
      the number of contributing questions. */
  lemma {:induction false} SubtypeCountsTotal(questions: seq<Question>, answers: Answers, filterType: Option<RiasecType>)
    ensures forall k | k in ComputeSubtypeCounts(questions, answers, filterType) :: ComputeSubtypeCounts(questions, answers, filterType)[k] >= 1
    ensures MapSum(ComputeSubtypeCounts(questions, answers, filterType)) == NumContributing(questions, answers, filterType)
  {
    if questions != [] {
      var init := questions[..|questions| - 1];
      var q := questions[|questions| - 1];
      assert questions == init + [q];
      SubtypeCountsTotal(init, answers, filterType);
      CountAppend(init, [q], q => Contributes(q, answers, filterType));
      var prev := ComputeSubtypeCounts(init, answers, filterType);
      if Contributes(q, answers, filterType) {
        var sub := ContributedLabel(q, answers);
        MapSumUpdate(prev, sub, GetOrZero(prev, sub) + 1);
      }
    }
  }

  /** Unanswered questions, sides without a subtype and (with a filter) sides of
      another type add nothing: appending such a question leaves the counts as they were. */
  lemma NonContributingIgnored(questions: seq<Question>, q: Question, answers: Answers, filterType: Option<RiasecType>)
    requires q.id !in answers
          || ChosenSub(q, answers[q.id]) == None
          || ChosenSub(q, answers[q.id]) == Some("")
          || (filterType.Some? && AwardedType(q, answers[q.id]) != filterType.value)
    ensures ComputeSubtypeCounts(questions + [q], answers, filterType) == ComputeSubtypeCounts(questions, answers, filterType)
  {
    assert (questions + [q])[..|questions + [q]| - 1] == questions;
  }

  lemma TimesCountedFiltered(questions: seq<Question>, answers: Answers, t: RiasecType, k: string)
    ensures TimesCounted(questions, answers, Some(t), k)
         == TimesCounted(Filter(questions, q => AwardsType(q, answers, t)), answers, None, k)
  {
    FilterFilter(questions, q => AwardsType(q, answers, t),
                 q => Contributes(q, answers, None) && ContributedLabel(q, answers) == k,
                 q => Contributes(q, answers, Some(t)) && ContributedLabel(q, answers) == k);
  }

  /** Filtering by a type is the same as counting, unfiltered, only the
      questions whose chosen side awards that type. */
  lemma FilteredCountsOnlyThatType(questions: seq<Question>, answers: Answers, t: RiasecType)
    ensures ComputeSubtypeCounts(questions, answers, Some(t))
         == ComputeSubtypeCounts(Filter(questions, q => AwardsType(q, answers, t)), answers, None)
  {
    var kept := Filter(questions, q => AwardsType(q, answers, t));
    var a := ComputeSubtypeCounts(questions, answers, Some(t));
    var b := ComputeSubtypeCounts(kept, answers, None);
    forall k
      ensures (k in a <==> k in b) && (k in a ==> a[k] == b[k])
    {
      TimesCountedFiltered(questions, answers, t, k);
    }
    assert a.Keys == b.Keys;
  }

  // ---------------------------------------------------------------------------
  // Session sampler

  /** Number of questions per quiz session. */
  const QuizSize: nat := 18

  /** The three antagonistic pairs, in the order the sampler visits them. */
  const AxisPairs: seq<(RiasecType, RiasecType)> := [(R, I), (A, C), (S, E)]

  /** Questions drawn from each pair: `QUIZ_SIZE / pairs.length`. */
  const PerPair: nat := QuizSize / |AxisPairs|

  /** The question's two types are `a` and `b`, in either orientation. */
  predicate InPair(q: Question, a: RiasecType, b: RiasecType) {
    (q.yesType == a && q.noType == b) || (q.yesType == b && q.noType == a)
  }

  /** The questions of the bank belonging to one pair, in bank order. */
  function PairGroup(bank: seq<Question>, a: RiasecType, b: RiasecType): seq<Question> {
    Filter(bank, q => InPair(q, a, b))
  }

  /** A bank question pairs two different types that form one of the three axis pairs. */
  predicate WellShaped(q: Question) {
    q.yesType != q.noType && (InPair(q, R, I) || InPair(q, A, C) || InPair(q, S, E))
  }

  /** Fisher-Yates: for i from the last index down to 1, swap position i with a
      position j in [0, i] chosen at random. Returns a permutation of `arr`. */
  method Shuffle<T>(arr: seq<T>) returns (r: seq<T>)
    ensures |r| == |arr|
    ensures multiset(r) == multiset(arr)
  {
    var a := arr;
    var i := |a| - 1;
    while i > 0
      invariant -1 <= i < |arr|
      invariant |a| == |arr|
      invariant multiset(a) == multiset(arr)
    {
      var j :| 0 <= j <= i;
      a := a[i := a[j]][j := a[i]];
      i := i - 1;
    }
    r := a;
  }

  /** An element drawn at random; an empty array yields `undefined`. */
  method RandomPick<T>(arr: seq<T>) returns (r: Option<T>)
    ensures r.None? <==> arr == []
    ensures r.Some? ==> r.value in arr
  {
    if arr == [] {
      r := None;
    } else {
      var k :| 0 <= k < |arr|;
      r := Some(arr[k]);
    }
  }

  /** The first `PerPair` questions of a random permutation of one pair's group. */
  method TakeFromPair(bank: seq<Question>, a: RiasecType, b: RiasecType) returns (chosen: seq<Question>)
    ensures |chosen| == Min(PerPair, |PairGroup(bank, a, b)|)
    ensures multiset(chosen) <= multiset(PairGroup(bank, a, b))
    ensures forall q | q in chosen :: InPair(q, a, b)
  {
    var group := PairGroup(bank, a, b);
    var shuffled := Shuffle(group);
    chosen := shuffled[..Min(PerPair, |shuffled|)];
    PrefixSubMultiset(shuffled, Min(PerPair, |shuffled|));
    forall q | q in chosen
      ensures InPair(q, a, b)
    {
      assert q in shuffled;
      assert q in multiset(shuffled);
      assert q in group;
    }
  }

  /** The same question with both subtypes replaced. */
  function WithSubs(q: Question, yesSub: Option<string>, noSub: Option<string>): Question {
    q.(yesSub := yesSub, noSub := noSub)
  }

  /** A subtype stamped on one side is drawn from that side's type's subdivisions,
      and is absent only when that list is empty. */
  predicate DrawnFrom(sub: Option<string>, t: RiasecType, profiles: ProfileTable)
    requires IsTotal(profiles)
  {
    (sub.None? <==> profiles[t].subdivisions == [])
    && (sub.Some? ==> sub.value in profiles[t].subdivisions)
  }

  /** The number of questions of one pair in a sequence. */
  function PairCount(qs: seq<Question>, a: RiasecType, b: RiasecType): nat {
    Count(qs, q => InPair(q, a, b))
  }

  /** `getRandomQuestions`: up to six questions from each pair, shuffled together,
      each side stamped with a random subtype of its type. */
  method GetRandomQuestions(bank: seq<Question>, profiles: ProfileTable) returns (r: seq<Question>)
    requires IsTotal(profiles)
    ensures PairCount(r, R, I) == Min(PerPair, |PairGroup(bank, R, I)|)
    ensures PairCount(r, A, C) == Min(PerPair, |PairGroup(bank, A, C)|)
    ensures PairCount(r, S, E) == Min(PerPair, |PairGroup(bank, S, E)|)
    ensures |r| == Min(PerPair, |PairGroup(bank, R, I)|) + Min(PerPair, |PairGroup(bank, A, C)|) + Min(PerPair, |PairGroup(bank, S, E)|)
    ensures exists base: seq<Question> ::
              && |base| == |r|
              && multiset(base) <= multiset(bank)
              && forall i | 0 <= i < |r| :: r[i] == WithSubs(base[i], r[i].yesSub, r[i].noSub)
    ensures forall i | 0 <= i < |r| :: DrawnFrom(r[i].yesSub, r[i].yesType, profiles) && DrawnFrom(r[i].noSub, r[i].noType, profiles)
  {
    var s1 := TakeFromPair(bank, R, I);
    var s2 := TakeFromPair(bank, A, C);
    var s3 := TakeFromPair(bank, S, E);
    var selected := s1 + s2 + s3;
    var all := Shuffle(selected);
    assert |all| == |s1| + |s2| + |s3|;

    r := [];
    var k := 0;
    while k < |all|
      invariant 0 <= k <= |all|
      invariant |r| == k
      invariant forall i | 0 <= i < k :: r[i] == WithSubs(all[i], r[i].yesSub, r[i].noSub)
      invariant forall i | 0 <= i < k :: r[i].yesType == all[i].yesType && r[i].noType == all[i].noType
      invariant forall i | 0 <= i < k :: DrawnFrom(r[i].yesSub, r[i].yesType, profiles) && DrawnFrom(r[i].noSub, r[i].noType, profiles)
    {
      var q := all[k];
      var ys := RandomPick(profiles[q.yesType].subdivisions);
      var ns := RandomPick(profiles[q.noType].subdivisions);
      r := r + [WithSubs(q, ys, ns)];
      k := k + 1;
    }

    SelectionFacts(bank, s1, s2, s3, all, r);
    assert |all| == |r| && multiset(all) <= multiset(bank)
        && forall i | 0 <= i < |r| :: r[i] == WithSubs(all[i], r[i].yesSub, r[i].noSub);
  }

  /** What the sampler's steps preserve: no bank entry is used twice, and each
      pair's count is the size of its part. */
  lemma SelectionFacts(bank: seq<Question>, s1: seq<Question>, s2: seq<Question>, s3: seq<Question>, all: seq<Question>, r: seq<Question>)
    requires multiset(s1) <= multiset(PairGroup(bank, R, I))
    requires multiset(s2) <= multiset(PairGroup(bank, A, C))
    requires multiset(s3) <= multiset(PairGroup(bank, S, E))
    requires forall q | q in s1 :: InPair(q, R, I)
    requires forall q | q in s2 :: InPair(q, A, C)
    requires forall q | q in s3 :: InPair(q, S, E)
    requires multiset(all) == multiset(s1 + s2 + s3)
    requires |r| == |all|
    requires forall i | 0 <= i < |r| :: r[i].yesType == all[i].yesType && r[i].noType == all[i].noType
    ensures multiset(all) <= multiset(bank)
    ensures PairCount(r, R, I) == |s1|
    ensures PairCount(r, A, C) == |s2|
    ensures PairCount(r, S, E) == |s3|
  {
    FilterDisjointUnion(bank, q => InPair(q, R, I), q => InPair(q, A, C), q => InPair(q, S, E));
    assert multiset(s1 + s2 + s3) == multiset(s1) + multiset(s2) + multiset(s3);
    PairsExclusive();
    PairCountCarried(s1, s2, s3, all, r, R, I);
    assert multiset(s2 + s1 + s3) == multiset(s1 + s2 + s3);
    PairCountCarried(s2, s1, s3, all, r, A, C);
    assert multiset(s3 + s1 + s2) == multiset(s1 + s2 + s3);
    PairCountCarried(s3, s1, s2, all, r, S, E);
  }

  /** A pair's count survives shuffling and subtype stamping: it is the size of
      the one part drawn from that pair. */
  lemma PairCountCarried(s1: seq<Question>, s2: seq<Question>, s3: seq<Question>, all: seq<Question>, r: seq<Question>, a: RiasecType, b: RiasecType)
    requires forall q | q in s1 :: InPair(q, a, b)
    requires forall q | q in s2 :: !InPair(q, a, b)
    requires forall q | q in s3 :: !InPair(q, a, b)
    requires multiset(all) == multiset(s1 + s2 + s3)
    requires |r| == |all|
    requires forall i | 0 <= i < |r| :: r[i].yesType == all[i].yesType && r[i].noType == all[i].noType
    ensures PairCount(r, a, b) == |s1|
  {
    CountOfFirstPart(s1, s2, s3, q => InPair(q, a, b));
    CountPermutation(s1 + s2 + s3, all, q => InPair(q, a, b));
    CountPointwise(r, q => InPair(q, a, b), all, q => InPair(q, a, b));
  }

  /** No question lies in two pairs. */
  lemma PairsExclusive()
    ensures forall q :: !(InPair(q, R, I) && InPair(q, A, C))
    ensures forall q :: !(InPair(q, R, I) && InPair(q, S, E))
    ensures forall q :: !(InPair(q, A, C) && InPair(q, S, E))
  {
  }

  /** With at least six questions in every pair, a session has exactly `QuizSize` questions. */
  lemma FullSessionSize(bank: seq<Question>, n: int)
    requires |PairGroup(bank, R, I)| >= PerPair && |PairGroup(bank, A, C)| >= PerPair && |PairGroup(bank, S, E)| >= PerPair
    requires n == Min(PerPair, |PairGroup(bank, R, I)|) + Min(PerPair, |PairGroup(bank, A, C)|) + Min(PerPair, |PairGroup(bank, S, E)|)
    ensures n == QuizSize
  {
  }

  // ---------------------------------------------------------------------------
  // Compiled profile table

  /** `riasecProfiles`. */
  const DefaultProfiles: ProfileTable :=
    map[
      R := RiasecProfile(
        R, "Realista", "IconTool",
        "Você é prático, objetivo e gosta de trabalhar com as mãos. Prefere atividades concretas e tangíveis, resolver problemas reais e ver resultados imediatos do seu trabalho.",
        ["Engenharia", "Mecânica", "Agricultura", "Construção Civil", "Eletricista"],
        "hsl(142, 71%, 45%)",
        ["REALISTA", "COISAS", "EXECUÇÃO", "ROTINA", "SEGURANÇA", "MANUTENÇÃO", "PRODUÇÃO", "OPERAÇÃO", "RESISTÊNCIA", "CONSTÂNCIA", "FERRAMENTAS", "ESTABILIDADE"]),
      I := RiasecProfile(
        I, "Investigativo", "IconMicroscope",
        "Você é curioso, analítico e adora entender como as coisas funcionam. Gosta de pesquisar, estudar e resolver problemas complexos usando lógica e raciocínio.",
        ["Ciência", "Pesquisa", "Medicina", "Tecnologia", "Análise de Dados"],
        "hsl(217, 91%, 60%)",
        ["ESTUDO", "ANÁLISE", "PLANEJAMENTO", "PESQUISA", "DIAGNÓSTICO", "CURIOSIDADE", "RACIOCÍNIO", "RESOLUÇÕES", "TEORIA", "OBSERVAÇÃO"]),
      A := RiasecProfile(
        A, "Artístico", "IconPalette",
        "Você é criativo, expressivo e valoriza a originalidade. Gosta de ambientes livres onde pode usar sua imaginação e criar coisas novas.",
        ["Design", "Música", "Escrita", "Artes Visuais", "Publicidade"],
        "hsl(262, 83%, 58%)",
        ["CRIATIVIDADE", "EXPRESSÃO", "MUDANÇA", "IMAGINAÇÃO", "INTUIÇÃO", "ESTÉTICA", "ESTILO", "INOVAÇÃO", "EXPERIÊNCIAS", "IDENTIDADE"]),
      S := RiasecProfile(
        S, "Social", "IconUsersGroup",
        "Você é empático, cooperativo e gosta de ajudar os outros. Se realiza em atividades que envolvem ensinar, orientar e cuidar das pessoas.",
        ["Educação", "Psicologia", "Serviço Social", "Saúde", "RH"],
        "hsl(330, 81%, 60%)",
        ["GRUPO", "COMUNICAÇÃO", "EMPATIA", "COLABORAÇÃO", "AJUDA", "ENSINO", "CUIDADO", "ESCUTA", "APOIO", "COOPERAÇÃO"]),
      E := RiasecProfile(
        E, "Empreendedor", "IconRocket",
        "Você é líder, persuasivo e motivado por desafios. Gosta de influenciar pessoas, tomar decisões e buscar resultados ambiciosos.",
        ["Administração", "Vendas", "Marketing", "Direito", "Gestão"],
        "hsl(25, 95%, 53%)",
        ["LIDERANÇA", "RISCO", "EXPOSIÇÃO", "PERSUASÃO", "INFLUÊNCIA", "DECISÃO", "AMBIÇÃO", "COMPETIÇÃO", "INICIATIVA", "VISÃO"]),
      C := RiasecProfile(
        C, "Convencional", "IconChartBar",
        "Você é organizado, metódico e detalhista. Gosta de seguir processos, trabalhar com dados e manter tudo em ordem.",
        ["Contabilidade", "Finanças", "Administração", "Logística", "Auditoria"],
        "hsl(47, 96%, 53%)",
        ["ORGANIZAÇÃO", "CONTROLE", "PADRÃO", "REGRAS", "PRECISÃO", "ESTRUTURA", "PLANEJAMENTO", "CONFORMIDADE", "DADOS", "DOCUMENTAÇÃO"])
    ]

  /** The compiled table has every type, each under its own key. */
  lemma DefaultProfilesTotal()
    ensures IsTotal(DefaultProfiles)
    ensures forall t :: DefaultProfiles[t].riasecType == t
  {
    forall t: RiasecType
      ensures t in DefaultProfiles && DefaultProfiles[t].riasecType == t
    {
      match t
      case R => case I => case A => case S => case E => case C =>
    }
  }

  /** The compiled subtype lists break the ten-per-type partition: R lists twelve
      and PLANEJAMENTO is listed under both I and C. */
  lemma DefaultProfilesNotAPartition()
    ensures |DefaultProfiles[R].subdivisions| == 12
    ensures "PLANEJAMENTO" in DefaultProfiles[I].subdivisions && "PLANEJAMENTO" in DefaultProfiles[C].subdivisions
  {
    assert DefaultProfiles[I].subdivisions[2] == "PLANEJAMENTO";
    assert DefaultProfiles[C].subdivisions[6] == "PLANEJAMENTO";
  }
}
