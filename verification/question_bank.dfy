/** The compiled bank of 300 questions (`allQuestions` in
    src/data/quizQuestions.ts) and what the sampler relies on about it: ids
    run 1..300 in order, every question pairs two types of one axis, no
    question carries a subtype yet, and every pair has far more than the six
    questions a session draws from it. The literal is split into blocks of ten
    so that each fact is established block by block. */
module QuestionBank {
  import opened Wrappers
  import opened Seqs
  import opened QuizQuestions

  /** Ids run consecutively from `first`, every question is well shaped, and
      no question carries a subtype. */
  predicate BankBlock(s: seq<Question>, first: int) {
    forall i | 0 <= i < |s| :: s[i].id == first + i && WellShaped(s[i]) && s[i].yesSub == None && s[i].noSub == None
  }

  /** Blocks with consecutive ids join into one block. */
  lemma BankBlockAppend(s: seq<Question>, t: seq<Question>, first: int)
    requires BankBlock(s, first) && BankBlock(t, first + |s|)
    ensures BankBlock(s + t, first)
  {
    forall i | |s| <= i < |s + t|
      ensures (s + t)[i] == t[i - |s|]
    {
    }
  }

  /** The position in `AxisPairs` of the pair a question belongs to, or 3. */
  function AxisOf(q: Question): (k: nat)
    ensures k <= 3
    ensures k < 3 <==> WellShaped(q)
    ensures forall j | 0 <= j < 3 :: k == j <==> InPair(q, AxisPairs[j].0, AxisPairs[j].1)
  {
    if InPair(q, R, I) then 0 else if InPair(q, A, C) then 1 else if InPair(q, S, E) then 2 else 3
  }

  /** The pair position of every question, in order. */
  function Axes(s: seq<Question>): (r: seq<nat>)
    ensures |r| == |s|
    ensures forall i | 0 <= i < |s| :: r[i] == AxisOf(s[i])
  {
    seq(|s|, i requires 0 <= i < |s| => AxisOf(s[i]))
  }

  /** How many times `j` occurs in `s`. */
  function Occurrences(s: seq<nat>, j: nat): nat {
    if s == [] then 0 else (if s[0] == j then 1 else 0) + Occurrences(s[1..], j)
  }

  lemma {:induction false} OccurrencesAppend(s: seq<nat>, t: seq<nat>, j: nat)
    ensures Occurrences(s + t, j) == Occurrences(s, j) + Occurrences(t, j)
  {
    if s == [] {
      assert s + t == t;
    } else {
      OccurrencesAppend(s[1..], t, j);
      assert (s + t)[1..] == s[1..] + t;
    }
  }

  /** A pair's count is the number of times its position occurs among the axes. */
  lemma {:induction false} PairCountIsAxisCount(s: seq<Question>, j: nat)
    requires j < 3
    ensures PairCount(s, AxisPairs[j].0, AxisPairs[j].1) == Occurrences(Axes(s), j)
  {
    if s != [] {
      PairCountIsAxisCount(s[1..], j);
      assert s == [s[0]] + s[1..];
      CountAppend([s[0]], s[1..], q => InPair(q, AxisPairs[j].0, AxisPairs[j].1));
      assert Axes(s)[1..] == Axes(s[1..]);
    }
  }

  /** Joining one more block of ten onto a prefix of `n` blocks: the shape
      carries over and the pair counts add up. */
  lemma PrefixStep(p: seq<Question>, b: seq<Question>, n: nat)
    requires |p| == 10 * n && BankBlock(p, 1)
    requires |b| == 10 && BankBlock(b, 10 * n + 1)
    ensures |p + b| == 10 * (n + 1) && BankBlock(p + b, 1)
    ensures forall j :: Occurrences(Axes(p + b), j) == Occurrences(Axes(p), j) + Occurrences(Axes(b), j)
  {
    BankBlockAppend(p, b, 1);
    assert Axes(p + b) == Axes(p) + Axes(b);
    forall j
      ensures Occurrences(Axes(p + b), j) == Occurrences(Axes(p), j) + Occurrences(Axes(b), j)
    {
      OccurrencesAppend(Axes(p), Axes(b), j);
    }
  }

  const Block00: seq<Question> := [
    Question(1, "Diante de uma rotina que pode ser otimizada, você prefere analisar antes de agir?", I, R, None, None),
    Question(2, "Em um grupo em conflito, você prefere apoiar e acolher pessoas?", S, E, None, None),
    Question(3, "Para um anúncio, você prefere seguir um padrão pronto?", C, A, None, None),
    Question(4, "Para um layout, você prefere criar do seu jeito?", A, C, None, None),
    Question(5, "Para um texto curto, você prefere criar do seu jeito?", A, C, None, None),
    Question(6, "Diante de um projeto com risco, você prefere agir na prática primeiro?", R, I, None, None),
    Question(7, "Diante de um procedimento que precisa melhorar, você prefere analisar antes de agir?", I, R, None, None),
    Question(8, "Em uma situação emocional delicada, você prefere liderar para alcançar resultados?", E, S, None, None),
    Question(9, "Diante de um bug ou falha, você prefere agir na prática primeiro?", R, I, None, None),
    Question(10, "Em uma negociação tensa, você prefere liderar para alcançar resultados?", E, S, None, None)
  ]

  const Block01: seq<Question> := [
    Question(11, "Em uma decisão que afeta pessoas, você prefere apoiar e acolher pessoas?", S, E, None, None),
    Question(12, "Em uma meta urgente, você prefere apoiar e acolher pessoas?", S, E, None, None),
    Question(13, "Diante de uma tarefa operacional, você prefere agir na prática primeiro?", R, I, None, None),
    Question(14, "Para um portfólio, você prefere seguir um padrão pronto?", C, A, None, None),
    Question(15, "Em uma comunidade precisando de apoio, você prefere liderar para alcançar resultados?", E, S, None, None),
    Question(16, "Para um convite, você prefere seguir um padrão pronto?", C, A, None, None),
    Question(17, "Diante de uma dúvida técnica, você prefere agir na prática primeiro?", R, I, None, None),
    Question(18, "Para um conteúdo para redes, você prefere criar do seu jeito?", A, C, None, None),
    Question(19, "Em uma pessoa insegura, você prefere apoiar e acolher pessoas?", S, E, None, None),
    Question(20, "Para um vídeo curto, você prefere seguir um padrão pronto?", C, A, None, None)
  ]

  const Block02: seq<Question> := [
    Question(21, "Diante de um trabalho com pouco tempo, você prefere analisar antes de agir?", I, R, None, None),
    Question(22, "Diante de um ambiente com pressão, você prefere agir na prática primeiro?", R, I, None, None),
    Question(23, "Diante de um imprevisto no dia a dia, você prefere analisar antes de agir?", I, R, None, None),
    Question(24, "Em um cliente indeciso, você prefere liderar para alcançar resultados?", E, S, None, None),
    Question(25, "Diante de uma falha recorrente, você prefere agir na prática primeiro?", R, I, None, None),
    Question(26, "Diante de uma situação prática nova, você prefere agir na prática primeiro?", R, I, None, None),
    Question(27, "Para uma solução estética, você prefere seguir um padrão pronto?", C, A, None, None),
    Question(28, "Para um roteiro, você prefere seguir um padrão pronto?", C, A, None, None),
    Question(29, "Diante de um sistema que não funciona, você prefere analisar antes de agir?", I, R, None, None),
    Question(30, "Para uma narrativa, você prefere criar do seu jeito?", A, C, None, None)
  ]

  const Block03: seq<Question> := [
    Question(31, "Em uma reunião importante, você prefere liderar para alcançar resultados?", E, S, None, None),
    Question(32, "Diante de uma demanda urgente, você prefere analisar antes de agir?", I, R, None, None),
    Question(33, "Para uma identidade visual, você prefere criar do seu jeito?", A, C, None, None),
    Question(34, "Em um time que precisa de direção, você prefere liderar para alcançar resultados?", E, S, None, None),
    Question(35, "Em um grupo desmotivado, você prefere liderar para alcançar resultados?", E, S, None, None),
    Question(36, "Para um design de produto, você prefere criar do seu jeito?", A, C, None, None),
    Question(37, "Para um nome ou slogan, você prefere seguir um padrão pronto?", C, A, None, None),
    Question(38, "Diante de um desafio no trabalho, você prefere analisar antes de agir?", I, R, None, None),
    Question(39, "Em um novo integrante do time, você prefere apoiar e acolher pessoas?", S, E, None, None),
    Question(40, "Para uma proposta visual, você prefere criar do seu jeito?", A, C, None, None)
  ]

  const Block04: seq<Question> := [
    Question(41, "Em um projeto com muita gente, você prefere apoiar e acolher pessoas?", S, E, None, None),
    Question(42, "Em um objetivo agressivo, você prefere liderar para alcançar resultados?", E, S, None, None),
    Question(43, "Diante de um resultado abaixo do esperado, você prefere agir na prática primeiro?", R, I, None, None),
    Question(44, "Em uma turma aprendendo, você prefere apoiar e acolher pessoas?", S, E, None, None),
    Question(45, "Para um cartaz, você prefere criar do seu jeito?", A, C, None, None),
    Question(46, "Para uma campanha, você prefere criar do seu jeito?", A, C, None, None),
    Question(47, "Diante de um obstáculo inesperado, você prefere analisar antes de agir?", I, R, None, None),
    Question(48, "Em um atendimento difícil, você prefere apoiar e acolher pessoas?", S, E, None, None),
    Question(49, "Para um projeto criativo, você prefere seguir um padrão pronto?", C, A, None, None),
    Question(50, "Diante de um erro em um processo, você prefere agir na prática primeiro?", R, I, None, None)
  ]

  const Block05: seq<Question> := [
    Question(51, "Para um layout, você prefere seguir um padrão pronto?", C, A, None, None),
    Question(52, "Para uma solução estética, você prefere criar do seu jeito?", A, C, None, None),
    Question(53, "Em uma negociação tensa, você prefere apoiar e acolher pessoas?", S, E, None, None),
    Question(54, "Para um anúncio, você prefere criar do seu jeito?", A, C, None, None),
    Question(55, "Diante de um equipamento com defeito, você prefere agir na prática primeiro?", R, I, None, None),
    Question(56, "Diante de um resultado abaixo do esperado, você prefere analisar antes de agir?", I, R, None, None),
    Question(57, "Em um novo integrante do time, você prefere liderar para alcançar resultados?", E, S, None, None),
    Question(58, "Em uma meta urgente, você prefere liderar para alcançar resultados?", E, S, None, None),
    Question(59, "Diante de uma falha recorrente, você prefere analisar antes de agir?", I, R, None, None),
    Question(60, "Em uma decisão que afeta pessoas, você prefere liderar para alcançar resultados?", E, S, None, None)
  ]

  const Block06: seq<Question> := [
    Question(61, "Em uma apresentação para público, você prefere liderar para alcançar resultados?", E, S, None, None),
    Question(62, "Para um projeto criativo, você prefere criar do seu jeito?", A, C, None, None),
    Question(63, "Em um ambiente competitivo, você prefere apoiar e acolher pessoas?", S, E, None, None),
    Question(64, "Para uma proposta visual, você prefere seguir um padrão pronto?", C, A, None, None),
    Question(65, "Diante de um alerta de qualidade, você prefere agir na prática primeiro?", R, I, None, None),
    Question(66, "Para um conteúdo para redes, você prefere seguir um padrão pronto?", C, A, None, None),
    Question(67, "Para um conceito, você prefere criar do seu jeito?", A, C, None, None),
    Question(68, "Diante de um procedimento que precisa melhorar, você prefere agir na prática primeiro?", R, I, None, None),
    Question(69, "Diante de uma quebra de padrão, você prefere analisar antes de agir?", I, R, None, None),
    Question(70, "Diante de uma inconformidade, você prefere analisar antes de agir?", I, R, None, None)
  ]

  const Block07: seq<Question> := [
    Question(71, "Em uma situação emocional delicada, você prefere apoiar e acolher pessoas?", S, E, None, None),
    Question(72, "Diante de uma tarefa operacional, você prefere analisar antes de agir?", I, R, None, None),
    Question(73, "Para um material visual, você prefere criar do seu jeito?", A, C, None, None),
    Question(74, "Diante de um fluxo que precisa correção, você prefere agir na prática primeiro?", R, I, None, None),
    Question(75, "Em uma reunião importante, você prefere apoiar e acolher pessoas?", S, E, None, None),
    Question(76, "Em um projeto com muita gente, você prefere liderar para alcançar resultados?", E, S, None, None),
    Question(77, "Para um nome ou slogan, você prefere criar do seu jeito?", A, C, None, None),
    Question(78, "Para uma narrativa, você prefere seguir um padrão pronto?", C, A, None, None),
    Question(79, "Para um convite, você prefere criar do seu jeito?", A, C, None, None),
    Question(80, "Diante de um sistema que não funciona, você prefere agir na prática primeiro?", R, I, None, None)
  ]

  const Block08: seq<Question> := [
    Question(81, "Em uma equipe com dificuldades, você prefere liderar para alcançar resultados?", E, S, None, None),
    Question(82, "Em um grupo em conflito, você prefere liderar para alcançar resultados?", E, S, None, None),
    Question(83, "Para um portfólio, você prefere criar do seu jeito?", A, C, None, None),
    Question(84, "Para um cartaz, você prefere seguir um padrão pronto?", C, A, None, None),
    Question(85, "Diante de um desafio no trabalho, você prefere agir na prática primeiro?", R, I, None, None),
    Question(86, "Diante de uma decisão técnica, você prefere agir na prática primeiro?", R, I, None, None),
    Question(87, "Diante de uma anomalia nos dados, você prefere agir na prática primeiro?", R, I, None, None),
    Question(88, "Em um grupo desmotivado, você prefere apoiar e acolher pessoas?", S, E, None, None),
    Question(89, "Em uma pessoa insegura, você prefere liderar para alcançar resultados?", E, S, None, None),
    Question(90, "Em um colega com problema, você prefere apoiar e acolher pessoas?", S, E, None, None)
  ]

  const Block09: seq<Question> := [
    Question(91, "Diante de um equipamento que precisa ajuste, você prefere analisar antes de agir?", I, R, None, None),
    Question(92, "Para uma campanha, você prefere seguir um padrão pronto?", C, A, None, None),
    Question(93, "Diante de um imprevisto no dia a dia, você prefere agir na prática primeiro?", R, I, None, None),
    Question(94, "Para uma apresentação, você prefere seguir um padrão pronto?", C, A, None, None),
    Question(95, "Diante de um erro em um processo, você prefere analisar antes de agir?", I, R, None, None),
    Question(96, "Diante de um problema técnico, você prefere analisar antes de agir?", I, R, None, None),
    Question(97, "Em um time que precisa de direção, você prefere apoiar e acolher pessoas?", S, E, None, None),
    Question(98, "Em um objetivo agressivo, você prefere apoiar e acolher pessoas?", S, E, None, None),
    Question(99, "Para um vídeo curto, você prefere criar do seu jeito?", A, C, None, None),
    Question(100, "Para um texto curto, você prefere seguir um padrão pronto?", C, A, None, None)
  ]

  const Block10: seq<Question> := [
    Question(101, "Para um conceito, você prefere seguir um padrão pronto?", C, A, None, None),
    Question(102, "Em um projeto com muita gente, você prefere apoiar e acolher pessoas?", S, E, None, None),
    Question(103, "Diante de uma inconformidade, você prefere agir na prática primeiro?", R, I, None, None),
    Question(104, "Diante de um trabalho com pouco tempo, você prefere analisar antes de agir?", I, R, None, None),
    Question(105, "Diante de uma decisão técnica, você prefere analisar antes de agir?", I, R, None, None),
    Question(106, "Em uma turma aprendendo, você prefere apoiar e acolher pessoas?", S, E, None, None),
    Question(107, "Em um cliente indeciso, você prefere liderar para alcançar resultados?", E, S, None, None),
    Question(108, "Diante de uma anomalia nos dados, você prefere analisar antes de agir?", I, R, None, None),
    Question(109, "Em uma apresentação para público, você prefere apoiar e acolher pessoas?", S, E, None, None),
    Question(110, "Em uma negociação tensa, você prefere liderar para alcançar resultados?", E, S, None, None)
  ]

  const Block11: seq<Question> := [
    Question(111, "Para um convite, você prefere seguir um padrão pronto?", C, A, None, None),
    Question(112, "Diante de um fluxo que precisa correção, você prefere analisar antes de agir?", I, R, None, None),
    Question(113, "Diante de uma quebra de padrão, você prefere agir na prática primeiro?", R, I, None, None),
    Question(114, "Em uma decisão que afeta pessoas, você prefere apoiar e acolher pessoas?", S, E, None, None),
    Question(115, "Em um objetivo agressivo, você prefere liderar para alcançar resultados?", E, S, None, None),
    Question(116, "Diante de um equipamento que precisa ajuste, você prefere agir na prática primeiro?", R, I, None, None),
    Question(117, "Em um grupo desmotivado, você prefere liderar para alcançar resultados?", E, S, None, None),
    Question(118, "Em uma situação emocional delicada, você prefere liderar para alcançar resultados?", E, S, None, None),
    Question(119, "Em um atendimento difícil, você prefere apoiar e acolher pessoas?", S, E, None, None),
    Question(120, "Para uma campanha, você prefere criar do seu jeito?", A, C, None, None)
  ]

  const Block12: seq<Question> := [
    Question(121, "Para uma proposta visual, você prefere criar do seu jeito?", A, C, None, None),
    Question(122, "Em uma reunião importante, você prefere liderar para alcançar resultados?", E, S, None, None),
    Question(123, "Em uma pessoa insegura, você prefere apoiar e acolher pessoas?", S, E, None, None),
    Question(124, "Diante de um alerta de qualidade, você prefere analisar antes de agir?", I, R, None, None),
    Question(125, "Para um vídeo curto, você prefere seguir um padrão pronto?", C, A, None, None),
    Question(126, "Para um roteiro, você prefere seguir um padrão pronto?", C, A, None, None),
    Question(127, "Diante de uma situação de manutenção, você prefere agir na prática primeiro?", R, I, None, None),
    Question(128, "Para uma apresentação, você prefere criar do seu jeito?", A, C, None, None),
    Question(129, "Para uma identidade visual, você prefere criar do seu jeito?", A, C, None, None),
    Question(130, "Para um portfólio, você prefere seguir um padrão pronto?", C, A, None, None)
  ]

  const Block13: seq<Question> := [
    Question(131, "Para um design de produto, você prefere criar do seu jeito?", A, C, None, None),
    Question(132, "Em um ambiente competitivo, você prefere liderar para alcançar resultados?", E, S, None, None),
    Question(133, "Diante de um caso que exige diagnóstico, você prefere agir na prática primeiro?", R, I, None, None),
    Question(134, "Em uma comunidade precisando de apoio, você prefere liderar para alcançar resultados?", E, S, None, None),
    Question(135, "Diante de um projeto com risco, você prefere agir na prática primeiro?", R, I, None, None),
    Question(136, "Em uma meta urgente, você prefere apoiar e acolher pessoas?", S, E, None, None),
    Question(137, "Em um novo integrante do time, você prefere apoiar e acolher pessoas?", S, E, None, None),
    Question(138, "Para um anúncio, você prefere seguir um padrão pronto?", C, A, None, None),
    Question(139, "Diante de um erro que precisa de causa raiz, você prefere analisar antes de agir?", I, R, None, None),
    Question(140, "Diante de uma situação prática nova, você prefere agir na prática primeiro?", R, I, None, None)
  ]

  const Block14: seq<Question> := [
    Question(141, "Para um nome ou slogan, você prefere seguir um padrão pronto?", C, A, None, None),
    Question(142, "Diante de um ambiente com pressão, você prefere agir na prática primeiro?", R, I, None, None),
    Question(143, "Diante de uma rotina que pode ser otimizada, você prefere analisar antes de agir?", I, R, None, None),
    Question(144, "Para um cartaz, você prefere criar do seu jeito?", A, C, None, None),
    Question(145, "Para um conteúdo para redes, você prefere criar do seu jeito?", A, C, None, None),
    Question(146, "Diante de um problema com múltiplas causas, você prefere analisar antes de agir?", I, R, None, None),
    Question(147, "Diante de um problema técnico, você prefere agir na prática primeiro?", R, I, None, None),
    Question(148, "Para uma narrativa, você prefere criar do seu jeito?", A, C, None, None),
    Question(149, "Para uma solução estética, você prefere seguir um padrão pronto?", C, A, None, None),
    Question(150, "Para um layout, você prefere criar do seu jeito?", A, C, None, None)
  ]

  const Block15: seq<Question> := [
    Question(151, "Para um anúncio, você prefere criar do seu jeito?", A, C, None, None),
    Question(152, "Diante de um obstáculo inesperado, você prefere agir na prática primeiro?", R, I, None, None),
    Question(153, "Em um cliente indeciso, você prefere apoiar e acolher pessoas?", S, E, None, None),
    Question(154, "Para um portfólio, você prefere criar do seu jeito?", A, C, None, None),
    Question(155, "Em um grupo em conflito, você prefere liderar para alcançar resultados?", E, S, None, None),
    Question(156, "Para um convite, você prefere criar do seu jeito?", A, C, None, None),
    Question(157, "Diante de um sistema que não funciona, você prefere agir na prática primeiro?", R, I, None, None),
    Question(158, "Em uma decisão que afeta pessoas, você prefere liderar para alcançar resultados?", E, S, None, None),
    Question(159, "Em um time que precisa de direção, você prefere apoiar e acolher pessoas?", S, E, None, None),
    Question(160, "Para um vídeo curto, você prefere criar do seu jeito?", A, C, None, None)
  ]

  const Block16: seq<Question> := [
    Question(161, "Para um conceito, você prefere criar do seu jeito?", A, C, None, None),
    Question(162, "Diante de um bug ou falha, você prefere analisar antes de agir?", I, R, None, None),
    Question(163, "Para uma identidade visual, você prefere seguir um padrão pronto?", C, A, None, None),
    Question(164, "Diante de uma dúvida técnica, você prefere analisar antes de agir?", I, R, None, None),
    Question(165, "Para um cartaz, você prefere seguir um padrão pronto?", C, A, None, None),
    Question(166, "Diante de um ambiente com pressão, você prefere analisar antes de agir?", I, R, None, None),
    Question(167, "Em uma equipe com dificuldades, você prefere liderar para alcançar resultados?", E, S, None, None),
    Question(168, "Para um nome ou slogan, você prefere criar do seu jeito?", A, C, None, None),
    Question(169, "Para um layout, você prefere seguir um padrão pronto?", C, A, None, None),
    Question(170, "Em uma reunião importante, você prefere apoiar e acolher pessoas?", S, E, None, None)
  ]

  const Block17: seq<Question> := [
    Question(171, "Para um material visual, você prefere criar do seu jeito?", A, C, None, None),
    Question(172, "Em uma negociação tensa, você prefere apoiar e acolher pessoas?", S, E, None, None),
    Question(173, "Diante de um projeto com risco, você prefere analisar antes de agir?", I, R, None, None),
    Question(174, "Diante de uma situação de manutenção, você prefere analisar antes de agir?", I, R, None, None),
    Question(175, "Para um conteúdo para redes, você prefere seguir um padrão pronto?", C, A, None, None),
    Question(176, "Diante de um trabalho com pouco tempo, você prefere agir na prática primeiro?", R, I, None, None),
    Question(177, "Em um ambiente competitivo, você prefere apoiar e acolher pessoas?", S, E, None, None),
    Question(178, "Para um texto curto, você prefere seguir um padrão pronto?", C, A, None, None),
    Question(179, "Para uma apresentação, você prefere seguir um padrão pronto?", C, A, None, None),
    Question(180, "Diante de uma rotina que pode ser otimizada, você prefere agir na prática primeiro?", R, I, None, None)
  ]

  const Block18: seq<Question> := [
    Question(181, "Diante de um erro que precisa de causa raiz, você prefere agir na prática primeiro?", R, I, None, None),
    Question(182, "Para uma proposta visual, você prefere seguir um padrão pronto?", C, A, None, None),
    Question(183, "Diante de uma demanda urgente, você prefere agir na prática primeiro?", R, I, None, None),
    Question(184, "Em uma pessoa insegura, você prefere liderar para alcançar resultados?", E, S, None, None),
    Question(185, "Diante de um resultado abaixo do esperado, você prefere analisar antes de agir?", I, R, None, None),
    Question(186, "Para uma narrativa, você prefere seguir um padrão pronto?", C, A, None, None),
    Question(187, "Em uma turma aprendendo, você prefere liderar para alcançar resultados?", E, S, None, None),
    Question(188, "Diante de uma falha recorrente, você prefere analisar antes de agir?", I, R, None, None),
    Question(189, "Em um novo integrante do time, você prefere liderar para alcançar resultados?", E, S, None, None),
    Question(190, "Em um grupo desmotivado, você prefere apoiar e acolher pessoas?", S, E, None, None)
  ]

  const Block19: seq<Question> := [
    Question(191, "Em um projeto com muita gente, você prefere liderar para alcançar resultados?", E, S, None, None),
    Question(192, "Diante de uma situação prática nova, você prefere analisar antes de agir?", I, R, None, None),
    Question(193, "Para um roteiro, você prefere criar do seu jeito?", A, C, None, None),
    Question(194, "Em um colega com problema, você prefere apoiar e acolher pessoas?", S, E, None, None),
    Question(195, "Diante de um problema com múltiplas causas, você prefere agir na prática primeiro?", R, I, None, None),
    Question(196, "Em uma situação emocional delicada, você prefere apoiar e acolher pessoas?", S, E, None, None),
    Question(197, "Em uma apresentação para público, você prefere liderar para alcançar resultados?", E, S, None, None),
    Question(198, "Diante de um imprevisto no dia a dia, você prefere agir na prática primeiro?", R, I, None, None),
    Question(199, "Para um projeto criativo, você prefere criar do seu jeito?", A, C, None, None),
    Question(200, "Diante de um procedimento que precisa melhorar, você prefere agir na prática primeiro?", R, I, None, None)
  ]

  const Block20: seq<Question> := [
    Question(201, "Em uma comunidade precisando de apoio, você prefere liderar para alcançar resultados?", E, S, None, None),
    Question(202, "Para um conteúdo para redes, você prefere criar do seu jeito?", A, C, None, None),
    Question(203, "Em uma equipe com dificuldades, você prefere apoiar e acolher pessoas?", S, E, None, None),
    Question(204, "Diante de um obstáculo inesperado, você prefere analisar antes de agir?", I, R, None, None),
    Question(205, "Em uma apresentação para público, você prefere apoiar e acolher pessoas?", S, E, None, None),
    Question(206, "Diante de um resultado abaixo do esperado, você prefere agir na prática primeiro?", R, I, None, None),
    Question(207, "Em um objetivo agressivo, você prefere liderar para alcançar resultados?", E, S, None, None),
    Question(208, "Em uma turma aprendendo, você prefere apoiar e acolher pessoas?", S, E, None, None),
    Question(209, "Para uma apresentação, você prefere criar do seu jeito?", A, C, None, None),
    Question(210, "Em um ambiente competitivo, você prefere liderar para alcançar resultados?", E, S, None, None)
  ]

  const Block21: seq<Question> := [
    Question(211, "Diante de uma decisão técnica, você prefere analisar antes de agir?", I, R, None, None),
    Question(212, "Para um cartaz, você prefere criar do seu jeito?", A, C, None, None),
    Question(213, "Diante de um erro em um processo, você prefere agir na prática primeiro?", R, I, None, None),
    Question(214, "Diante de um equipamento com defeito, você prefere analisar antes de agir?", I, R, None, None),
    Question(215, "Diante de um sistema que não funciona, você prefere analisar antes de agir?", I, R, None, None),
    Question(216, "Em um grupo desmotivado, você prefere liderar para alcançar resultados?", E, S, None, None),
    Question(217, "Para um vídeo curto, você prefere seguir um padrão pronto?", C, A, None, None),
    Question(218, "Em uma decisão que afeta pessoas, você prefere apoiar e acolher pessoas?", S, E, None, None),
    Question(219, "Para um design de produto, você prefere criar do seu jeito?", A, C, None, None),
    Question(220, "Diante de uma dúvida técnica, você prefere agir na prática primeiro?", R, I, None, None)
  ]

  const Block22: seq<Question> := [
    Question(221, "Diante de um imprevisto no dia a dia, você prefere analisar antes de agir?", I, R, None, None),
    Question(222, "Em um colega com problema, você prefere liderar para alcançar resultados?", E, S, None, None),
    Question(223, "Para um texto curto, você prefere criar do seu jeito?", A, C, None, None),
    Question(224, "Em um atendimento difícil, você prefere apoiar e acolher pessoas?", S, E, None, None),
    Question(225, "Diante de um desafio no trabalho, você prefere analisar antes de agir?", I, R, None, None),
    Question(226, "Diante de um procedimento que precisa melhorar, você prefere analisar antes de agir?", I, R, None, None),
    Question(227, "Para um convite, você prefere seguir um padrão pronto?", C, A, None, None),
    Question(228, "Diante de uma falha recorrente, você prefere agir na prática primeiro?", R, I, None, None),
    Question(229, "Para um nome ou slogan, você prefere seguir um padrão pronto?", C, A, None, None),
    Question(230, "Em um cliente indeciso, você prefere liderar para alcançar resultados?", E, S, None, None)
  ]

  const Block23: seq<Question> := [
    Question(231, "Em uma negociação tensa, você prefere liderar para alcançar resultados?", E, S, None, None),
    Question(232, "Em um projeto com muita gente, você prefere apoiar e acolher pessoas?", S, E, None, None),
    Question(233, "Para um conceito, você prefere seguir um padrão pronto?", C, A, None, None),
    Question(234, "Em uma meta urgente, você prefere apoiar e acolher pessoas?", S, E, None, None),
    Question(235, "Diante de uma quebra de padrão, você prefere agir na prática primeiro?", R, I, None, None),
    Question(236, "Diante de uma tarefa operacional, você prefere agir na prática primeiro?", R, I, None, None),
    Question(237, "Diante de um alerta de qualidade, você prefere analisar antes de agir?", I, R, None, None),
    Question(238, "Para um portfólio, você prefere seguir um padrão pronto?", C, A, None, None),
    Question(239, "Diante de uma inconformidade, você prefere agir na prática primeiro?", R, I, None, None),
    Question(240, "Para uma campanha, você prefere criar do seu jeito?", A, C, None, None)
  ]

  const Block24: seq<Question> := [
    Question(241, "Para uma solução estética, você prefere seguir um padrão pronto?", C, A, None, None),
    Question(242, "Para um material visual, você prefere seguir um padrão pronto?", C, A, None, None),
    Question(243, "Diante de um bug ou falha, você prefere agir na prática primeiro?", R, I, None, None),
    Question(244, "Para uma identidade visual, você prefere criar do seu jeito?", A, C, None, None),
    Question(245, "Em um novo integrante do time, você prefere apoiar e acolher pessoas?", S, E, None, None),
    Question(246, "Para uma narrativa, você prefere criar do seu jeito?", A, C, None, None),
    Question(247, "Em uma situação emocional delicada, você prefere liderar para alcançar resultados?", E, S, None, None),
    Question(248, "Para uma proposta visual, você prefere criar do seu jeito?", A, C, None, None),
    Question(249, "Diante de um problema técnico, você prefere agir na prática primeiro?", R, I, None, None),
    Question(250, "Para um roteiro, você prefere seguir um padrão pronto?", C, A, None, None)
  ]

  const Block25: seq<Question> := [
    Question(251, "Para um vídeo curto, você prefere criar do seu jeito?", A, C, None, None),
    Question(252, "Em uma turma aprendendo, você prefere liderar para alcançar resultados?", E, S, None, None),
    Question(253, "Para uma narrativa, você prefere seguir um padrão pronto?", C, A, None, None),
    Question(254, "Em um cliente indeciso, você prefere apoiar e acolher pessoas?", S, E, None, None),
    Question(255, "Em uma pessoa insegura, você prefere liderar para alcançar resultados?", E, S, None, None),
    Question(256, "Para um texto curto, você prefere seguir um padrão pronto?", C, A, None, None),
    Question(257, "Diante de um equipamento que precisa ajuste, você prefere analisar antes de agir?", I, R, None, None),
    Question(258, "Para um anúncio, você prefere criar do seu jeito?", A, C, None, None),
    Question(259, "Para um projeto criativo, você prefere criar do seu jeito?", A, C, None, None),
    Question(260, "Para um cartaz, você prefere seguir um padrão pronto?", C, A, None, None)
  ]

  const Block26: seq<Question> := [
    Question(261, "Diante de uma inconformidade, você prefere analisar antes de agir?", I, R, None, None),
    Question(262, "Em uma comunidade precisando de apoio, você prefere apoiar e acolher pessoas?", S, E, None, None),
    Question(263, "Diante de uma situação de manutenção, você prefere analisar antes de agir?", I, R, None, None),
    Question(264, "Para um conteúdo para redes, você prefere seguir um padrão pronto?", C, A, None, None),
    Question(265, "Em um projeto com muita gente, você prefere liderar para alcançar resultados?", E, S, None, None),
    Question(266, "Diante de um desafio no trabalho, você prefere agir na prática primeiro?", R, I, None, None),
    Question(267, "Em um grupo em conflito, você prefere liderar para alcançar resultados?", E, S, None, None),
    Question(268, "Em um ambiente competitivo, você prefere apoiar e acolher pessoas?", S, E, None, None),
    Question(269, "Para um nome ou slogan, você prefere criar do seu jeito?", A, C, None, None),
    Question(270, "Diante de um ambiente com pressão, você prefere analisar antes de agir?", I, R, None, None)
  ]

  const Block27: seq<Question> := [
    Question(271, "Para um layout, você prefere seguir um padrão pronto?", C, A, None, None),
    Question(272, "Diante de um caso que exige diagnóstico, você prefere analisar antes de agir?", I, R, None, None),
    Question(273, "Para um material visual, você prefere criar do seu jeito?", A, C, None, None),
    Question(274, "Para uma identidade visual, você prefere seguir um padrão pronto?", C, A, None, None),
    Question(275, "Diante de um erro que precisa de causa raiz, você prefere agir na prática primeiro?", R, I, None, None),
    Question(276, "Em um time que precisa de direção, você prefere apoiar e acolher pessoas?", S, E, None, None),
    Question(277, "Em uma situação emocional delicada, você prefere apoiar e acolher pessoas?", S, E, None, None),
    Question(278, "Diante de um problema com múltiplas causas, você prefere agir na prática primeiro?", R, I, None, None),
    Question(279, "Diante de um trabalho com pouco tempo, você prefere agir na prática primeiro?", R, I, None, None),
    Question(280, "Em uma equipe com dificuldades, você prefere liderar para alcançar resultados?", E, S, None, None)
  ]

  const Block28: seq<Question> := [
    Question(281, "Diante de uma tarefa operacional, você prefere analisar antes de agir?", I, R, None, None),
    Question(282, "Em um colega com problema, você prefere apoiar e acolher pessoas?", S, E, None, None),
    Question(283, "Para uma solução estética, você prefere criar do seu jeito?", A, C, None, None),
    Question(284, "Em uma reunião importante, você prefere apoiar e acolher pessoas?", S, E, None, None),
    Question(285, "Diante de um problema técnico, você prefere analisar antes de agir?", I, R, None, None),
    Question(286, "Diante de um equipamento com defeito, você prefere agir na prática primeiro?", R, I, None, None),
    Question(287, "Para um roteiro, você prefere criar do seu jeito?", A, C, None, None),
    Question(288, "Diante de uma anomalia nos dados, você prefere agir na prática primeiro?", R, I, None, None),
    Question(289, "Diante de uma quebra de padrão, você prefere analisar antes de agir?", I, R, None, None),
    Question(290, "Diante de um alerta de qualidade, você prefere agir na prática primeiro?", R, I, None, None)
  ]

  const Block29: seq<Question> := [
    Question(291, "Para um convite, você prefere criar do seu jeito?", A, C, None, None),
    Question(292, "Diante de uma decisão técnica, você prefere agir na prática primeiro?", R, I, None, None),
    Question(293, "Para um design de produto, você prefere seguir um padrão pronto?", C, A, None, None),
    Question(294, "Para um conceito, você prefere criar do seu jeito?", A, C, None, None),
    Question(295, "Em uma negociação tensa, você prefere apoiar e acolher pessoas?", S, E, None, None),
    Question(296, "Em um novo integrante do time, você prefere liderar para alcançar resultados?", E, S, None, None),
    Question(297, "Em um atendimento difícil, você prefere liderar para alcançar resultados?", E, S, None, None),
    Question(298, "Diante de um fluxo que precisa correção, você prefere agir na prática primeiro?", R, I, None, None),
    Question(299, "Para uma apresentação, você prefere seguir um padrão pronto?", C, A, None, None),
    Question(300, "Em uma apresentação para público, você prefere liderar para alcançar resultados?", E, S, None, None)
  ]

  const Through00: seq<Question> := Block00
  const Through01: seq<Question> := Through00 + Block01
  const Through02: seq<Question> := Through01 + Block02
  const Through03: seq<Question> := Through02 + Block03
  const Through04: seq<Question> := Through03 + Block04
  const Through05: seq<Question> := Through04 + Block05
  const Through06: seq<Question> := Through05 + Block06
  const Through07: seq<Question> := Through06 + Block07
  const Through08: seq<Question> := Through07 + Block08
  const Through09: seq<Question> := Through08 + Block09
  const Through10: seq<Question> := Through09 + Block10
  const Through11: seq<Question> := Through10 + Block11
  const Through12: seq<Question> := Through11 + Block12
  const Through13: seq<Question> := Through12 + Block13
  const Through14: seq<Question> := Through13 + Block14
  const Through15: seq<Question> := Through14 + Block15
  const Through16: seq<Question> := Through15 + Block16
  const Through17: seq<Question> := Through16 + Block17
  const Through18: seq<Question> := Through17 + Block18
  const Through19: seq<Question> := Through18 + Block19
  const Through20: seq<Question> := Through19 + Block20
  const Through21: seq<Question> := Through20 + Block21
  const Through22: seq<Question> := Through21 + Block22
  const Through23: seq<Question> := Through22 + Block23
  const Through24: seq<Question> := Through23 + Block24
  const Through25: seq<Question> := Through24 + Block25
  const Through26: seq<Question> := Through25 + Block26
  const Through27: seq<Question> := Through26 + Block27
  const Through28: seq<Question> := Through27 + Block28
  const Through29: seq<Question> := Through28 + Block29

  /** `allQuestions`. */
  const AllQuestions: seq<Question> := Through29

  /** Each block of ten, evaluated: its shape and how many questions it has in each pair. */
  lemma Block00Shape()
    ensures |Block00| == 10 && BankBlock(Block00, 1)
  {
  }

  lemma Block00Axes()
    ensures Axes(Block00) == [0, 2, 1, 1, 1, 0, 0, 2, 0, 2]
  {
  }

  lemma Block00Pairs()
    ensures Occurrences(Axes(Block00), 0) == 4 && Occurrences(Axes(Block00), 1) == 3 && Occurrences(Axes(Block00), 2) == 3
  {
    Block00Axes();
    assert Occurrences([0, 2, 1, 1, 1, 0, 0, 2, 0, 2], 0) == 4 && Occurrences([0, 2, 1, 1, 1, 0, 0, 2, 0, 2], 1) == 3 && Occurrences([0, 2, 1, 1, 1, 0, 0, 2, 0, 2], 2) == 3;
  }

  lemma Block01Shape()
    ensures |Block01| == 10 && BankBlock(Block01, 11)
  {
  }

  lemma Block01Axes()
    ensures Axes(Block01) == [2, 2, 0, 1, 2, 1, 0, 1, 2, 1]
  {
  }

  lemma Block01Pairs()
    ensures Occurrences(Axes(Block01), 0) == 2 && Occurrences(Axes(Block01), 1) == 4 && Occurrences(Axes(Block01), 2) == 4
  {
    Block01Axes();
    assert Occurrences([2, 2, 0, 1, 2, 1, 0, 1, 2, 1], 0) == 2 && Occurrences([2, 2, 0, 1, 2, 1, 0, 1, 2, 1], 1) == 4 && Occurrences([2, 2, 0, 1, 2, 1, 0, 1, 2, 1], 2) == 4;
  }

  lemma Block02Shape()
    ensures |Block02| == 10 && BankBlock(Block02, 21)
  {
  }

  lemma Block02Axes()
    ensures Axes(Block02) == [0, 0, 0, 2, 0, 0, 1, 1, 0, 1]
  {
  }

  lemma Block02Pairs()
    ensures Occurrences(Axes(Block02), 0) == 6 && Occurrences(Axes(Block02), 1) == 3 && Occurrences(Axes(Block02), 2) == 1
  {
    Block02Axes();
    assert Occurrences([0, 0, 0, 2, 0, 0, 1, 1, 0, 1], 0) == 6 && Occurrences([0, 0, 0, 2, 0, 0, 1, 1, 0, 1], 1) == 3 && Occurrences([0, 0, 0, 2, 0, 0, 1, 1, 0, 1], 2) == 1;
  }

  lemma Block03Shape()
    ensures |Block03| == 10 && BankBlock(Block03, 31)
  {
  }

  lemma Block03Axes()
    ensures Axes(Block03) == [2, 0, 1, 2, 2, 1, 1, 0, 2, 1]
  {
  }

  lemma Block03Pairs()
    ensures Occurrences(Axes(Block03), 0) == 2 && Occurrences(Axes(Block03), 1) == 4 && Occurrences(Axes(Block03), 2) == 4
  {
    Block03Axes();
    assert Occurrences([2, 0, 1, 2, 2, 1, 1, 0, 2, 1], 0) == 2 && Occurrences([2, 0, 1, 2, 2, 1, 1, 0, 2, 1], 1) == 4 && Occurrences([2, 0, 1, 2, 2, 1, 1, 0, 2, 1], 2) == 4;
  }

  lemma Block04Shape()
    ensures |Block04| == 10 && BankBlock(Block04, 41)
  {
  }

  lemma Block04Axes()
    ensures Axes(Block04) == [2, 2, 0, 2, 1, 1, 0, 2, 1, 0]
  {
  }

  lemma Block04Pairs()
    ensures Occurrences(Axes(Block04), 0) == 3 && Occurrences(Axes(Block04), 1) == 3 && Occurrences(Axes(Block04), 2) == 4
  {
    Block04Axes();
    assert Occurrences([2, 2, 0, 2, 1, 1, 0, 2, 1, 0], 0) == 3 && Occurrences([2, 2, 0, 2, 1, 1, 0, 2, 1, 0], 1) == 3 && Occurrences([2, 2, 0, 2, 1, 1, 0, 2, 1, 0], 2) == 4;
  }

  lemma Block05Shape()
    ensures |Block05| == 10 && BankBlock(Block05, 51)
  {
  }

  lemma Block05Axes()
    ensures Axes(Block05) == [1, 1, 2, 1, 0, 0, 2, 2, 0, 2]
  {
  }

  lemma Block05Pairs()
    ensures Occurrences(Axes(Block05), 0) == 3 && Occurrences(Axes(Block05), 1) == 3 && Occurrences(Axes(Block05), 2) == 4
  {
    Block05Axes();
    assert Occurrences([1, 1, 2, 1, 0, 0, 2, 2, 0, 2], 0) == 3 && Occurrences([1, 1, 2, 1, 0, 0, 2, 2, 0, 2], 1) == 3 && Occurrences([1, 1, 2, 1, 0, 0, 2, 2, 0, 2], 2) == 4;
  }

  lemma Block06Shape()
    ensures |Block06| == 10 && BankBlock(Block06, 61)
  {
  }

  lemma Block06Axes()
    ensures Axes(Block06) == [2, 1, 2, 1, 0, 1, 1, 0, 0, 0]
  {
  }

  lemma Block06Pairs()
    ensures Occurrences(Axes(Block06), 0) == 4 && Occurrences(Axes(Block06), 1) == 4 && Occurrences(Axes(Block06), 2) == 2
  {
    Block06Axes();
    assert Occurrences([2, 1, 2, 1, 0, 1, 1, 0, 0, 0], 0) == 4 && Occurrences([2, 1, 2, 1, 0, 1, 1, 0, 0, 0], 1) == 4 && Occurrences([2, 1, 2, 1, 0, 1, 1, 0, 0, 0], 2) == 2;
  }

  lemma Block07Shape()
    ensures |Block07| == 10 && BankBlock(Block07, 71)
  {
  }

  lemma Block07Axes()
    ensures Axes(Block07) == [2, 0, 1, 0, 2, 2, 1, 1, 1, 0]
  {
  }

  lemma Block07Pairs()
    ensures Occurrences(Axes(Block07), 0) == 3 && Occurrences(Axes(Block07), 1) == 4 && Occurrences(Axes(Block07), 2) == 3
  {
    Block07Axes();
    assert Occurrences([2, 0, 1, 0, 2, 2, 1, 1, 1, 0], 0) == 3 && Occurrences([2, 0, 1, 0, 2, 2, 1, 1, 1, 0], 1) == 4 && Occurrences([2, 0, 1, 0, 2, 2, 1, 1, 1, 0], 2) == 3;
  }

  lemma Block08Shape()
    ensures |Block08| == 10 && BankBlock(Block08, 81)
  {
  }

  lemma Block08Axes()
    ensures Axes(Block08) == [2, 2, 1, 1, 0, 0, 0, 2, 2, 2]
  {
  }

  lemma Block08Pairs()
    ensures Occurrences(Axes(Block08), 0) == 3 && Occurrences(Axes(Block08), 1) == 2 && Occurrences(Axes(Block08), 2) == 5
  {
    Block08Axes();
    assert Occurrences([2, 2, 1, 1, 0, 0, 0, 2, 2, 2], 0) == 3 && Occurrences([2, 2, 1, 1, 0, 0, 0, 2, 2, 2], 1) == 2 && Occurrences([2, 2, 1, 1, 0, 0, 0, 2, 2, 2], 2) == 5;
  }

  lemma Block09Shape()
    ensures |Block09| == 10 && BankBlock(Block09, 91)
  {
  }

  lemma Block09Axes()
    ensures Axes(Block09) == [0, 1, 0, 1, 0, 0, 2, 2, 1, 1]
  {
  }

  lemma Block09Pairs()
    ensures Occurrences(Axes(Block09), 0) == 4 && Occurrences(Axes(Block09), 1) == 4 && Occurrences(Axes(Block09), 2) == 2
  {
    Block09Axes();
    assert Occurrences([0, 1, 0, 1, 0, 0, 2, 2, 1, 1], 0) == 4 && Occurrences([0, 1, 0, 1, 0, 0, 2, 2, 1, 1], 1) == 4 && Occurrences([0, 1, 0, 1, 0, 0, 2, 2, 1, 1], 2) == 2;
  }

  lemma Block10Shape()
    ensures |Block10| == 10 && BankBlock(Block10, 101)
  {
  }

  lemma Block10Axes()
    ensures Axes(Block10) == [1, 2, 0, 0, 0, 2, 2, 0, 2, 2]
  {
  }

  lemma Block10Pairs()
    ensures Occurrences(Axes(Block10), 0) == 4 && Occurrences(Axes(Block10), 1) == 1 && Occurrences(Axes(Block10), 2) == 5
  {
    Block10Axes();
    assert Occurrences([1, 2, 0, 0, 0, 2, 2, 0, 2, 2], 0) == 4 && Occurrences([1, 2, 0, 0, 0, 2, 2, 0, 2, 2], 1) == 1 && Occurrences([1, 2, 0, 0, 0, 2, 2, 0, 2, 2], 2) == 5;
  }

  lemma Block11Shape()
    ensures |Block11| == 10 && BankBlock(Block11, 111)
  {
  }

  lemma Block11Axes()
    ensures Axes(Block11) == [1, 0, 0, 2, 2, 0, 2, 2, 2, 1]
  {
  }

  lemma Block11Pairs()
    ensures Occurrences(Axes(Block11), 0) == 3 && Occurrences(Axes(Block11), 1) == 2 && Occurrences(Axes(Block11), 2) == 5
  {
    Block11Axes();
    assert Occurrences([1, 0, 0, 2, 2, 0, 2, 2, 2, 1], 0) == 3 && Occurrences([1, 0, 0, 2, 2, 0, 2, 2, 2, 1], 1) == 2 && Occurrences([1, 0, 0, 2, 2, 0, 2, 2, 2, 1], 2) == 5;
  }

  lemma Block12Shape()
    ensures |Block12| == 10 && BankBlock(Block12, 121)
  {
  }

  lemma Block12Axes()
    ensures Axes(Block12) == [1, 2, 2, 0, 1, 1, 0, 1, 1, 1]
  {
  }

  lemma Block12Pairs()
    ensures Occurrences(Axes(Block12), 0) == 2 && Occurrences(Axes(Block12), 1) == 6 && Occurrences(Axes(Block12), 2) == 2
  {
    Block12Axes();
    assert Occurrences([1, 2, 2, 0, 1, 1, 0, 1, 1, 1], 0) == 2 && Occurrences([1, 2, 2, 0, 1, 1, 0, 1, 1, 1], 1) == 6 && Occurrences([1, 2, 2, 0, 1, 1, 0, 1, 1, 1], 2) == 2;
  }

  lemma Block13Shape()
    ensures |Block13| == 10 && BankBlock(Block13, 131)
  {
  }

  lemma Block13Axes()
    ensures Axes(Block13) == [1, 2, 0, 2, 0, 2, 2, 1, 0, 0]
  {
  }

  lemma Block13Pairs()
    ensures Occurrences(Axes(Block13), 0) == 4 && Occurrences(Axes(Block13), 1) == 2 && Occurrences(Axes(Block13), 2) == 4
  {
    Block13Axes();
    assert Occurrences([1, 2, 0, 2, 0, 2, 2, 1, 0, 0], 0) == 4 && Occurrences([1, 2, 0, 2, 0, 2, 2, 1, 0, 0], 1) == 2 && Occurrences([1, 2, 0, 2, 0, 2, 2, 1, 0, 0], 2) == 4;
  }

  lemma Block14Shape()
    ensures |Block14| == 10 && BankBlock(Block14, 141)
  {
  }

  lemma Block14Axes()
    ensures Axes(Block14) == [1, 0, 0, 1, 1, 0, 0, 1, 1, 1]
  {
  }

  lemma Block14Pairs()
    ensures Occurrences(Axes(Block14), 0) == 4 && Occurrences(Axes(Block14), 1) == 6 && Occurrences(Axes(Block14), 2) == 0
  {
    Block14Axes();
    assert Occurrences([1, 0, 0, 1, 1, 0, 0, 1, 1, 1], 0) == 4 && Occurrences([1, 0, 0, 1, 1, 0, 0, 1, 1, 1], 1) == 6 && Occurrences([1, 0, 0, 1, 1, 0, 0, 1, 1, 1], 2) == 0;
  }

  lemma Block15Shape()
    ensures |Block15| == 10 && BankBlock(Block15, 151)
  {
  }

  lemma Block15Axes()
    ensures Axes(Block15) == [1, 0, 2, 1, 2, 1, 0, 2, 2, 1]
  {
  }

  lemma Block15Pairs()
    ensures Occurrences(Axes(Block15), 0) == 2 && Occurrences(Axes(Block15), 1) == 4 && Occurrences(Axes(Block15), 2) == 4
  {
    Block15Axes();
    assert Occurrences([1, 0, 2, 1, 2, 1, 0, 2, 2, 1], 0) == 2 && Occurrences([1, 0, 2, 1, 2, 1, 0, 2, 2, 1], 1) == 4 && Occurrences([1, 0, 2, 1, 2, 1, 0, 2, 2, 1], 2) == 4;
  }

  lemma Block16Shape()
    ensures |Block16| == 10 && BankBlock(Block16, 161)
  {
  }

  lemma Block16Axes()
    ensures Axes(Block16) == [1, 0, 1, 0, 1, 0, 2, 1, 1, 2]
  {
  }

  lemma Block16Pairs()
    ensures Occurrences(Axes(Block16), 0) == 3 && Occurrences(Axes(Block16), 1) == 5 && Occurrences(Axes(Block16), 2) == 2
  {
    Block16Axes();
    assert Occurrences([1, 0, 1, 0, 1, 0, 2, 1, 1, 2], 0) == 3 && Occurrences([1, 0, 1, 0, 1, 0, 2, 1, 1, 2], 1) == 5 && Occurrences([1, 0, 1, 0, 1, 0, 2, 1, 1, 2], 2) == 2;
  }

  lemma Block17Shape()
    ensures |Block17| == 10 && BankBlock(Block17, 171)
  {
  }

  lemma Block17Axes()
    ensures Axes(Block17) == [1, 2, 0, 0, 1, 0, 2, 1, 1, 0]
  {
  }

  lemma Block17Pairs()
    ensures Occurrences(Axes(Block17), 0) == 4 && Occurrences(Axes(Block17), 1) == 4 && Occurrences(Axes(Block17), 2) == 2
  {
    Block17Axes();
    assert Occurrences([1, 2, 0, 0, 1, 0, 2, 1, 1, 0], 0) == 4 && Occurrences([1, 2, 0, 0, 1, 0, 2, 1, 1, 0], 1) == 4 && Occurrences([1, 2, 0, 0, 1, 0, 2, 1, 1, 0], 2) == 2;
  }

  lemma Block18Shape()
    ensures |Block18| == 10 && BankBlock(Block18, 181)
  {
  }

  lemma Block18Axes()
    ensures Axes(Block18) == [0, 1, 0, 2, 0, 1, 2, 0, 2, 2]
  {
  }

  lemma Block18Pairs()
    ensures Occurrences(Axes(Block18), 0) == 4 && Occurrences(Axes(Block18), 1) == 2 && Occurrences(Axes(Block18), 2) == 4
  {
    Block18Axes();
    assert Occurrences([0, 1, 0, 2, 0, 1, 2, 0, 2, 2], 0) == 4 && Occurrences([0, 1, 0, 2, 0, 1, 2, 0, 2, 2], 1) == 2 && Occurrences([0, 1, 0, 2, 0, 1, 2, 0, 2, 2], 2) == 4;
  }

  lemma Block19Shape()
    ensures |Block19| == 10 && BankBlock(Block19, 191)
  {
  }

  lemma Block19Axes()
    ensures Axes(Block19) == [2, 0, 1, 2, 0, 2, 2, 0, 1, 0]
  {
  }

  lemma Block19Pairs()
    ensures Occurrences(Axes(Block19), 0) == 4 && Occurrences(Axes(Block19), 1) == 2 && Occurrences(Axes(Block19), 2) == 4
  {
    Block19Axes();
    assert Occurrences([2, 0, 1, 2, 0, 2, 2, 0, 1, 0], 0) == 4 && Occurrences([2, 0, 1, 2, 0, 2, 2, 0, 1, 0], 1) == 2 && Occurrences([2, 0, 1, 2, 0, 2, 2, 0, 1, 0], 2) == 4;
  }

  lemma Block20Shape()
    ensures |Block20| == 10 && BankBlock(Block20, 201)
  {
  }

  lemma Block20Axes()
    ensures Axes(Block20) == [2, 1, 2, 0, 2, 0, 2, 2, 1, 2]
  {
  }

  lemma Block20Pairs()
    ensures Occurrences(Axes(Block20), 0) == 2 && Occurrences(Axes(Block20), 1) == 2 && Occurrences(Axes(Block20), 2) == 6
  {
    Block20Axes();
    assert Occurrences([2, 1, 2, 0, 2, 0, 2, 2, 1, 2], 0) == 2 && Occurrences([2, 1, 2, 0, 2, 0, 2, 2, 1, 2], 1) == 2 && Occurrences([2, 1, 2, 0, 2, 0, 2, 2, 1, 2], 2) == 6;
  }

  lemma Block21Shape()
    ensures |Block21| == 10 && BankBlock(Block21, 211)
  {
  }

  lemma Block21Axes()
    ensures Axes(Block21) == [0, 1, 0, 0, 0, 2, 1, 2, 1, 0]
  {
  }

  lemma Block21Pairs()
    ensures Occurrences(Axes(Block21), 0) == 5 && Occurrences(Axes(Block21), 1) == 3 && Occurrences(Axes(Block21), 2) == 2
  {
    Block21Axes();
    assert Occurrences([0, 1, 0, 0, 0, 2, 1, 2, 1, 0], 0) == 5 && Occurrences([0, 1, 0, 0, 0, 2, 1, 2, 1, 0], 1) == 3 && Occurrences([0, 1, 0, 0, 0, 2, 1, 2, 1, 0], 2) == 2;
  }

  lemma Block22Shape()
    ensures |Block22| == 10 && BankBlock(Block22, 221)
  {
  }

  lemma Block22Axes()
    ensures Axes(Block22) == [0, 2, 1, 2, 0, 0, 1, 0, 1, 2]
  {
  }

  lemma Block22Pairs()
    ensures Occurrences(Axes(Block22), 0) == 4 && Occurrences(Axes(Block22), 1) == 3 && Occurrences(Axes(Block22), 2) == 3
  {
    Block22Axes();
    assert Occurrences([0, 2, 1, 2, 0, 0, 1, 0, 1, 2], 0) == 4 && Occurrences([0, 2, 1, 2, 0, 0, 1, 0, 1, 2], 1) == 3 && Occurrences([0, 2, 1, 2, 0, 0, 1, 0, 1, 2], 2) == 3;
  }

  lemma Block23Shape()
    ensures |Block23| == 10 && BankBlock(Block23, 231)
  {
  }

  lemma Block23Axes()
    ensures Axes(Block23) == [2, 2, 1, 2, 0, 0, 0, 1, 0, 1]
  {
  }

  lemma Block23Pairs()
    ensures Occurrences(Axes(Block23), 0) == 4 && Occurrences(Axes(Block23), 1) == 3 && Occurrences(Axes(Block23), 2) == 3
  {
    Block23Axes();
    assert Occurrences([2, 2, 1, 2, 0, 0, 0, 1, 0, 1], 0) == 4 && Occurrences([2, 2, 1, 2, 0, 0, 0, 1, 0, 1], 1) == 3 && Occurrences([2, 2, 1, 2, 0, 0, 0, 1, 0, 1], 2) == 3;
  }

  lemma Block24Shape()
    ensures |Block24| == 10 && BankBlock(Block24, 241)
  {
  }

  lemma Block24Axes()
    ensures Axes(Block24) == [1, 1, 0, 1, 2, 1, 2, 1, 0, 1]
  {
  }

  lemma Block24Pairs()
    ensures Occurrences(Axes(Block24), 0) == 2 && Occurrences(Axes(Block24), 1) == 6 && Occurrences(Axes(Block24), 2) == 2
  {
    Block24Axes();
    assert Occurrences([1, 1, 0, 1, 2, 1, 2, 1, 0, 1], 0) == 2 && Occurrences([1, 1, 0, 1, 2, 1, 2, 1, 0, 1], 1) == 6 && Occurrences([1, 1, 0, 1, 2, 1, 2, 1, 0, 1], 2) == 2;
  }

  lemma Block25Shape()
    ensures |Block25| == 10 && BankBlock(Block25, 251)
  {
  }

  lemma Block25Axes()
    ensures Axes(Block25) == [1, 2, 1, 2, 2, 1, 0, 1, 1, 1]
  {
  }

  lemma Block25Pairs()
    ensures Occurrences(Axes(Block25), 0) == 1 && Occurrences(Axes(Block25), 1) == 6 && Occurrences(Axes(Block25), 2) == 3
  {
    Block25Axes();
    assert Occurrences([1, 2, 1, 2, 2, 1, 0, 1, 1, 1], 0) == 1 && Occurrences([1, 2, 1, 2, 2, 1, 0, 1, 1, 1], 1) == 6 && Occurrences([1, 2, 1, 2, 2, 1, 0, 1, 1, 1], 2) == 3;
  }

  lemma Block26Shape()
    ensures |Block26| == 10 && BankBlock(Block26, 261)
  {
  }

  lemma Block26Axes()
    ensures Axes(Block26) == [0, 2, 0, 1, 2, 0, 2, 2, 1, 0]
  {
  }

  lemma Block26Pairs()
    ensures Occurrences(Axes(Block26), 0) == 4 && Occurrences(Axes(Block26), 1) == 2 && Occurrences(Axes(Block26), 2) == 4
  {
    Block26Axes();
    assert Occurrences([0, 2, 0, 1, 2, 0, 2, 2, 1, 0], 0) == 4 && Occurrences([0, 2, 0, 1, 2, 0, 2, 2, 1, 0], 1) == 2 && Occurrences([0, 2, 0, 1, 2, 0, 2, 2, 1, 0], 2) == 4;
  }

  lemma Block27Shape()
    ensures |Block27| == 10 && BankBlock(Block27, 271)
  {
  }

  lemma Block27Axes()
    ensures Axes(Block27) == [1, 0, 1, 1, 0, 2, 2, 0, 0, 2]
  {
  }

  lemma Block27Pairs()
    ensures Occurrences(Axes(Block27), 0) == 4 && Occurrences(Axes(Block27), 1) == 3 && Occurrences(Axes(Block27), 2) == 3
  {
    Block27Axes();
    assert Occurrences([1, 0, 1, 1, 0, 2, 2, 0, 0, 2], 0) == 4 && Occurrences([1, 0, 1, 1, 0, 2, 2, 0, 0, 2], 1) == 3 && Occurrences([1, 0, 1, 1, 0, 2, 2, 0, 0, 2], 2) == 3;
  }

  lemma Block28Shape()
    ensures |Block28| == 10 && BankBlock(Block28, 281)
  {
  }

  lemma Block28Axes()
    ensures Axes(Block28) == [0, 2, 1, 2, 0, 0, 1, 0, 0, 0]
  {
  }

  lemma Block28Pairs()
    ensures Occurrences(Axes(Block28), 0) == 6 && Occurrences(Axes(Block28), 1) == 2 && Occurrences(Axes(Block28), 2) == 2
  {
    Block28Axes();
    assert Occurrences([0, 2, 1, 2, 0, 0, 1, 0, 0, 0], 0) == 6 && Occurrences([0, 2, 1, 2, 0, 0, 1, 0, 0, 0], 1) == 2 && Occurrences([0, 2, 1, 2, 0, 0, 1, 0, 0, 0], 2) == 2;
  }

  lemma Block29Shape()
    ensures |Block29| == 10 && BankBlock(Block29, 291)
  {
  }

  lemma Block29Axes()
    ensures Axes(Block29) == [1, 0, 1, 1, 2, 2, 2, 0, 1, 2]
  {
  }

  lemma Block29Pairs()
    ensures Occurrences(Axes(Block29), 0) == 2 && Occurrences(Axes(Block29), 1) == 4 && Occurrences(Axes(Block29), 2) == 4
  {
    Block29Axes();
    assert Occurrences([1, 0, 1, 1, 2, 2, 2, 0, 1, 2], 0) == 2 && Occurrences([1, 0, 1, 1, 2, 2, 2, 0, 1, 2], 1) == 4 && Occurrences([1, 0, 1, 1, 2, 2, 2, 0, 1, 2], 2) == 4;
  }

  /** Block by block, the bank's prefixes: the whole bank has 300 questions,
      102 for R/I, 102 for A/C and 96 for S/E. */
  lemma Through00Facts()
    ensures |Through00| == 10 && BankBlock(Through00, 1)
    ensures Occurrences(Axes(Through00), 0) == 4 && Occurrences(Axes(Through00), 1) == 3 && Occurrences(Axes(Through00), 2) == 3
  {
    Block00Shape();
    Block00Pairs();
  }

  lemma Through01Facts()
    ensures |Through01| == 20 && BankBlock(Through01, 1)
    ensures Occurrences(Axes(Through01), 0) == 6 && Occurrences(Axes(Through01), 1) == 7 && Occurrences(Axes(Through01), 2) == 7
  {
    Block01Shape();
    Block01Pairs();
    Through00Facts();
    PrefixStep(Through00, Block01, 1);
  }

  lemma Through02Facts()
    ensures |Through02| == 30 && BankBlock(Through02, 1)
    ensures Occurrences(Axes(Through02), 0) == 12 && Occurrences(Axes(Through02), 1) == 10 && Occurrences(Axes(Through02), 2) == 8
  {
    Block02Shape();
    Block02Pairs();
    Through01Facts();
    PrefixStep(Through01, Block02, 2);
  }

  lemma Through03Facts()
    ensures |Through03| == 40 && BankBlock(Through03, 1)
    ensures Occurrences(Axes(Through03), 0) == 14 && Occurrences(Axes(Through03), 1) == 14 && Occurrences(Axes(Through03), 2) == 12
  {
    Block03Shape();
    Block03Pairs();
    Through02Facts();
    PrefixStep(Through02, Block03, 3);
  }

  lemma Through04Facts()
    ensures |Through04| == 50 && BankBlock(Through04, 1)
    ensures Occurrences(Axes(Through04), 0) == 17 && Occurrences(Axes(Through04), 1) == 17 && Occurrences(Axes(Through04), 2) == 16
  {
    Block04Shape();
    Block04Pairs();
    Through03Facts();
    PrefixStep(Through03, Block04, 4);
  }

  lemma Through05Facts()
    ensures |Through05| == 60 && BankBlock(Through05, 1)
    ensures Occurrences(Axes(Through05), 0) == 20 && Occurrences(Axes(Through05), 1) == 20 && Occurrences(Axes(Through05), 2) == 20
  {
    Block05Shape();
    Block05Pairs();
    Through04Facts();
    PrefixStep(Through04, Block05, 5);
  }

  lemma Through06Facts()
    ensures |Through06| == 70 && BankBlock(Through06, 1)
    ensures Occurrences(Axes(Through06), 0) == 24 && Occurrences(Axes(Through06), 1) == 24 && Occurrences(Axes(Through06), 2) == 22
  {
    Block06Shape();
    Block06Pairs();
    Through05Facts();
    PrefixStep(Through05, Block06, 6);
  }

  lemma Through07Facts()
    ensures |Through07| == 80 && BankBlock(Through07, 1)
    ensures Occurrences(Axes(Through07), 0) == 27 && Occurrences(Axes(Through07), 1) == 28 && Occurrences(Axes(Through07), 2) == 25
  {
    Block07Shape();
    Block07Pairs();
    Through06Facts();
    PrefixStep(Through06, Block07, 7);
  }

  lemma Through08Facts()
    ensures |Through08| == 90 && BankBlock(Through08, 1)
    ensures Occurrences(Axes(Through08), 0) == 30 && Occurrences(Axes(Through08), 1) == 30 && Occurrences(Axes(Through08), 2) == 30
  {
    Block08Shape();
    Block08Pairs();
    Through07Facts();
    PrefixStep(Through07, Block08, 8);
  }

  lemma Through09Facts()
    ensures |Through09| == 100 && BankBlock(Through09, 1)
    ensures Occurrences(Axes(Through09), 0) == 34 && Occurrences(Axes(Through09), 1) == 34 && Occurrences(Axes(Through09), 2) == 32
  {
    Block09Shape();
    Block09Pairs();
    Through08Facts();
    PrefixStep(Through08, Block09, 9);
  }

  lemma Through10Facts()
    ensures |Through10| == 110 && BankBlock(Through10, 1)
    ensures Occurrences(Axes(Through10), 0) == 38 && Occurrences(Axes(Through10), 1) == 35 && Occurrences(Axes(Through10), 2) == 37
  {
    Block10Shape();
    Block10Pairs();
    Through09Facts();
    PrefixStep(Through09, Block10, 10);
  }

  lemma Through11Facts()
    ensures |Through11| == 120 && BankBlock(Through11, 1)
    ensures Occurrences(Axes(Through11), 0) == 41 && Occurrences(Axes(Through11), 1) == 37 && Occurrences(Axes(Through11), 2) == 42
  {
    Block11Shape();
    Block11Pairs();
    Through10Facts();
    PrefixStep(Through10, Block11, 11);
  }

  lemma Through12Facts()
    ensures |Through12| == 130 && BankBlock(Through12, 1)
    ensures Occurrences(Axes(Through12), 0) == 43 && Occurrences(Axes(Through12), 1) == 43 && Occurrences(Axes(Through12), 2) == 44
  {
    Block12Shape();
    Block12Pairs();
    Through11Facts();
    PrefixStep(Through11, Block12, 12);
  }

  lemma Through13Facts()
    ensures |Through13| == 140 && BankBlock(Through13, 1)
    ensures Occurrences(Axes(Through13), 0) == 47 && Occurrences(Axes(Through13), 1) == 45 && Occurrences(Axes(Through13), 2) == 48
  {
    Block13Shape();
    Block13Pairs();
    Through12Facts();
    PrefixStep(Through12, Block13, 13);
  }

  lemma Through14Facts()
    ensures |Through14| == 150 && BankBlock(Through14, 1)
    ensures Occurrences(Axes(Through14), 0) == 51 && Occurrences(Axes(Through14), 1) == 51 && Occurrences(Axes(Through14), 2) == 48
  {
    Block14Shape();
    Block14Pairs();
    Through13Facts();
    PrefixStep(Through13, Block14, 14);
  }

  lemma Through15Facts()
    ensures |Through15| == 160 && BankBlock(Through15, 1)
    ensures Occurrences(Axes(Through15), 0) == 53 && Occurrences(Axes(Through15), 1) == 55 && Occurrences(Axes(Through15), 2) == 52
  {
    Block15Shape();
    Block15Pairs();
    Through14Facts();
    PrefixStep(Through14, Block15, 15);
  }

  lemma Through16Facts()
    ensures |Through16| == 170 && BankBlock(Through16, 1)
    ensures Occurrences(Axes(Through16), 0) == 56 && Occurrences(Axes(Through16), 1) == 60 && Occurrences(Axes(Through16), 2) == 54
  {
    Block16Shape();
    Block16Pairs();
    Through15Facts();
    PrefixStep(Through15, Block16, 16);
  }

  lemma Through17Facts()
    ensures |Through17| == 180 && BankBlock(Through17, 1)
    ensures Occurrences(Axes(Through17), 0) == 60 && Occurrences(Axes(Through17), 1) == 64 && Occurrences(Axes(Through17), 2) == 56
  {
    Block17Shape();
    Block17Pairs();
    Through16Facts();
    PrefixStep(Through16, Block17, 17);
  }

  lemma Through18Facts()
    ensures |Through18| == 190 && BankBlock(Through18, 1)
    ensures Occurrences(Axes(Through18), 0) == 64 && Occurrences(Axes(Through18), 1) == 66 && Occurrences(Axes(Through18), 2) == 60
  {
    Block18Shape();
    Block18Pairs();
    Through17Facts();
    PrefixStep(Through17, Block18, 18);
  }

  lemma Through19Facts()
    ensures |Through19| == 200 && BankBlock(Through19, 1)
    ensures Occurrences(Axes(Through19), 0) == 68 && Occurrences(Axes(Through19), 1) == 68 && Occurrences(Axes(Through19), 2) == 64
  {
    Block19Shape();
    Block19Pairs();
    Through18Facts();
    PrefixStep(Through18, Block19, 19);
  }

  lemma Through20Facts()
    ensures |Through20| == 210 && BankBlock(Through20, 1)
    ensures Occurrences(Axes(Through20), 0) == 70 && Occurrences(Axes(Through20), 1) == 70 && Occurrences(Axes(Through20), 2) == 70
  {
    Block20Shape();
    Block20Pairs();
    Through19Facts();
    PrefixStep(Through19, Block20, 20);
  }

  lemma Through21Facts()
    ensures |Through21| == 220 && BankBlock(Through21, 1)
    ensures Occurrences(Axes(Through21), 0) == 75 && Occurrences(Axes(Through21), 1) == 73 && Occurrences(Axes(Through21), 2) == 72
  {
    Block21Shape();
    Block21Pairs();
    Through20Facts();
    PrefixStep(Through20, Block21, 21);
  }

  lemma Through22Facts()
    ensures |Through22| == 230 && BankBlock(Through22, 1)
    ensures Occurrences(Axes(Through22), 0) == 79 && Occurrences(Axes(Through22), 1) == 76 && Occurrences(Axes(Through22), 2) == 75
  {
    Block22Shape();
    Block22Pairs();
    Through21Facts();
    PrefixStep(Through21, Block22, 22);
  }

  lemma Through23Facts()
    ensures |Through23| == 240 && BankBlock(Through23, 1)
    ensures Occurrences(Axes(Through23), 0) == 83 && Occurrences(Axes(Through23), 1) == 79 && Occurrences(Axes(Through23), 2) == 78
  {
    Block23Shape();
    Block23Pairs();
    Through22Facts();
    PrefixStep(Through22, Block23, 23);
  }

  lemma Through24Facts()
    ensures |Through24| == 250 && BankBlock(Through24, 1)
    ensures Occurrences(Axes(Through24), 0) == 85 && Occurrences(Axes(Through24), 1) == 85 && Occurrences(Axes(Through24), 2) == 80
  {
    Block24Shape();
    Block24Pairs();
    Through23Facts();
    PrefixStep(Through23, Block24, 24);
  }

  lemma Through25Facts()
    ensures |Through25| == 260 && BankBlock(Through25, 1)
    ensures Occurrences(Axes(Through25), 0) == 86 && Occurrences(Axes(Through25), 1) == 91 && Occurrences(Axes(Through25), 2) == 83
  {
    Block25Shape();
    Block25Pairs();
    Through24Facts();
    PrefixStep(Through24, Block25, 25);
  }

  lemma Through26Facts()
    ensures |Through26| == 270 && BankBlock(Through26, 1)
    ensures Occurrences(Axes(Through26), 0) == 90 && Occurrences(Axes(Through26), 1) == 93 && Occurrences(Axes(Through26), 2) == 87
  {
    Block26Shape();
    Block26Pairs();
    Through25Facts();
    PrefixStep(Through25, Block26, 26);
  }

  lemma Through27Facts()
    ensures |Through27| == 280 && BankBlock(Through27, 1)
    ensures Occurrences(Axes(Through27), 0) == 94 && Occurrences(Axes(Through27), 1) == 96 && Occurrences(Axes(Through27), 2) == 90
  {
    Block27Shape();
    Block27Pairs();
    Through26Facts();
    PrefixStep(Through26, Block27, 27);
  }

  lemma Through28Facts()
    ensures |Through28| == 290 && BankBlock(Through28, 1)
    ensures Occurrences(Axes(Through28), 0) == 100 && Occurrences(Axes(Through28), 1) == 98 && Occurrences(Axes(Through28), 2) == 92
  {
    Block28Shape();
    Block28Pairs();
    Through27Facts();
    PrefixStep(Through27, Block28, 28);
  }

  lemma Through29Facts()
    ensures |Through29| == 300 && BankBlock(Through29, 1)
    ensures Occurrences(Axes(Through29), 0) == 102 && Occurrences(Axes(Through29), 1) == 102 && Occurrences(Axes(Through29), 2) == 96
  {
    Block29Shape();
    Block29Pairs();
    Through28Facts();
    PrefixStep(Through28, Block29, 29);
  }

  /** The bank: 300 questions with ids 1..300 in order (so an answer keyed by
      id belongs to exactly one question), each pairing the two types of one
      axis, none carrying a subtype; 102 questions pair R with I, 102 pair A
      with C and 96 pair S with E. */
  lemma AllQuestionsShape()
    ensures |AllQuestions| == 300
    ensures forall i | 0 <= i < |AllQuestions| :: AllQuestions[i].id == i + 1
    ensures forall q | q in AllQuestions :: WellShaped(q) && q.yesSub.None? && q.noSub.None?
    ensures |PairGroup(AllQuestions, R, I)| == 102
    ensures |PairGroup(AllQuestions, A, C)| == 102
    ensures |PairGroup(AllQuestions, S, E)| == 96
  {
    Through29Facts();
    PairCountIsAxisCount(AllQuestions, 0);
    PairCountIsAxisCount(AllQuestions, 1);
    PairCountIsAxisCount(AllQuestions, 2);
  }

  /** Every pair of the compiled bank holds at least the `PerPair` questions
      a session draws from it, so every session has exactly `QuizSize`
      questions (`FullSessionSize`). */
  lemma DefaultSessionIsFull()
    ensures |PairGroup(AllQuestions, R, I)| >= PerPair
    ensures |PairGroup(AllQuestions, A, C)| >= PerPair
    ensures |PairGroup(AllQuestions, S, E)| >= PerPair
    ensures Min(PerPair, |PairGroup(AllQuestions, R, I)|) + Min(PerPair, |PairGroup(AllQuestions, A, C)|) + Min(PerPair, |PairGroup(AllQuestions, S, E)|) == QuizSize
  {
    assert PerPair == 6;
    AllQuestionsShape();
  }
}
