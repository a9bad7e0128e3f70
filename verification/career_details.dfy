/** The career catalogue: the `CareerDetail` record and the compiled default
    catalogue of 30 careers, five per type (src/data/careerDetails.ts). */
module CareerDetails {
  import opened Seqs
  import opened QuizQuestions

  /** One related subtype of a career: the label and the type it belongs to. */
  datatype RelatedSubtype = RelatedSubtype(subtype: string, riasecType: RiasecType)

  /** A career of the catalogue. */
  datatype CareerDetail = CareerDetail(
    name: string,
    riasecType: RiasecType,
    description: string,
    strengths: string,
    weaknesses: string,
    relatedSubtypes: seq<RelatedSubtype>)

  /** The official subtype-to-type table (`subtypeTypeMap`), an input of the model. */
  type SubtypeMap = map<string, RiasecType>

  /** The labels of a career's related subtypes, in order. */
  function Labels(c: CareerDetail): (r: seq<string>)
    ensures |r| == |c.relatedSubtypes|
    ensures forall i | 0 <= i < |r| :: r[i] == c.relatedSubtypes[i].subtype
  {
    Map((s: RelatedSubtype) => s.subtype, c.relatedSubtypes)
  }

  /** How a compiled career lists its subtypes: four distinct labels, each of
      the career's own type and drawn from `subdivisions`. */
  predicate ListedUnder(c: CareerDetail, subdivisions: seq<string>) {
    && |c.relatedSubtypes| == 4
    && Distinct(Labels(c))
    && forall s | s in c.relatedSubtypes :: s.riasecType == c.riasecType && s.subtype in subdivisions
  }

  /** Five careers of type `t`, each listed under `subdivisions`. */
  predicate TypeBlock(s: seq<CareerDetail>, t: RiasecType, subdivisions: seq<string>) {
    && |s| == 5
    && forall i | 0 <= i < |s| :: s[i].riasecType == t && ListedUnder(s[i], subdivisions)
  }

  /** A block is five careers, each listed as its type requires. */
  lemma FiveMakeABlock(s: seq<CareerDetail>, t: RiasecType, subdivisions: seq<string>)
    requires |s| == 5
    requires s[0].riasecType == t && ListedUnder(s[0], subdivisions)
    requires s[1].riasecType == t && ListedUnder(s[1], subdivisions)
    requires s[2].riasecType == t && ListedUnder(s[2], subdivisions)
    requires s[3].riasecType == t && ListedUnder(s[3], subdivisions)
    requires s[4].riasecType == t && ListedUnder(s[4], subdivisions)
    ensures TypeBlock(s, t, subdivisions)
  {
  }

  /** The Realista careers. */
  const CareersR: seq<CareerDetail> := [
    CareerDetail(
      "Engenharia", R,
      "O Engenheiro projeta, constrói e otimiza sistemas, estruturas e processos. Com raciocínio lógico e habilidades técnicas, transforma ideias em soluções concretas que impactam a sociedade. Se você gosta de resolver problemas práticos e ver resultados tangíveis, a engenharia é o seu caminho.",
      "Resolução de problemas complexos, pensamento analítico, criação de soluções práticas e inovadoras para desafios reais.",
      "Alta exigência técnica, pressão por prazos, necessidade constante de atualização e responsabilidade elevada.",
      [RelatedSubtype("REALISTA", R), RelatedSubtype("EXECUÇÃO", R), RelatedSubtype("PRODUÇÃO", R), RelatedSubtype("MANUTENÇÃO", R)]),
    CareerDetail(
      "Mecânica", R,
      "O Mecânico diagnostica, repara e mantém máquinas e veículos em funcionamento. Com conhecimento técnico e habilidade manual, garante que equipamentos operem com segurança e eficiência. Se você gosta de entender como as coisas funcionam por dentro, essa profissão é ideal.",
      "Trabalho prático e tangível, alta demanda no mercado, autonomia profissional e satisfação imediata.",
      "Esforço físico intenso, exposição a riscos, necessidade de ferramentas específicas e atualização tecnológica.",
      [RelatedSubtype("COISAS", R), RelatedSubtype("MANUTENÇÃO", R), RelatedSubtype("FERRAMENTAS", R), RelatedSubtype("EXECUÇÃO", R)]),
    CareerDetail(
      "Agricultura", R,
      "O Agricultor cultiva alimentos e gerencia propriedades rurais com técnicas sustentáveis. Conectado à natureza, combina conhecimento tradicional com tecnologia moderna para alimentar o mundo. Se você valoriza o trabalho ao ar livre e a conexão com a terra, essa é a sua vocação.",
      "Contato com a natureza, independência profissional, contribuição essencial para a sociedade e sustentabilidade.",
      "Dependência climática, sazonalidade de renda, trabalho físico intenso e distância dos centros urbanos.",
      [RelatedSubtype("REALISTA", R), RelatedSubtype("CONSTÂNCIA", R), RelatedSubtype("PRODUÇÃO", R), RelatedSubtype("RESISTÊNCIA", R)]),
    CareerDetail(
      "Construção Civil", R,
      "O profissional de Construção Civil edifica casas, prédios e infraestruturas que transformam cidades. Com habilidades técnicas e visão espacial, materializa projetos arquitetônicos em estruturas sólidas. Se você gosta de construir e ver obras tomando forma, essa carreira combina com você.",
      "Resultados visíveis e duradouros, mercado amplo, trabalho em equipe e impacto direto na sociedade.",
      "Riscos de segurança, exposição ao clima, exigência física e prazos apertados em obras.",
      [RelatedSubtype("EXECUÇÃO", R), RelatedSubtype("OPERAÇÃO", R), RelatedSubtype("COISAS", R), RelatedSubtype("ESTABILIDADE", R)]),
    CareerDetail(
      "Eletricista", R,
      "O Eletricista instala, mantém e repara sistemas elétricos residenciais e industriais. Com precisão técnica e conhecimento de normas de segurança, mantém a energia fluindo com segurança. Se você tem atenção aos detalhes e gosta de trabalhar com sistemas, essa profissão é para você.",
      "Alta demanda, possibilidade de autonomia, remuneração competitiva e trabalho técnico especializado.",
      "Riscos elétricos, trabalho em alturas, necessidade de certificações e atualização normativa constante.",
      [RelatedSubtype("MANUTENÇÃO", R), RelatedSubtype("FERRAMENTAS", R), RelatedSubtype("SEGURANÇA", R), RelatedSubtype("OPERAÇÃO", R)])
  ]

  lemma CareerR0Listed()
    ensures CareersR[0].riasecType == R && ListedUnder(CareersR[0], DefaultProfiles[R].subdivisions)
  {
    var subs := DefaultProfiles[R].subdivisions;
    assert subs == ["REALISTA", "COISAS", "EXECUÇÃO", "ROTINA", "SEGURANÇA", "MANUTENÇÃO", "PRODUÇÃO", "OPERAÇÃO", "RESISTÊNCIA", "CONSTÂNCIA", "FERRAMENTAS", "ESTABILIDADE"];
    assert Labels(CareersR[0]) == ["REALISTA", "EXECUÇÃO", "PRODUÇÃO", "MANUTENÇÃO"];
    assert Labels(CareersR[0])[0] == subs[0];
    assert Labels(CareersR[0])[1] == subs[2];
    assert Labels(CareersR[0])[2] == subs[6];
    assert Labels(CareersR[0])[3] == subs[5];
  }

  lemma CareerR1Listed()
    ensures CareersR[1].riasecType == R && ListedUnder(CareersR[1], DefaultProfiles[R].subdivisions)
  {
    var subs := DefaultProfiles[R].subdivisions;
    assert subs == ["REALISTA", "COISAS", "EXECUÇÃO", "ROTINA", "SEGURANÇA", "MANUTENÇÃO", "PRODUÇÃO", "OPERAÇÃO", "RESISTÊNCIA", "CONSTÂNCIA", "FERRAMENTAS", "ESTABILIDADE"];
    assert Labels(CareersR[1]) == ["COISAS", "MANUTENÇÃO", "FERRAMENTAS", "EXECUÇÃO"];
    assert Labels(CareersR[1])[0] == subs[1];
    assert Labels(CareersR[1])[1] == subs[5];
    assert Labels(CareersR[1])[2] == subs[10];
    assert Labels(CareersR[1])[3] == subs[2];
  }

  lemma CareerR2Listed()
    ensures CareersR[2].riasecType == R && ListedUnder(CareersR[2], DefaultProfiles[R].subdivisions)
  {
    var subs := DefaultProfiles[R].subdivisions;
    assert subs == ["REALISTA", "COISAS", "EXECUÇÃO", "ROTINA", "SEGURANÇA", "MANUTENÇÃO", "PRODUÇÃO", "OPERAÇÃO", "RESISTÊNCIA", "CONSTÂNCIA", "FERRAMENTAS", "ESTABILIDADE"];
    assert Labels(CareersR[2]) == ["REALISTA", "CONSTÂNCIA", "PRODUÇÃO", "RESISTÊNCIA"];
    assert Labels(CareersR[2])[0] == subs[0];
    assert Labels(CareersR[2])[1] == subs[9];
    assert Labels(CareersR[2])[2] == subs[6];
    assert Labels(CareersR[2])[3] == subs[8];
  }

  lemma CareerR3Listed()
    ensures CareersR[3].riasecType == R && ListedUnder(CareersR[3], DefaultProfiles[R].subdivisions)
  {
    var subs := DefaultProfiles[R].subdivisions;
    assert subs == ["REALISTA", "COISAS", "EXECUÇÃO", "ROTINA", "SEGURANÇA", "MANUTENÇÃO", "PRODUÇÃO", "OPERAÇÃO", "RESISTÊNCIA", "CONSTÂNCIA", "FERRAMENTAS", "ESTABILIDADE"];
    assert Labels(CareersR[3]) == ["EXECUÇÃO", "OPERAÇÃO", "COISAS", "ESTABILIDADE"];
    assert Labels(CareersR[3])[0] == subs[2];
    assert Labels(CareersR[3])[1] == subs[7];
    assert Labels(CareersR[3])[2] == subs[1];
    assert Labels(CareersR[3])[3] == subs[11];
  }

  lemma CareerR4Listed()
    ensures CareersR[4].riasecType == R && ListedUnder(CareersR[4], DefaultProfiles[R].subdivisions)
  {
    var subs := DefaultProfiles[R].subdivisions;
    assert subs == ["REALISTA", "COISAS", "EXECUÇÃO", "ROTINA", "SEGURANÇA", "MANUTENÇÃO", "PRODUÇÃO", "OPERAÇÃO", "RESISTÊNCIA", "CONSTÂNCIA", "FERRAMENTAS", "ESTABILIDADE"];
    assert Labels(CareersR[4]) == ["MANUTENÇÃO", "FERRAMENTAS", "SEGURANÇA", "OPERAÇÃO"];
    assert Labels(CareersR[4])[0] == subs[5];
    assert Labels(CareersR[4])[1] == subs[10];
    assert Labels(CareersR[4])[2] == subs[4];
    assert Labels(CareersR[4])[3] == subs[7];
  }

  lemma CareersRListed()
    ensures TypeBlock(CareersR, R, DefaultProfiles[R].subdivisions)
  {
    CareerR0Listed();
    CareerR1Listed();
    CareerR2Listed();
    CareerR3Listed();
    CareerR4Listed();
    FiveMakeABlock(CareersR, R, DefaultProfiles[R].subdivisions);
  }

  /** The Investigativo careers. */
  const CareersI: seq<CareerDetail> := [
    CareerDetail(
      "Ciência", I,
      "O Cientista investiga fenômenos naturais e desenvolve teorias que expandem o conhecimento humano. Com método rigoroso e curiosidade insaciável, busca respostas para as grandes perguntas da humanidade. Se você ama descobrir o desconhecido e desafiar limites, a ciência é seu lugar.",
      "Descobertas inovadoras, contribuição para o avanço humano, ambiente intelectual estimulante e reconhecimento.",
      "Resultados a longo prazo, competição por financiamento, pressão por publicações e isolamento acadêmico.",
      [RelatedSubtype("PESQUISA", I), RelatedSubtype("TEORIA", I), RelatedSubtype("CURIOSIDADE", I), RelatedSubtype("OBSERVAÇÃO", I)]),
    CareerDetail(
      "Pesquisa", I,
      "O Pesquisador coleta, analisa e interpreta dados para gerar conhecimento aplicável. Com disciplina metodológica e pensamento crítico, transforma perguntas em evidências concretas. Se você é movido por questionamentos e busca respostas baseadas em fatos, a pesquisa é ideal.",
      "Aprofundamento intelectual, contribuição para políticas e decisões, autonomia e flexibilidade temática.",
      "Processos demorados, burocracia acadêmica, incerteza de resultados e remuneração variável.",
      [RelatedSubtype("ANÁLISE", I), RelatedSubtype("DIAGNÓSTICO", I), RelatedSubtype("ESTUDO", I), RelatedSubtype("RACIOCÍNIO", I)]),
    CareerDetail(
      "Medicina", I,
      "O Médico diagnostica e trata doenças, promovendo a saúde e salvando vidas. Com conhecimento científico profundo e empatia, cuida do bem-estar físico e mental dos pacientes. Se você quer unir ciência e cuidado humano, a medicina oferece essa oportunidade única.",
      "Impacto direto na vida das pessoas, prestígio profissional, estabilidade financeira e aprendizado contínuo.",
      "Formação longa e exigente, carga emocional, plantões extensos e responsabilidade sobre vidas.",
      [RelatedSubtype("DIAGNÓSTICO", I), RelatedSubtype("ANÁLISE", I), RelatedSubtype("RESOLUÇÕES", I), RelatedSubtype("OBSERVAÇÃO", I)]),
    CareerDetail(
      "Tecnologia", I,
      "O profissional de Tecnologia desenvolve sistemas, aplicações e soluções digitais que transformam o mundo. Com lógica e criatividade, cria ferramentas que conectam pessoas e automatizam processos. Se você gosta de inovação e resolver problemas com código, a tech é para você.",
      "Mercado aquecido, trabalho remoto, salários competitivos e possibilidade de impacto global.",
      "Evolução tecnológica acelerada, sedentarismo, burnout e necessidade de atualização constante.",
      [RelatedSubtype("CURIOSIDADE", I), RelatedSubtype("RACIOCÍNIO", I), RelatedSubtype("RESOLUÇÕES", I), RelatedSubtype("ESTUDO", I)]),
    CareerDetail(
      "Análise de Dados", I,
      "O Analista de Dados coleta, organiza e interpreta grandes volumes de informação para orientar decisões estratégicas. Com habilidades estatísticas e visão analítica, transforma números em insights valiosos. Se você gosta de encontrar padrões e contar histórias com dados, essa é sua área.",
      "Alta demanda, versatilidade setorial, tomada de decisão baseada em evidências e salários atrativos.",
      "Trabalho repetitivo com limpeza de dados, complexidade estatística e dependência de ferramentas específicas.",
      [RelatedSubtype("ANÁLISE", I), RelatedSubtype("PESQUISA", I), RelatedSubtype("TEORIA", I), RelatedSubtype("DIAGNÓSTICO", I)])
  ]

  lemma CareerI0Listed()
    ensures CareersI[0].riasecType == I && ListedUnder(CareersI[0], DefaultProfiles[I].subdivisions)
  {
    var subs := DefaultProfiles[I].subdivisions;
    assert subs == ["ESTUDO", "ANÁLISE", "PLANEJAMENTO", "PESQUISA", "DIAGNÓSTICO", "CURIOSIDADE", "RACIOCÍNIO", "RESOLUÇÕES", "TEORIA", "OBSERVAÇÃO"];
    assert Labels(CareersI[0]) == ["PESQUISA", "TEORIA", "CURIOSIDADE", "OBSERVAÇÃO"];
    assert Labels(CareersI[0])[0] == subs[3];
    assert Labels(CareersI[0])[1] == subs[8];
    assert Labels(CareersI[0])[2] == subs[5];
    assert Labels(CareersI[0])[3] == subs[9];
  }

  lemma CareerI1Listed()
    ensures CareersI[1].riasecType == I && ListedUnder(CareersI[1], DefaultProfiles[I].subdivisions)
  {
    var subs := DefaultProfiles[I].subdivisions;
    assert subs == ["ESTUDO", "ANÁLISE", "PLANEJAMENTO", "PESQUISA", "DIAGNÓSTICO", "CURIOSIDADE", "RACIOCÍNIO", "RESOLUÇÕES", "TEORIA", "OBSERVAÇÃO"];
    assert Labels(CareersI[1]) == ["ANÁLISE", "DIAGNÓSTICO", "ESTUDO", "RACIOCÍNIO"];
    assert Labels(CareersI[1])[0] == subs[1];
    assert Labels(CareersI[1])[1] == subs[4];
    assert Labels(CareersI[1])[2] == subs[0];
    assert Labels(CareersI[1])[3] == subs[6];
  }

  lemma CareerI2Listed()
    ensures CareersI[2].riasecType == I && ListedUnder(CareersI[2], DefaultProfiles[I].subdivisions)
  {
    var subs := DefaultProfiles[I].subdivisions;
    assert subs == ["ESTUDO", "ANÁLISE", "PLANEJAMENTO", "PESQUISA", "DIAGNÓSTICO", "CURIOSIDADE", "RACIOCÍNIO", "RESOLUÇÕES", "TEORIA", "OBSERVAÇÃO"];
    assert Labels(CareersI[2]) == ["DIAGNÓSTICO", "ANÁLISE", "RESOLUÇÕES", "OBSERVAÇÃO"];
    assert Labels(CareersI[2])[0] == subs[4];
    assert Labels(CareersI[2])[1] == subs[1];
    assert Labels(CareersI[2])[2] == subs[7];
    assert Labels(CareersI[2])[3] == subs[9];
  }

  lemma CareerI3Listed()
    ensures CareersI[3].riasecType == I && ListedUnder(CareersI[3], DefaultProfiles[I].subdivisions)
  {
    var subs := DefaultProfiles[I].subdivisions;
    assert subs == ["ESTUDO", "ANÁLISE", "PLANEJAMENTO", "PESQUISA", "DIAGNÓSTICO", "CURIOSIDADE", "RACIOCÍNIO", "RESOLUÇÕES", "TEORIA", "OBSERVAÇÃO"];
    assert Labels(CareersI[3]) == ["CURIOSIDADE", "RACIOCÍNIO", "RESOLUÇÕES", "ESTUDO"];
    assert Labels(CareersI[3])[0] == subs[5];
    assert Labels(CareersI[3])[1] == subs[6];
    assert Labels(CareersI[3])[2] == subs[7];
    assert Labels(CareersI[3])[3] == subs[0];
  }

  lemma CareerI4Listed()
    ensures CareersI[4].riasecType == I && ListedUnder(CareersI[4], DefaultProfiles[I].subdivisions)
  {
    var subs := DefaultProfiles[I].subdivisions;
    assert subs == ["ESTUDO", "ANÁLISE", "PLANEJAMENTO", "PESQUISA", "DIAGNÓSTICO", "CURIOSIDADE", "RACIOCÍNIO", "RESOLUÇÕES", "TEORIA", "OBSERVAÇÃO"];
    assert Labels(CareersI[4]) == ["ANÁLISE", "PESQUISA", "TEORIA", "DIAGNÓSTICO"];
    assert Labels(CareersI[4])[0] == subs[1];
    assert Labels(CareersI[4])[1] == subs[3];
    assert Labels(CareersI[4])[2] == subs[8];
    assert Labels(CareersI[4])[3] == subs[4];
  }

  lemma CareersIListed()
    ensures TypeBlock(CareersI, I, DefaultProfiles[I].subdivisions)
  {
    CareerI0Listed();
    CareerI1Listed();
    CareerI2Listed();
    CareerI3Listed();
    CareerI4Listed();
    FiveMakeABlock(CareersI, I, DefaultProfiles[I].subdivisions);
  }

  /** The Artístico careers. */
  const CareersA: seq<CareerDetail> := [
    CareerDetail(
      "Design", A,
      "O Designer cria soluções visuais que comunicam, encantam e resolvem problemas. Com olhar estético e domínio de ferramentas criativas, transforma conceitos em experiências visuais memoráveis. Se você une criatividade e funcionalidade, o design é a sua linguagem.",
      "Expressão criativa, versatilidade de atuação, impacto visual e possibilidade de trabalho freelancer.",
      "Subjetividade das avaliações, prazos apertados, necessidade de portfólio e concorrência elevada.",
      [RelatedSubtype("EXPRESSÃO", A), RelatedSubtype("CRIATIVIDADE", A), RelatedSubtype("ESTÉTICA", A), RelatedSubtype("INOVAÇÃO", A)]),
    CareerDetail(
      "Música", A,
      "O Músico cria, interpreta e produz obras sonoras que emocionam e conectam pessoas. Com talento artístico e dedicação técnica, transforma sentimentos em melodias e ritmos. Se a música é sua forma de expressão e comunicação, essa carreira é a sua partitura.",
      "Expressão emocional profunda, conexão com o público, liberdade criativa e satisfação artística.",
      "Instabilidade financeira, competição intensa, exigência de prática constante e mercado volátil.",
      [RelatedSubtype("EXPRESSÃO", A), RelatedSubtype("IMAGINAÇÃO", A), RelatedSubtype("IDENTIDADE", A), RelatedSubtype("EXPERIÊNCIAS", A)]),
    CareerDetail(
      "Escrita", A,
      "O Escritor transforma ideias, histórias e conhecimento em textos que informam, inspiram e transformam. Com domínio da linguagem e sensibilidade narrativa, dá voz a mundos reais e imaginários. Se as palavras são o seu instrumento, a escrita é o seu palco.",
      "Autonomia criativa, possibilidade de trabalho remoto, impacto cultural e versatilidade de formatos.",
      "Renda irregular, bloqueio criativo, solidão no processo e dificuldade de reconhecimento.",
      [RelatedSubtype("IMAGINAÇÃO", A), RelatedSubtype("CRIATIVIDADE", A), RelatedSubtype("IDENTIDADE", A), RelatedSubtype("EXPRESSÃO", A)]),
    CareerDetail(
      "Artes Visuais", A,
      "O Artista Visual cria obras que provocam reflexão e emoção através de formas, cores e texturas. Com sensibilidade estética e técnica, expressa visões de mundo únicas em diferentes suportes. Se você enxerga arte em tudo ao redor, essa é a sua vocação.",
      "Liberdade de expressão total, impacto cultural, originalidade e possibilidade de reconhecimento artístico.",
      "Mercado restrito, renda instável, subjetividade da valorização e necessidade de networking.",
      [RelatedSubtype("ESTÉTICA", A), RelatedSubtype("ESTILO", A), RelatedSubtype("EXPERIÊNCIAS", A), RelatedSubtype("INOVAÇÃO", A)]),
    CareerDetail(
      "Publicidade", A,
      "O Publicitário cria campanhas que comunicam, persuadem e constroem marcas memoráveis. Com criatividade estratégica e visão de mercado, conecta produtos e serviços ao público certo. Se você gosta de unir arte e negócios, a publicidade é o seu campo.",
      "Criatividade aplicada, dinâmica de trabalho, impacto comercial e possibilidade de premiações.",
      "Pressão por resultados, prazos curtos, subjetividade dos clientes e mercado competitivo.",
      [RelatedSubtype("CRIATIVIDADE", A), RelatedSubtype("INOVAÇÃO", A), RelatedSubtype("EXPRESSÃO", A), RelatedSubtype("MUDANÇA", A)])
  ]

  lemma CareerA0Listed()
    ensures CareersA[0].riasecType == A && ListedUnder(CareersA[0], DefaultProfiles[A].subdivisions)
  {
    var subs := DefaultProfiles[A].subdivisions;
    assert subs == ["CRIATIVIDADE", "EXPRESSÃO", "MUDANÇA", "IMAGINAÇÃO", "INTUIÇÃO", "ESTÉTICA", "ESTILO", "INOVAÇÃO", "EXPERIÊNCIAS", "IDENTIDADE"];
    assert Labels(CareersA[0]) == ["EXPRESSÃO", "CRIATIVIDADE", "ESTÉTICA", "INOVAÇÃO"];
    assert Labels(CareersA[0])[0] == subs[1];
    assert Labels(CareersA[0])[1] == subs[0];
    assert Labels(CareersA[0])[2] == subs[5];
    assert Labels(CareersA[0])[3] == subs[7];
  }

  lemma CareerA1Listed()
    ensures CareersA[1].riasecType == A && ListedUnder(CareersA[1], DefaultProfiles[A].subdivisions)
  {
    var subs := DefaultProfiles[A].subdivisions;
    assert subs == ["CRIATIVIDADE", "EXPRESSÃO", "MUDANÇA", "IMAGINAÇÃO", "INTUIÇÃO", "ESTÉTICA", "ESTILO", "INOVAÇÃO", "EXPERIÊNCIAS", "IDENTIDADE"];
    assert Labels(CareersA[1]) == ["EXPRESSÃO", "IMAGINAÇÃO", "IDENTIDADE", "EXPERIÊNCIAS"];
    assert Labels(CareersA[1])[0] == subs[1];
    assert Labels(CareersA[1])[1] == subs[3];
    assert Labels(CareersA[1])[2] == subs[9];
    assert Labels(CareersA[1])[3] == subs[8];
  }

  lemma CareerA2Listed()
    ensures CareersA[2].riasecType == A && ListedUnder(CareersA[2], DefaultProfiles[A].subdivisions)
  {
    var subs := DefaultProfiles[A].subdivisions;
    assert subs == ["CRIATIVIDADE", "EXPRESSÃO", "MUDANÇA", "IMAGINAÇÃO", "INTUIÇÃO", "ESTÉTICA", "ESTILO", "INOVAÇÃO", "EXPERIÊNCIAS", "IDENTIDADE"];
    assert Labels(CareersA[2]) == ["IMAGINAÇÃO", "CRIATIVIDADE", "IDENTIDADE", "EXPRESSÃO"];
    assert Labels(CareersA[2])[0] == subs[3];
    assert Labels(CareersA[2])[1] == subs[0];
    assert Labels(CareersA[2])[2] == subs[9];
    assert Labels(CareersA[2])[3] == subs[1];
  }

  lemma CareerA3Listed()
    ensures CareersA[3].riasecType == A && ListedUnder(CareersA[3], DefaultProfiles[A].subdivisions)
  {
    var subs := DefaultProfiles[A].subdivisions;
    assert subs == ["CRIATIVIDADE", "EXPRESSÃO", "MUDANÇA", "IMAGINAÇÃO", "INTUIÇÃO", "ESTÉTICA", "ESTILO", "INOVAÇÃO", "EXPERIÊNCIAS", "IDENTIDADE"];
    assert Labels(CareersA[3]) == ["ESTÉTICA", "ESTILO", "EXPERIÊNCIAS", "INOVAÇÃO"];
    assert Labels(CareersA[3])[0] == subs[5];
    assert Labels(CareersA[3])[1] == subs[6];
    assert Labels(CareersA[3])[2] == subs[8];
    assert Labels(CareersA[3])[3] == subs[7];
  }

  lemma CareerA4Listed()
    ensures CareersA[4].riasecType == A && ListedUnder(CareersA[4], DefaultProfiles[A].subdivisions)
  {
    var subs := DefaultProfiles[A].subdivisions;
    assert subs == ["CRIATIVIDADE", "EXPRESSÃO", "MUDANÇA", "IMAGINAÇÃO", "INTUIÇÃO", "ESTÉTICA", "ESTILO", "INOVAÇÃO", "EXPERIÊNCIAS", "IDENTIDADE"];
    assert Labels(CareersA[4]) == ["CRIATIVIDADE", "INOVAÇÃO", "EXPRESSÃO", "MUDANÇA"];
    assert Labels(CareersA[4])[0] == subs[0];
    assert Labels(CareersA[4])[1] == subs[7];
    assert Labels(CareersA[4])[2] == subs[1];
    assert Labels(CareersA[4])[3] == subs[2];
  }

  lemma CareersAListed()
    ensures TypeBlock(CareersA, A, DefaultProfiles[A].subdivisions)
  {
    CareerA0Listed();
    CareerA1Listed();
    CareerA2Listed();
    CareerA3Listed();
    CareerA4Listed();
    FiveMakeABlock(CareersA, A, DefaultProfiles[A].subdivisions);
  }

  /** The Social careers. */
  const CareersS: seq<CareerDetail> := [
    CareerDetail(
      "Educação", S,
      "O Educador forma cidadãos, transmite conhecimento e inspira transformações sociais. Com paciência e didática, cria ambientes de aprendizagem que moldam o futuro. Se você acredita no poder transformador do ensino e quer impactar gerações, a educação é sua missão.",
      "Impacto social profundo, realização pessoal, estabilidade em redes públicas e férias regulares.",
      "Baixa remuneração em muitos contextos, desgaste emocional, burocracia e falta de recursos.",
      [RelatedSubtype("ENSINO", S), RelatedSubtype("COMUNICAÇÃO", S), RelatedSubtype("EMPATIA", S), RelatedSubtype("COOPERAÇÃO", S)]),
    CareerDetail(
      "Psicologia", S,
      "O Psicólogo estuda o comportamento humano e auxilia pessoas a compreenderem suas emoções e relações. Com escuta ativa e técnicas terapêuticas, promove saúde mental e autoconhecimento. Se você se interessa pela mente humana e quer ajudar pessoas, a psicologia é para você.",
      "Ajuda direta às pessoas, crescimento pessoal constante, versatilidade de atuação e demanda crescente.",
      "Carga emocional elevada, formação contínua necessária, início de carreira desafiador e limites éticos.",
      [RelatedSubtype("ESCUTA", S), RelatedSubtype("EMPATIA", S), RelatedSubtype("CUIDADO", S), RelatedSubtype("APOIO", S)]),
    CareerDetail(
      "Serviço Social", S,
      "O Assistente Social defende direitos e promove a inclusão de populações vulneráveis. Com compromisso ético e visão sistêmica, atua na mediação entre indivíduos e políticas públicas. Se você quer lutar por justiça social e transformar realidades, essa é sua profissão.",
      "Impacto social direto, atuação em políticas públicas, diversidade de campos e senso de propósito.",
      "Condições de trabalho difíceis, sobrecarga emocional, baixa remuneração e frustrações sistêmicas.",
      [RelatedSubtype("AJUDA", S), RelatedSubtype("GRUPO", S), RelatedSubtype("COLABORAÇÃO", S), RelatedSubtype("COOPERAÇÃO", S)]),
    CareerDetail(
      "Saúde", S,
      "O profissional de Saúde cuida do bem-estar físico e emocional das pessoas. Com conhecimento técnico e humanidade, promove prevenção, tratamento e reabilitação. Se você quer dedicar sua vida a cuidar dos outros e fazer a diferença, a área da saúde é o seu chamado.",
      "Propósito claro, estabilidade de emprego, reconhecimento social e aprendizado constante.",
      "Plantões e horários irregulares, exposição a riscos, pressão emocional e cansaço físico.",
      [RelatedSubtype("CUIDADO", S), RelatedSubtype("EMPATIA", S), RelatedSubtype("APOIO", S), RelatedSubtype("ENSINO", S)]),
    CareerDetail(
      "RH", S,
      "O profissional de RH gerencia pessoas, desenvolve talentos e constrói culturas organizacionais saudáveis. Com habilidades interpessoais e visão estratégica, conecta objetivos da empresa ao bem-estar dos colaboradores. Se você gosta de pessoas e organizações, o RH é ideal.",
      "Influência na cultura organizacional, desenvolvimento de pessoas, versatilidade e crescimento profissional.",
      "Mediação de conflitos, decisões difíceis como demissões, burocracia e pressão por resultados.",
      [RelatedSubtype("COMUNICAÇÃO", S), RelatedSubtype("GRUPO", S), RelatedSubtype("COLABORAÇÃO", S), RelatedSubtype("ESCUTA", S)])
  ]

  lemma CareerS0Listed()
    ensures CareersS[0].riasecType == S && ListedUnder(CareersS[0], DefaultProfiles[S].subdivisions)
  {
    var subs := DefaultProfiles[S].subdivisions;
    assert subs == ["GRUPO", "COMUNICAÇÃO", "EMPATIA", "COLABORAÇÃO", "AJUDA", "ENSINO", "CUIDADO", "ESCUTA", "APOIO", "COOPERAÇÃO"];
    assert Labels(CareersS[0]) == ["ENSINO", "COMUNICAÇÃO", "EMPATIA", "COOPERAÇÃO"];
    assert Labels(CareersS[0])[0] == subs[5];
    assert Labels(CareersS[0])[1] == subs[1];
    assert Labels(CareersS[0])[2] == subs[2];
    assert Labels(CareersS[0])[3] == subs[9];
  }

  lemma CareerS1Listed()
    ensures CareersS[1].riasecType == S && ListedUnder(CareersS[1], DefaultProfiles[S].subdivisions)
  {
    var subs := DefaultProfiles[S].subdivisions;
    assert subs == ["GRUPO", "COMUNICAÇÃO", "EMPATIA", "COLABORAÇÃO", "AJUDA", "ENSINO", "CUIDADO", "ESCUTA", "APOIO", "COOPERAÇÃO"];
    assert Labels(CareersS[1]) == ["ESCUTA", "EMPATIA", "CUIDADO", "APOIO"];
    assert Labels(CareersS[1])[0] == subs[7];
    assert Labels(CareersS[1])[1] == subs[2];
    assert Labels(CareersS[1])[2] == subs[6];
    assert Labels(CareersS[1])[3] == subs[8];
  }

  lemma CareerS2Listed()
    ensures CareersS[2].riasecType == S && ListedUnder(CareersS[2], DefaultProfiles[S].subdivisions)
  {
    var subs := DefaultProfiles[S].subdivisions;
    assert subs == ["GRUPO", "COMUNICAÇÃO", "EMPATIA", "COLABORAÇÃO", "AJUDA", "ENSINO", "CUIDADO", "ESCUTA", "APOIO", "COOPERAÇÃO"];
    assert Labels(CareersS[2]) == ["AJUDA", "GRUPO", "COLABORAÇÃO", "COOPERAÇÃO"];
    assert Labels(CareersS[2])[0] == subs[4];
    assert Labels(CareersS[2])[1] == subs[0];
    assert Labels(CareersS[2])[2] == subs[3];
    assert Labels(CareersS[2])[3] == subs[9];
  }

  lemma CareerS3Listed()
    ensures CareersS[3].riasecType == S && ListedUnder(CareersS[3], DefaultProfiles[S].subdivisions)
  {
    var subs := DefaultProfiles[S].subdivisions;
    assert subs == ["GRUPO", "COMUNICAÇÃO", "EMPATIA", "COLABORAÇÃO", "AJUDA", "ENSINO", "CUIDADO", "ESCUTA", "APOIO", "COOPERAÇÃO"];
    assert Labels(CareersS[3]) == ["CUIDADO", "EMPATIA", "APOIO", "ENSINO"];
    assert Labels(CareersS[3])[0] == subs[6];
    assert Labels(CareersS[3])[1] == subs[2];
    assert Labels(CareersS[3])[2] == subs[8];
    assert Labels(CareersS[3])[3] == subs[5];
  }

  lemma CareerS4Listed()
    ensures CareersS[4].riasecType == S && ListedUnder(CareersS[4], DefaultProfiles[S].subdivisions)
  {
    var subs := DefaultProfiles[S].subdivisions;
    assert subs == ["GRUPO", "COMUNICAÇÃO", "EMPATIA", "COLABORAÇÃO", "AJUDA", "ENSINO", "CUIDADO", "ESCUTA", "APOIO", "COOPERAÇÃO"];
    assert Labels(CareersS[4]) == ["COMUNICAÇÃO", "GRUPO", "COLABORAÇÃO", "ESCUTA"];
    assert Labels(CareersS[4])[0] == subs[1];
    assert Labels(CareersS[4])[1] == subs[0];
    assert Labels(CareersS[4])[2] == subs[3];
    assert Labels(CareersS[4])[3] == subs[7];
  }

  lemma CareersSListed()
    ensures TypeBlock(CareersS, S, DefaultProfiles[S].subdivisions)
  {
    CareerS0Listed();
    CareerS1Listed();
    CareerS2Listed();
    CareerS3Listed();
    CareerS4Listed();
    FiveMakeABlock(CareersS, S, DefaultProfiles[S].subdivisions);
  }

  /** The Empreendedor careers. */
  const CareersE: seq<CareerDetail> := [
    CareerDetail(
      "Administração", E,
      "O Administrador planeja, organiza e dirige recursos para alcançar objetivos organizacionais. Com visão estratégica e capacidade de liderança, otimiza processos e conduz equipes ao sucesso. Se você gosta de tomar decisões e gerenciar pessoas, a administração é sua arena.",
      "Versatilidade de atuação, visão ampla de negócios, oportunidades de liderança e crescimento na carreira.",
      "Mercado saturado, necessidade de diferenciação, pressão por resultados e tomada de decisões difíceis.",
      [RelatedSubtype("LIDERANÇA", E), RelatedSubtype("DECISÃO", E), RelatedSubtype("VISÃO", E), RelatedSubtype("INICIATIVA", E)]),
    CareerDetail(
      "Vendas", E,
      "O profissional de Vendas conecta produtos e serviços às necessidades dos clientes. Com habilidade de comunicação e persuasão, constrói relacionamentos comerciais duradouros e gera resultados. Se você é movido por metas e gosta de negociar, vendas é o seu terreno.",
      "Potencial de ganhos ilimitados, desenvolvimento interpessoal, dinamismo e meritocracia.",
      "Pressão por metas, rejeição constante, instabilidade de comissões e competitividade intensa.",
      [RelatedSubtype("PERSUASÃO", E), RelatedSubtype("INFLUÊNCIA", E), RelatedSubtype("COMPETIÇÃO", E), RelatedSubtype("AMBIÇÃO", E)]),
    CareerDetail(
      "Marketing", E,
      "O profissional de Marketing cria estratégias para posicionar marcas e conquistar mercados. Com criatividade e análise de dados, desenvolve campanhas que conectam empresas a seus públicos. Se você une visão de negócio com comunicação criativa, o marketing é para você.",
      "Criatividade estratégica, impacto nos negócios, mercado dinâmico e possibilidade de trabalho digital.",
      "Resultados nem sempre mensuráveis, mudanças constantes de tendência, pressão e concorrência.",
      [RelatedSubtype("INFLUÊNCIA", E), RelatedSubtype("EXPOSIÇÃO", E), RelatedSubtype("RISCO", E), RelatedSubtype("VISÃO", E)]),
    CareerDetail(
      "Direito", E,
      "O profissional do Direito defende interesses, resolve conflitos e garante a aplicação da justiça. Com argumentação sólida e conhecimento jurídico, atua em tribunais, empresas e órgãos públicos. Se você busca justiça e gosta de debater ideias, o Direito é seu campo.",
      "Prestígio profissional, estabilidade em concursos, diversidade de áreas e impacto social.",
      "Mercado saturado, formação longa, pressão por prazos processuais e carga de leitura intensa.",
      [RelatedSubtype("DECISÃO", E), RelatedSubtype("PERSUASÃO", E), RelatedSubtype("LIDERANÇA", E), RelatedSubtype("AMBIÇÃO", E)]),
    CareerDetail(
      "Gestão", E,
      "O Gestor coordena equipes, processos e recursos para atingir metas organizacionais. Com capacidade analítica e habilidades de liderança, transforma estratégias em resultados concretos. Se você gosta de coordenar pessoas e projetos, a gestão é a sua vocação.",
      "Posição de influência, visão sistêmica, crescimento na carreira e impacto organizacional.",
      "Alta responsabilidade, gestão de conflitos, cobrança por resultados e tomada de decisões sob pressão.",
      [RelatedSubtype("LIDERANÇA", E), RelatedSubtype("INICIATIVA", E), RelatedSubtype("COMPETIÇÃO", E), RelatedSubtype("VISÃO", E)])
  ]

  lemma CareerE0Listed()
    ensures CareersE[0].riasecType == E && ListedUnder(CareersE[0], DefaultProfiles[E].subdivisions)
  {
    var subs := DefaultProfiles[E].subdivisions;
    assert subs == ["LIDERANÇA", "RISCO", "EXPOSIÇÃO", "PERSUASÃO", "INFLUÊNCIA", "DECISÃO", "AMBIÇÃO", "COMPETIÇÃO", "INICIATIVA", "VISÃO"];
    assert Labels(CareersE[0]) == ["LIDERANÇA", "DECISÃO", "VISÃO", "INICIATIVA"];
    assert Labels(CareersE[0])[0] == subs[0];
    assert Labels(CareersE[0])[1] == subs[5];
    assert Labels(CareersE[0])[2] == subs[9];
    assert Labels(CareersE[0])[3] == subs[8];
  }

  lemma CareerE1Listed()
    ensures CareersE[1].riasecType == E && ListedUnder(CareersE[1], DefaultProfiles[E].subdivisions)
  {
    var subs := DefaultProfiles[E].subdivisions;
    assert subs == ["LIDERANÇA", "RISCO", "EXPOSIÇÃO", "PERSUASÃO", "INFLUÊNCIA", "DECISÃO", "AMBIÇÃO", "COMPETIÇÃO", "INICIATIVA", "VISÃO"];
    assert Labels(CareersE[1]) == ["PERSUASÃO", "INFLUÊNCIA", "COMPETIÇÃO", "AMBIÇÃO"];
    assert Labels(CareersE[1])[0] == subs[3];
    assert Labels(CareersE[1])[1] == subs[4];
    assert Labels(CareersE[1])[2] == subs[7];
    assert Labels(CareersE[1])[3] == subs[6];
  }

  lemma CareerE2Listed()
    ensures CareersE[2].riasecType == E && ListedUnder(CareersE[2], DefaultProfiles[E].subdivisions)
  {
    var subs := DefaultProfiles[E].subdivisions;
    assert subs == ["LIDERANÇA", "RISCO", "EXPOSIÇÃO", "PERSUASÃO", "INFLUÊNCIA", "DECISÃO", "AMBIÇÃO", "COMPETIÇÃO", "INICIATIVA", "VISÃO"];
    assert Labels(CareersE[2]) == ["INFLUÊNCIA", "EXPOSIÇÃO", "RISCO", "VISÃO"];
    assert Labels(CareersE[2])[0] == subs[4];
    assert Labels(CareersE[2])[1] == subs[2];
    assert Labels(CareersE[2])[2] == subs[1];
    assert Labels(CareersE[2])[3] == subs[9];
  }

  lemma CareerE3Listed()
    ensures CareersE[3].riasecType == E && ListedUnder(CareersE[3], DefaultProfiles[E].subdivisions)
  {
    var subs := DefaultProfiles[E].subdivisions;
    assert subs == ["LIDERANÇA", "RISCO", "EXPOSIÇÃO", "PERSUASÃO", "INFLUÊNCIA", "DECISÃO", "AMBIÇÃO", "COMPETIÇÃO", "INICIATIVA", "VISÃO"];
    assert Labels(CareersE[3]) == ["DECISÃO", "PERSUASÃO", "LIDERANÇA", "AMBIÇÃO"];
    assert Labels(CareersE[3])[0] == subs[5];
    assert Labels(CareersE[3])[1] == subs[3];
    assert Labels(CareersE[3])[2] == subs[0];
    assert Labels(CareersE[3])[3] == subs[6];
  }

  lemma CareerE4Listed()
    ensures CareersE[4].riasecType == E && ListedUnder(CareersE[4], DefaultProfiles[E].subdivisions)
  {
    var subs := DefaultProfiles[E].subdivisions;
    assert subs == ["LIDERANÇA", "RISCO", "EXPOSIÇÃO", "PERSUASÃO", "INFLUÊNCIA", "DECISÃO", "AMBIÇÃO", "COMPETIÇÃO", "INICIATIVA", "VISÃO"];
    assert Labels(CareersE[4]) == ["LIDERANÇA", "INICIATIVA", "COMPETIÇÃO", "VISÃO"];
    assert Labels(CareersE[4])[0] == subs[0];
    assert Labels(CareersE[4])[1] == subs[8];
    assert Labels(CareersE[4])[2] == subs[7];
    assert Labels(CareersE[4])[3] == subs[9];
  }

  lemma CareersEListed()
    ensures TypeBlock(CareersE, E, DefaultProfiles[E].subdivisions)
  {
    CareerE0Listed();
    CareerE1Listed();
    CareerE2Listed();
    CareerE3Listed();
    CareerE4Listed();
    FiveMakeABlock(CareersE, E, DefaultProfiles[E].subdivisions);
  }

  /** The Convencional careers. */
  const CareersC: seq<CareerDetail> := [
    CareerDetail(
      "Contabilidade", C,
      "O Contador registra, analisa e interpreta informações financeiras de empresas e pessoas. Com precisão numérica e conhecimento fiscal, garante a saúde financeira e conformidade legal. Se você gosta de números e organização, a contabilidade é o seu domínio.",
      "Demanda constante, estabilidade profissional, possibilidade de autonomia e essencialidade em qualquer empresa.",
      "Trabalho repetitivo, pressão em períodos fiscais, atualização legislativa constante e responsabilidade legal.",
      [RelatedSubtype("DADOS", C), RelatedSubtype("CONTROLE", C), RelatedSubtype("PRECISÃO", C), RelatedSubtype("DOCUMENTAÇÃO", C)]),
    CareerDetail(
      "Finanças", C,
      "O profissional de Finanças gerencia recursos monetários, investimentos e riscos financeiros. Com visão analítica e conhecimento de mercado, otimiza o patrimônio de empresas e indivíduos. Se você se interessa por economia e números, finanças é a sua especialidade.",
      "Altos salários, mercado global, impacto estratégico nas organizações e crescimento profissional.",
      "Alta pressão, volatilidade de mercados, longas jornadas e estresse constante com resultados.",
      [RelatedSubtype("ORGANIZAÇÃO", C), RelatedSubtype("ESTRUTURA", C), RelatedSubtype("DADOS", C), RelatedSubtype("PLANEJAMENTO", C)]),
    CareerDetail(
      "Administração", C,
      "O Administrador operacional mantém a engrenagem da empresa funcionando com eficiência. Com métodos organizacionais e atenção aos processos, garante que tudo siga conforme o planejado. Se você valoriza ordem, controle e eficiência, a administração operacional é para você.",
      "Versatilidade, visão holística da empresa, oportunidades em todos os setores e estabilidade.",
      "Burocracia, decisões baseadas em restrições, pressão por eficiência e gestão de recursos limitados.",
      [RelatedSubtype("ORGANIZAÇÃO", C), RelatedSubtype("CONTROLE", C), RelatedSubtype("REGRAS", C), RelatedSubtype("CONFORMIDADE", C)]),
    CareerDetail(
      "Logística", C,
      "O profissional de Logística planeja e coordena o fluxo de produtos, do fornecedor ao consumidor final. Com organização e visão sistêmica, otimiza prazos, custos e processos de distribuição. Se você gosta de planejar rotas e otimizar operações, a logística é seu mapa.",
      "Mercado em crescimento com e-commerce, impacto direto nos custos, dinamismo e visão global.",
      "Pressão por prazos, imprevistos operacionais, horários irregulares e gestão de cadeia complexa.",
      [RelatedSubtype("ESTRUTURA", C), RelatedSubtype("PLANEJAMENTO", C), RelatedSubtype("PADRÃO", C), RelatedSubtype("CONTROLE", C)]),
    CareerDetail(
      "Auditoria", C,
      "O Auditor examina processos, contas e controles para garantir conformidade e transparência. Com olhar crítico e metodologia rigorosa, identifica riscos e oportunidades de melhoria. Se você tem atenção aos detalhes e senso de justiça, a auditoria é seu campo.",
      "Prestígio profissional, remuneração atrativa, atuação estratégica e demanda regulatória constante.",
      "Trabalho minucioso e repetitivo, viagens frequentes, pressão por prazos e confronto com irregularidades.",
      [RelatedSubtype("PRECISÃO", C), RelatedSubtype("REGRAS", C), RelatedSubtype("CONFORMIDADE", C), RelatedSubtype("DOCUMENTAÇÃO", C)])
  ]

  lemma CareerC0Listed()
    ensures CareersC[0].riasecType == C && ListedUnder(CareersC[0], DefaultProfiles[C].subdivisions)
  {
    var subs := DefaultProfiles[C].subdivisions;
    assert subs == ["ORGANIZAÇÃO", "CONTROLE", "PADRÃO", "REGRAS", "PRECISÃO", "ESTRUTURA", "PLANEJAMENTO", "CONFORMIDADE", "DADOS", "DOCUMENTAÇÃO"];
    assert Labels(CareersC[0]) == ["DADOS", "CONTROLE", "PRECISÃO", "DOCUMENTAÇÃO"];
    assert Labels(CareersC[0])[0] == subs[8];
    assert Labels(CareersC[0])[1] == subs[1];
    assert Labels(CareersC[0])[2] == subs[4];
    assert Labels(CareersC[0])[3] == subs[9];
  }

  lemma CareerC1Listed()
    ensures CareersC[1].riasecType == C && ListedUnder(CareersC[1], DefaultProfiles[C].subdivisions)
  {
    var subs := DefaultProfiles[C].subdivisions;
    assert subs == ["ORGANIZAÇÃO", "CONTROLE", "PADRÃO", "REGRAS", "PRECISÃO", "ESTRUTURA", "PLANEJAMENTO", "CONFORMIDADE", "DADOS", "DOCUMENTAÇÃO"];
    assert Labels(CareersC[1]) == ["ORGANIZAÇÃO", "ESTRUTURA", "DADOS", "PLANEJAMENTO"];
    assert Labels(CareersC[1])[0] == subs[0];
    assert Labels(CareersC[1])[1] == subs[5];
    assert Labels(CareersC[1])[2] == subs[8];
    assert Labels(CareersC[1])[3] == subs[6];
  }

  lemma CareerC2Listed()
    ensures CareersC[2].riasecType == C && ListedUnder(CareersC[2], DefaultProfiles[C].subdivisions)
  {
    var subs := DefaultProfiles[C].subdivisions;
    assert subs == ["ORGANIZAÇÃO", "CONTROLE", "PADRÃO", "REGRAS", "PRECISÃO", "ESTRUTURA", "PLANEJAMENTO", "CONFORMIDADE", "DADOS", "DOCUMENTAÇÃO"];
    assert Labels(CareersC[2]) == ["ORGANIZAÇÃO", "CONTROLE", "REGRAS", "CONFORMIDADE"];
    assert Labels(CareersC[2])[0] == subs[0];
    assert Labels(CareersC[2])[1] == subs[1];
    assert Labels(CareersC[2])[2] == subs[3];
    assert Labels(CareersC[2])[3] == subs[7];
  }

  lemma CareerC3Listed()
    ensures CareersC[3].riasecType == C && ListedUnder(CareersC[3], DefaultProfiles[C].subdivisions)
  {
    var subs := DefaultProfiles[C].subdivisions;
    assert subs == ["ORGANIZAÇÃO", "CONTROLE", "PADRÃO", "REGRAS", "PRECISÃO", "ESTRUTURA", "PLANEJAMENTO", "CONFORMIDADE", "DADOS", "DOCUMENTAÇÃO"];
    assert Labels(CareersC[3]) == ["ESTRUTURA", "PLANEJAMENTO", "PADRÃO", "CONTROLE"];
    assert Labels(CareersC[3])[0] == subs[5];
    assert Labels(CareersC[3])[1] == subs[6];
    assert Labels(CareersC[3])[2] == subs[2];
    assert Labels(CareersC[3])[3] == subs[1];
  }

  lemma CareerC4Listed()
    ensures CareersC[4].riasecType == C && ListedUnder(CareersC[4], DefaultProfiles[C].subdivisions)
  {
    var subs := DefaultProfiles[C].subdivisions;
    assert subs == ["ORGANIZAÇÃO", "CONTROLE", "PADRÃO", "REGRAS", "PRECISÃO", "ESTRUTURA", "PLANEJAMENTO", "CONFORMIDADE", "DADOS", "DOCUMENTAÇÃO"];
    assert Labels(CareersC[4]) == ["PRECISÃO", "REGRAS", "CONFORMIDADE", "DOCUMENTAÇÃO"];
    assert Labels(CareersC[4])[0] == subs[4];
    assert Labels(CareersC[4])[1] == subs[3];
    assert Labels(CareersC[4])[2] == subs[7];
    assert Labels(CareersC[4])[3] == subs[9];
  }

  lemma CareersCListed()
    ensures TypeBlock(CareersC, C, DefaultProfiles[C].subdivisions)
  {
    CareerC0Listed();
    CareerC1Listed();
    CareerC2Listed();
    CareerC3Listed();
    CareerC4Listed();
    FiveMakeABlock(CareersC, C, DefaultProfiles[C].subdivisions);
  }

  /** `careerDetails`: the six blocks in the order R, I, A, S, E, C. */
  const DefaultCareers: seq<CareerDetail> := CareersR + CareersI + CareersA + CareersS + CareersE + CareersC

  /** Six blocks in type order make a catalogue whose `i`-th career has type
      `AllTypes[i / 5]` and lists its subtypes as that type requires. */
  lemma SixBlocks(b0: seq<CareerDetail>, b1: seq<CareerDetail>, b2: seq<CareerDetail>, b3: seq<CareerDetail>, b4: seq<CareerDetail>, b5: seq<CareerDetail>, profiles: ProfileTable)
    requires IsTotal(profiles)
    requires TypeBlock(b0, R, profiles[R].subdivisions) && TypeBlock(b1, I, profiles[I].subdivisions)
    requires TypeBlock(b2, A, profiles[A].subdivisions) && TypeBlock(b3, S, profiles[S].subdivisions)
    requires TypeBlock(b4, E, profiles[E].subdivisions) && TypeBlock(b5, C, profiles[C].subdivisions)
    ensures |b0 + b1 + b2 + b3 + b4 + b5| == 30
    ensures forall i | 0 <= i < 30 :: (b0 + b1 + b2 + b3 + b4 + b5)[i].riasecType == AllTypes[i / 5]
    ensures forall i | 0 <= i < 30 :: ListedUnder((b0 + b1 + b2 + b3 + b4 + b5)[i], profiles[AllTypes[i / 5]].subdivisions)
  {
    var all := b0 + b1 + b2 + b3 + b4 + b5;
    forall i | 0 <= i < 30
      ensures all[i].riasecType == AllTypes[i / 5] && ListedUnder(all[i], profiles[AllTypes[i / 5]].subdivisions)
    {
      if i < 5 { assert all[i] == b0[i]; }
      else if i < 10 { assert all[i] == b1[i - 5]; }
      else if i < 15 { assert all[i] == b2[i - 10]; }
      else if i < 20 { assert all[i] == b3[i - 15]; }
      else if i < 25 { assert all[i] == b4[i - 20]; }
      else { assert all[i] == b5[i - 25]; }
    }
  }

  /** The default catalogue: 30 careers, five per type in the order R, I, A,
      S, E, C; each lists four distinct subtypes, all of its own type and
      among that type's subdivisions. */
  lemma DefaultCareersShape()
    ensures |DefaultCareers| == 30
    ensures forall i | 0 <= i < |DefaultCareers| :: DefaultCareers[i].riasecType == AllTypes[i / 5]
    ensures forall i | 0 <= i < |DefaultCareers| :: ListedUnder(DefaultCareers[i], DefaultProfiles[DefaultCareers[i].riasecType].subdivisions)
  {
    DefaultProfilesTotal();
    CareersRListed();
    CareersIListed();
    CareersAListed();
    CareersSListed();
    CareersEListed();
    CareersCListed();
    SixBlocks(CareersR, CareersI, CareersA, CareersS, CareersE, CareersC, DefaultProfiles);
  }

  /** Careers are told apart by name and type together, not by name alone:
      Administração is both an E and a C career. */
  lemma AdministracaoTwice()
    ensures DefaultCareers[20].name == DefaultCareers[27].name == "Administração"
    ensures DefaultCareers[20].riasecType == E && DefaultCareers[27].riasecType == C
  {
    assert DefaultCareers[20] == CareersE[0];
    assert DefaultCareers[27] == CareersC[2];
  }
}
