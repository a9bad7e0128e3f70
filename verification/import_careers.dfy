/** The spreadsheet import of careers (src/components/ImportCareersModal.tsx):
    each data row is validated and either becomes a career or an error line,
    and the import is confirmed only when every row was accepted. The model
    starts from the rows the spreadsheet reader produces. */
module ImportCareers {
  import opened Wrappers
  import opened Seqs
  import opened Text
  import opened QuizQuestions
  import opened CareerDetails
  import opened CatalogueChecks

  /** A sheet row: column header to cell text. */
  type Row = map<string, string>

  const ColName: string := "Profissão"
  const ColDescription: string := "Descrição"
  const ColDominant1: string := "Subtipo Dominante 1"
  const ColDominant2: string := "Subtipo Dominante 2"
  const ColSecondary1: string := "Subtipo Secundário 1"
  const ColSecondary2: string := "Subtipo Secundário 2"
  const ColStrengths: string := "Ponto Forte"
  const ColWeaknesses: string := "Ponto Fraco"

  /** `REQUIRED_COLS`. */
  const RequiredCols: seq<string> := [ColName, ColDescription, ColDominant1, ColDominant2, ColSecondary1, ColSecondary2]

  /** What can be wrong with one row. */
  datatype Problem =
    | EmptyName
    | EmptyDescription
    | EmptySubtypes(count: nat)
    | DuplicateSubtypes
    | UnknownSubtype(subtype: string)

  /** An entry of the error list. */
  datatype ImportError =
    | EmptyFile
    | MissingColumns(columns: seq<string>)
    | RowError(line: nat, problems: seq<Problem>)
    {
      /** The message shown to the user. */
      function Message(): string {
        match this
        case EmptyFile => "Arquivo vazio ou sem dados."
        case MissingColumns(cols) => "Colunas obrigatórias faltando: " + Join(cols, ", ")
        case RowError(line, problems) => "Linha " + Decimal(line) + ": " + Join(Map(ProblemMessage, problems), "; ")
      }
    }

  /** The text of one row problem. */
  function ProblemMessage(p: Problem): string {
    match p
    case EmptyName => "Profissão vazia"
    case EmptyDescription => "Descrição vazia"
    case EmptySubtypes(n) => Decimal(n) + " subtipo(s) vazio(s)"
    case DuplicateSubtypes => "Subtipos duplicados"
    case UnknownSubtype(s) => "Subtipo desconhecido: \"" + s + "\""
  }

  /** The parse result: accepted careers, error lines, and a preview of the rows. */
  datatype ParseResult = ParseResult(careers: seq<CareerDetail>, errors: seq<ImportError>, raw: seq<Row>)

  // ---------------------------------------------------------------------------
  // One row

  /** `String(row[col] || '')`: the cell text, empty when the column is absent. */
  function Cell(row: Row, col: string): string {
    if col in row then row[col] else ""
  }

  /** A text field: trimmed. */
  function TextField(row: Row, col: string): (r: string)
    ensures NoOuterSpace(r)
    ensures col !in row ==> r == ""
    ensures r == "" <==> AllWhiteSpace(Cell(row, col))
  {
    Trim(Cell(row, col))
  }

  /** A subtype field: trimmed and upper-cased. */
  function SubtypeField(row: Row, col: string): (r: string)
    ensures col !in row ==> r == ""
    ensures r == "" <==> AllWhiteSpace(Cell(row, col))
  {
    ToUpper(Trim(Cell(row, col)))
  }

  /** Neither end of `s` is white space. */
  predicate NoOuterSpace(s: string) {
    s != [] ==> !IsWhiteSpace(s[0]) && !IsWhiteSpace(s[|s| - 1])
  }

  /** The fields of a row as the import reads them. */
  datatype RowFields = RowFields(name: string, description: string, subs: seq<string>, strengths: string, weaknesses: string)

  /** Reads a row: text fields trimmed, the four subtype cells (D1, D2, S1,
      S2) trimmed and upper-cased. */
  function ReadRow(row: Row): (f: RowFields)
    ensures |f.subs| == 4
    ensures NoOuterSpace(f.name) && NoOuterSpace(f.description)
    ensures NoOuterSpace(f.strengths) && NoOuterSpace(f.weaknesses)
    ensures ColName !in row ==> f.name == ""
    ensures ColDescription !in row ==> f.description == ""
    ensures ColDominant1 !in row ==> f.subs[0] == ""
    ensures ColDominant2 !in row ==> f.subs[1] == ""
    ensures ColSecondary1 !in row ==> f.subs[2] == ""
    ensures ColSecondary2 !in row ==> f.subs[3] == ""
  {
    var d1, d2 := SubtypeField(row, ColDominant1), SubtypeField(row, ColDominant2);
    var s1, s2 := SubtypeField(row, ColSecondary1), SubtypeField(row, ColSecondary2);
    var subs := [d1, d2, s1, s2];
    assert subs[0] == d1 && subs[1] == d2 && subs[2] == s1 && subs[3] == s2;
    RowFields(TextField(row, ColName), TextField(row, ColDescription), subs,
              TextField(row, ColStrengths), TextField(row, ColWeaknesses))
  }

  /** The non-empty subtype cells. */
  function Filled(subs: seq<string>): seq<string> {
    Filter(subs, (s: string) => s != "")
  }

  /** The filled subtype cells that are not official subtypes. */
  function Unknown(subs: seq<string>, subtypeMap: SubtypeMap): seq<string> {
    Filter(subs, (s: string) => s != "" && s !in subtypeMap)
  }

  /** One unknown-subtype problem per unknown cell, in order. */
  function UnknownProblems(unknown: seq<string>): (r: seq<Problem>)
    ensures |r| == |unknown|
    ensures forall p | p in r :: p.UnknownSubtype?
    ensures forall u :: UnknownSubtype(u) in r <==> u in unknown
  {
    if unknown == [] then [] else [UnknownSubtype(unknown[0])] + UnknownProblems(unknown[1..])
  }

  /** The problems found before the unknown-subtype check: blank name, blank
      description, blank subtype cells (with their number), repeated labels. */
  function FieldProblems(f: RowFields): (r: seq<Problem>)
    ensures EmptyName in r <==> f.name == ""
    ensures EmptyDescription in r <==> f.description == ""
    ensures (exists n :: EmptySubtypes(n) in r) <==> HasEmptySubtype(f.subs)
    ensures DuplicateSubtypes in r <==> HasDuplicateSubtype(f.subs)
    ensures forall u :: UnknownSubtype(u) !in r
    ensures r == [] <==> f.name != "" && f.description != "" && !HasEmptySubtype(f.subs) && !HasDuplicateSubtype(f.subs)
  {
    ListProblems(f.name == "", f.description == "", EmptyCells(f.subs), RepeatsLabel(f.subs))
  }

  /** The problem list for the outcomes of the four field checks, in check order. */
  function ListProblems(noName: bool, noDescription: bool, empties: nat, repeats: bool): (r: seq<Problem>)
    ensures EmptyName in r <==> noName
    ensures EmptyDescription in r <==> noDescription
    ensures (exists n :: EmptySubtypes(n) in r) <==> empties > 0
    ensures DuplicateSubtypes in r <==> repeats
    ensures forall u :: UnknownSubtype(u) !in r
    ensures r == [] <==> !noName && !noDescription && empties == 0 && !repeats
  {
    var r := Flag(noName, EmptyName) + Flag(noDescription, EmptyDescription)
             + Flag(empties > 0, EmptySubtypes(empties)) + Flag(repeats, DuplicateSubtypes);
    assert empties > 0 ==> EmptySubtypes(empties) in r;
    r
  }

  /** The problem `p` when `found`, nothing otherwise. */
  function Flag(found: bool, p: Problem): (r: seq<Problem>)
    ensures |r| <= 1
    ensures forall q :: q in r <==> found && q == p
    ensures r == [] <==> !found
  {
    if found then [p] else []
  }

  /** The number of blank subtype cells. */
  function EmptyCells(subs: seq<string>): (n: nat)
    ensures n > 0 <==> HasEmptySubtype(subs)
  {
    EmptyCounted(subs);
    Count(subs, (s: string) => s == "")
  }

  /** `new Set(filled).size !== filled.length`: the filled cells repeat a label. */
  function RepeatsLabel(subs: seq<string>): (b: bool)
    ensures b <==> HasDuplicateSubtype(subs)
  {
    DuplicatesAmongFilled(subs);
    |Elements(Filled(subs))| < |Filled(subs)|
  }

  /** The row's problems, in the order the checks run. */
  function Problems(f: RowFields, subtypeMap: SubtypeMap): (r: seq<Problem>)
    ensures r == [] <==> !Refused(f, subtypeMap)
    ensures forall u :: UnknownSubtype(u) in r <==> u in f.subs && u != "" && u !in subtypeMap
  {
    var unknown := Unknown(f.subs, subtypeMap);
    UnknownReported(f.subs, subtypeMap);
    assert forall u :: u in unknown <==> u in f.subs && u != "" && u !in subtypeMap;
    FieldProblems(f) + UnknownProblems(unknown)
  }

  /** The career an accepted row becomes: the type is that of D1. */
  function CareerOf(f: RowFields, subtypeMap: SubtypeMap): CareerDetail
    requires |f.subs| == 4
    requires forall s | s in f.subs :: s in subtypeMap
  {
    CareerDetail(
      f.name,
      subtypeMap[f.subs[0]],
      f.description,
      f.strengths,
      f.weaknesses,
      seq(4, k requires 0 <= k < 4 => RelatedSubtype(f.subs[k], subtypeMap[f.subs[k]])))
  }

  /** The outcome of row `i`: a career, or the error line `i + 2` (the header is line 1). */
  function ParseRow(row: Row, i: nat, subtypeMap: SubtypeMap): (r: Result<CareerDetail, ImportError>)
    ensures r.Failure? ==> r.error == RowError(i + 2, Problems(ReadRow(row), subtypeMap)) && r.error.problems != []
  {
    var f := ReadRow(row);
    var problems := Problems(f, subtypeMap);
    if problems != [] then Failure(RowError(i + 2, problems))
    else
      UnknownFlagged(f, subtypeMap);
      Success(CareerOf(f, subtypeMap))
  }

  /** A row without problems has only filled, known subtypes. */
  lemma UnknownFlagged(f: RowFields, subtypeMap: SubtypeMap)
    requires Problems(f, subtypeMap) == []
    ensures forall s | s in f.subs :: s != "" && s in subtypeMap
  {
    var unknown := Unknown(f.subs, subtypeMap);
    assert unknown == [];
    var empties := Filter(f.subs, (s: string) => s == "");
    assert |empties| == 0;
  }

  // ---------------------------------------------------------------------------
  // The rejection rule, stated directly

  /** Some subtype cell is empty. */
  predicate HasEmptySubtype(subs: seq<string>) {
    exists k | 0 <= k < |subs| :: subs[k] == ""
  }

  /** Two non-empty subtype cells hold the same label. */
  predicate HasDuplicateSubtype(subs: seq<string>) {
    exists j, k | 0 <= j < k < |subs| :: subs[j] != "" && subs[j] == subs[k]
  }

  /** Some non-empty subtype cell is not an official subtype. */
  predicate HasUnknownSubtype(subs: seq<string>, subtypeMap: SubtypeMap) {
    exists k | 0 <= k < |subs| :: subs[k] != "" && subs[k] !in subtypeMap
  }

  /** A row is refused when its name or description is blank, a subtype cell
      is blank, two filled cells repeat a label, or a filled cell is unknown. */
  predicate Refused(f: RowFields, subtypeMap: SubtypeMap) {
    || f.name == ""
    || f.description == ""
    || HasEmptySubtype(f.subs)
    || HasDuplicateSubtype(f.subs)
    || HasUnknownSubtype(f.subs, subtypeMap)
  }

  /** The count of empty cells is positive exactly when a cell is empty. */
  lemma EmptyCounted(subs: seq<string>)
    ensures Count(subs, (s: string) => s == "") > 0 <==> HasEmptySubtype(subs)
  {
    var empties := Filter(subs, (s: string) => s == "");
    if HasEmptySubtype(subs) {
      var k :| 0 <= k < |subs| && subs[k] == "";
      assert subs[k] in empties;
    }
    if empties != [] {
      assert empties[0] in subs;
    }
  }

  /** Some unknown cell is reported exactly when a filled cell is unknown. */
  lemma UnknownReported(subs: seq<string>, subtypeMap: SubtypeMap)
    ensures Unknown(subs, subtypeMap) != [] <==> HasUnknownSubtype(subs, subtypeMap)
  {
    var unknown := Unknown(subs, subtypeMap);
    if HasUnknownSubtype(subs, subtypeMap) {
      var k :| 0 <= k < |subs| && subs[k] != "" && subs[k] !in subtypeMap;
      assert subs[k] in unknown;
    }
    if unknown != [] {
      assert unknown[0] in subs;
    }
  }

  /** The filled cells repeat a label exactly when two filled positions agree. */
  lemma DuplicatesAmongFilled(subs: seq<string>)
    ensures |Elements(Filled(subs))| < |Filled(subs)| <==> HasDuplicateSubtype(subs)
  {
    var filled := Filled(subs);
    ElementsSize(filled);
    if HasDuplicateSubtype(subs) {
      var j, k :| 0 <= j < k < |subs| && subs[j] != "" && subs[j] == subs[k];
      FilledKeepsPair(subs, j, k);
    }
    if !Distinct(filled) {
      var a, b :| 0 <= a < b < |filled| && filled[a] == filled[b];
      FilledPairComesFrom(subs, a, b);
    }
  }

  /** The problem list is empty exactly when the row is not refused. */
  lemma ProblemsIff(f: RowFields, subtypeMap: SubtypeMap)
    ensures Problems(f, subtypeMap) != [] <==> Refused(f, subtypeMap)
  {
    EmptyCounted(f.subs);
    UnknownReported(f.subs, subtypeMap);
    DuplicatesAmongFilled(f.subs);
  }

  /** A row is turned into an error line exactly when it is refused. */
  lemma RowRejectedIff(row: Row, i: nat, subtypeMap: SubtypeMap)
    ensures ParseRow(row, i, subtypeMap).Failure? <==> Refused(ReadRow(row), subtypeMap)
  {
    ProblemsIff(ReadRow(row), subtypeMap);
  }

  /** Two filled positions of `subs` give two positions of `Filled(subs)` holding the same labels. */
  lemma {:induction false} FilledKeepsPair(subs: seq<string>, j: nat, k: nat)
    requires j < k < |subs| && subs[j] != "" && subs[k] != ""
    ensures exists a, b | 0 <= a < b < |Filled(subs)| :: Filled(subs)[a] == subs[j] && Filled(subs)[b] == subs[k]
  {
    var rest := Filled(subs[1..]);
    if j == 0 {
      assert subs[k] == subs[1..][k - 1];
      assert subs[1..][k - 1] in rest;
      var b :| 0 <= b < |rest| && rest[b] == subs[k];
      assert Filled(subs) == [subs[0]] + rest;
      assert Filled(subs)[0] == subs[j] && Filled(subs)[b + 1] == subs[k];
      assert 0 < b + 1 < |Filled(subs)|;
    } else {
      FilledKeepsPair(subs[1..], j - 1, k - 1);
      var a, b :| 0 <= a < b < |rest| && rest[a] == subs[j] && rest[b] == subs[k];
      var off := if subs[0] != "" then 1 else 0;
      assert Filled(subs) == (if subs[0] != "" then [subs[0]] else []) + rest;
      assert Filled(subs)[a + off] == subs[j] && Filled(subs)[b + off] == subs[k];
    }
  }

  /** `x` sits at a filled position of `subs` and `y` at a later one. */
  predicate PairFrom(subs: seq<string>, x: string, y: string) {
    exists j, k | 0 <= j < k < |subs| :: subs[j] != "" && subs[j] == x && subs[k] == y
  }

  /** A pair in the tail is a pair of the whole row. */
  lemma PairFromTail(subs: seq<string>, x: string, y: string)
    requires |subs| > 0 && PairFrom(subs[1..], x, y)
    ensures PairFrom(subs, x, y)
  {
    var j, k :| 0 <= j < k < |subs[1..]| && subs[1..][j] != "" && subs[1..][j] == x && subs[1..][k] == y;
    assert subs[j + 1] == x && subs[k + 1] == y;
  }

  /** A filled head pairs with any later label. */
  lemma PairFromHead(subs: seq<string>, y: string)
    requires |subs| > 0 && subs[0] != "" && y in subs[1..]
    ensures PairFrom(subs, subs[0], y)
  {
    var k :| 0 <= k < |subs[1..]| && subs[1..][k] == y;
    assert subs[k + 1] == y;
  }

  /** Two positions of `Filled(subs)` come from two filled positions of `subs`. */
  lemma {:induction false} FilledPairComesFrom(subs: seq<string>, a: nat, b: nat)
    requires a < b < |Filled(subs)|
    ensures PairFrom(subs, Filled(subs)[a], Filled(subs)[b])
  {
    var f := Filled(subs);
    var rest := Filled(subs[1..]);
    if subs[0] != "" {
      assert f == [subs[0]] + rest;
      if a == 0 {
        assert f[b] == rest[b - 1] && rest[b - 1] in subs[1..];
        PairFromHead(subs, f[b]);
      } else {
        FilledPairComesFrom(subs[1..], a - 1, b - 1);
        assert f[a] == rest[a - 1] && f[b] == rest[b - 1];
        PairFromTail(subs, f[a], f[b]);
      }
    } else {
      assert f == rest;
      FilledPairComesFrom(subs[1..], a, b);
      PairFromTail(subs, f[a], f[b]);
    }
  }

  /** An accepted row becomes a career named by the trimmed name cell, of the
      type of its first dominant subtype, listing the trimmed, upper-cased
      subtype cells in the order D1, D2, S1, S2, each with its official type;
      such a career passes the catalogue's label rules. */
  lemma AcceptedRowShape(row: Row, i: nat, subtypeMap: SubtypeMap)
    requires ParseRow(row, i, subtypeMap).Success?
    ensures var c := ParseRow(row, i, subtypeMap).value;
            && c.name == Trim(Cell(row, ColName)) && c.name != ""
            && c.description == Trim(Cell(row, ColDescription)) && c.description != ""
            && c.strengths == Trim(Cell(row, ColStrengths))
            && c.weaknesses == Trim(Cell(row, ColWeaknesses))
            && Labels(c) == [ToUpper(Trim(Cell(row, ColDominant1))), ToUpper(Trim(Cell(row, ColDominant2))),
                             ToUpper(Trim(Cell(row, ColSecondary1))), ToUpper(Trim(Cell(row, ColSecondary2)))]
            && CareerAccepted(c, subtypeMap)
  {
    var f := ReadRow(row);
    RowRejectedIff(row, i, subtypeMap);
    UnknownFlagged(f, subtypeMap);
    AcceptedFieldsShape(f, subtypeMap);
  }

  /** An imported career: four distinct official labels, each paired with
      its official type, and the career's type is that of the first. */
  predicate CareerAccepted(c: CareerDetail, subtypeMap: SubtypeMap) {
    && |c.relatedSubtypes| == 4
    && Distinct(Labels(c))
    && (forall s | s in c.relatedSubtypes :: s.subtype in subtypeMap && s.riasecType == subtypeMap[s.subtype])
    && c.riasecType == c.relatedSubtypes[0].riasecType
  }

  /** The career built from unrefused fields carries them over. */
  lemma AcceptedFieldsShape(f: RowFields, subtypeMap: SubtypeMap)
    requires |f.subs| == 4
    requires !Refused(f, subtypeMap)
    ensures forall s | s in f.subs :: s in subtypeMap
    ensures var c := CareerOf(f, subtypeMap);
            && c.name == f.name && c.description == f.description
            && c.strengths == f.strengths && c.weaknesses == f.weaknesses
            && Labels(c) == f.subs
            && CareerAccepted(c, subtypeMap)
  {
    forall s | s in f.subs
      ensures s in subtypeMap
    {
      var k :| 0 <= k < 4 && f.subs[k] == s;
    }
    var c := CareerOf(f, subtypeMap);
    assert Labels(c) == f.subs;
    forall j, k | 0 <= j < k < 4
      ensures f.subs[j] != f.subs[k]
    {
      assert f.subs[j] != "";
    }
  }

  // ---------------------------------------------------------------------------
  // The row loop

  /** The outcome of every row, with its position. */
  function Outcomes(rows: seq<Row>, subtypeMap: SubtypeMap): (r: seq<Result<CareerDetail, ImportError>>)
    ensures |r| == |rows|
    ensures forall i | 0 <= i < |rows| :: r[i] == ParseRow(rows[i], i, subtypeMap)
  {
    seq(|rows|, i requires 0 <= i < |rows| => ParseRow(rows[i], i, subtypeMap))
  }

  /** The accepted values, in order. */
  function Accepted<T, E>(outcomes: seq<Result<T, E>>): seq<T> {
    if outcomes == [] then []
    else (if outcomes[0].Success? then [outcomes[0].value] else []) + Accepted(outcomes[1..])
  }

  /** The errors, in order. */
  function Rejected<T, E>(outcomes: seq<Result<T, E>>): seq<E> {
    if outcomes == [] then []
    else (if outcomes[0].Failure? then [outcomes[0].error] else []) + Rejected(outcomes[1..])
  }

  /** Every outcome is either an accepted value or an error. */
  lemma {:induction false} AcceptedRejectedSplit<T, E>(outcomes: seq<Result<T, E>>)
    ensures |Accepted(outcomes)| + |Rejected(outcomes)| == |outcomes|
    ensures forall x | x in Accepted(outcomes) :: Success(x) in outcomes
    ensures forall e | e in Rejected(outcomes) :: Failure(e) in outcomes
  {
    if outcomes != [] {
      AcceptedRejectedSplit(outcomes[1..]);
    }
  }

  /** `rows.forEach(...)` from outcome `i` on: an accepted row's career is
      pushed onto `careers`, a refused row's error line onto `errors`. */
  function RowLoop<T, E>(outcomes: seq<Result<T, E>>, i: nat, careers: seq<T>, errors: seq<E>): (r: (seq<T>, seq<E>))
    requires i <= |outcomes|
    ensures r.0 == careers + Accepted(outcomes[i..])
    ensures r.1 == errors + Rejected(outcomes[i..])
    decreases |outcomes| - i
  {
    if i == |outcomes| then
      (careers, errors)
    else
      SuffixStep(outcomes, i);
      match outcomes[i]
      case Success(c) =>
        assert careers + [c] + Accepted(outcomes[i + 1..]) == careers + ([c] + Accepted(outcomes[i + 1..]));
        RowLoop(outcomes, i + 1, careers + [c], errors)
      case Failure(e) =>
        assert errors + [e] + Rejected(outcomes[i + 1..]) == errors + ([e] + Rejected(outcomes[i + 1..]));
        RowLoop(outcomes, i + 1, careers, errors + [e])
  }

  /** The loop over all outcomes gives one career or one error per outcome. */
  lemma LoopAccountsForAll<T, E>(outcomes: seq<Result<T, E>>)
    ensures |RowLoop(outcomes, 0, [], []).0| + |RowLoop(outcomes, 0, [], []).1| == |outcomes|
  {
    AcceptedRejectedSplit(outcomes);
    assert outcomes[0..] == outcomes;
  }

  /** Peeling outcome `i` off the suffix that starts at `i`. */
  lemma SuffixStep<T, E>(outcomes: seq<Result<T, E>>, i: nat)
    requires i < |outcomes|
    ensures Accepted(outcomes[i..]) == (if outcomes[i].Success? then [outcomes[i].value] else []) + Accepted(outcomes[i + 1..])
    ensures Rejected(outcomes[i..]) == (if outcomes[i].Failure? then [outcomes[i].error] else []) + Rejected(outcomes[i + 1..])
  {
    var t := outcomes[i..];
    assert t[0] == outcomes[i];
    assert t[1..] == outcomes[i + 1..];
  }

  /** The required columns missing from the first row's headers, in `REQUIRED_COLS` order. */
  function MissingColumnsOf(rows: seq<Row>): seq<string>
    requires |rows| > 0
  {
    Filter(RequiredCols, (col: string) => col !in rows[0])
  }

  /** The row-validation part of `parseFile`. */
  function ParseRows(rows: seq<Row>, subtypeMap: SubtypeMap): (r: ParseResult)
    ensures |rows| == 0 ==> r.careers == [] && r.errors == [EmptyFile] && r.raw == []
    ensures |rows| > 0 && (exists col | col in RequiredCols :: col !in rows[0]) ==>
              r.careers == [] && |r.errors| == 1 && r.errors[0].MissingColumns? && r.raw == []
    ensures |rows| > 0 && (forall col | col in RequiredCols :: col in rows[0]) ==>
              |r.careers| + |r.errors| == |rows| && r.raw == rows[..Min(5, |rows|)]
  {
    if |rows| == 0 then ParseResult([], [EmptyFile], [])
    else
      MissingColumnsIff(rows);
      if MissingColumnsOf(rows) != [] then ParseResult([], [MissingColumns(MissingColumnsOf(rows))], [])
      else ValidateRows(rows, subtypeMap)
  }

  /** `rows.forEach(...)` over a sheet with complete headers, with the preview of its first rows. */
  function ValidateRows(rows: seq<Row>, subtypeMap: SubtypeMap): (r: ParseResult)
    ensures |r.careers| + |r.errors| == |rows|
    ensures r.raw == rows[..Min(5, |rows|)]
  {
    var outcomes := Outcomes(rows, subtypeMap);
    var loop := RowLoop(outcomes, 0, [], []);
    LoopAccountsForAll(outcomes);
    ParseResult(loop.0, loop.1, rows[..if |rows| < 5 then |rows| else 5])
  }

  /** No column is reported missing exactly when the first row has every required column. */
  lemma MissingColumnsIff(rows: seq<Row>)
    requires |rows| > 0
    ensures MissingColumnsOf(rows) == [] <==> forall col | col in RequiredCols :: col in rows[0]
  {
    var missing := MissingColumnsOf(rows);
    if missing != [] {
      assert missing[0] in missing;
    }
  }

  /** An empty sheet gives no careers and the single empty-file error. */
  lemma EmptySheet(subtypeMap: SubtypeMap)
    ensures ParseRows([], subtypeMap).careers == []
    ensures ParseRows([], subtypeMap).errors == [EmptyFile]
  {
  }

  /** A sheet whose first row lacks a required column gives no careers and one
      error naming exactly the missing columns. */
  lemma MissingColumnsReported(rows: seq<Row>, subtypeMap: SubtypeMap)
    requires |rows| > 0
    requires exists col | col in RequiredCols :: col !in rows[0]
    ensures ParseRows(rows, subtypeMap).careers == []
    ensures |ParseRows(rows, subtypeMap).errors| == 1
    ensures var e := ParseRows(rows, subtypeMap).errors[0];
            e.MissingColumns? && forall col :: col in e.columns <==> col in RequiredCols && col !in rows[0]
  {
    var col :| col in RequiredCols && col !in rows[0];
    assert col in MissingColumnsOf(rows);
  }

  /** With complete headers, the result holds the loop's careers and errors. */
  lemma ParseRowsRunsLoop(rows: seq<Row>, subtypeMap: SubtypeMap)
    requires |rows| > 0
    requires forall col | col in RequiredCols :: col in rows[0]
    ensures ParseRows(rows, subtypeMap).careers == Accepted(Outcomes(rows, subtypeMap))
    ensures ParseRows(rows, subtypeMap).errors == Rejected(Outcomes(rows, subtypeMap))
  {
    FilterKeepsNone(RequiredCols, (col: string) => col !in rows[0]);
    var outcomes := Outcomes(rows, subtypeMap);
    assert outcomes[0..] == outcomes;
  }

  /** Each error outcome is the numbered error line of a refused row. */
  lemma RejectedAreRefusedRows(rows: seq<Row>, subtypeMap: SubtypeMap)
    ensures forall e | e in Rejected(Outcomes(rows, subtypeMap)) ::
              exists i | 0 <= i < |rows| :: e == RowError(i + 2, Problems(ReadRow(rows[i]), subtypeMap)) && Refused(ReadRow(rows[i]), subtypeMap)
  {
    var outcomes := Outcomes(rows, subtypeMap);
    AcceptedRejectedSplit(outcomes);
    forall e | e in Rejected(outcomes)
      ensures exists i | 0 <= i < |rows| :: e == RowError(i + 2, Problems(ReadRow(rows[i]), subtypeMap)) && Refused(ReadRow(rows[i]), subtypeMap)
    {
      var i :| 0 <= i < |outcomes| && outcomes[i] == Failure(e);
      RejectedRow(rows[i], i, subtypeMap, e);
    }
  }

  /** A row parsed to an error is refused, and the error is its numbered problem line. */
  lemma RejectedRow(row: Row, i: nat, subtypeMap: SubtypeMap, e: ImportError)
    requires ParseRow(row, i, subtypeMap) == Failure(e)
    ensures e == RowError(i + 2, Problems(ReadRow(row), subtypeMap)) && Refused(ReadRow(row), subtypeMap)
  {
    RowRejectedIff(row, i, subtypeMap);
  }

  /** Each accepted outcome is a career built from an unrefused row. */
  lemma AcceptedAreCareers(rows: seq<Row>, subtypeMap: SubtypeMap)
    ensures forall c | c in Accepted(Outcomes(rows, subtypeMap)) :: CareerAccepted(c, subtypeMap)
  {
    var outcomes := Outcomes(rows, subtypeMap);
    AcceptedRejectedSplit(outcomes);
    forall c | c in Accepted(outcomes)
      ensures CareerAccepted(c, subtypeMap)
    {
      var i :| 0 <= i < |outcomes| && outcomes[i] == Success(c);
      AcceptedRowShape(rows[i], i, subtypeMap);
    }
  }

  /** Once the headers are complete, each row gives exactly one career or one
      error line: careers are the accepted rows in order and errors the
      refused rows in order, each numbered by its sheet line. */
  lemma RowsAccountedFor(rows: seq<Row>, subtypeMap: SubtypeMap)
    requires |rows| > 0
    requires forall col | col in RequiredCols :: col in rows[0]
    ensures ParseRows(rows, subtypeMap).careers == Accepted(Outcomes(rows, subtypeMap))
    ensures ParseRows(rows, subtypeMap).errors == Rejected(Outcomes(rows, subtypeMap))
    ensures |ParseRows(rows, subtypeMap).careers| + |ParseRows(rows, subtypeMap).errors| == |rows|
    ensures forall e | e in ParseRows(rows, subtypeMap).errors ::
              exists i | 0 <= i < |rows| :: e == RowError(i + 2, Problems(ReadRow(rows[i]), subtypeMap)) && Refused(ReadRow(rows[i]), subtypeMap)
  {
    ParseRowsRunsLoop(rows, subtypeMap);
    AcceptedRejectedSplit(Outcomes(rows, subtypeMap));
    RejectedAreRefusedRows(rows, subtypeMap);
  }

  /** Every imported career passes the catalogue's label rules: four slots,
      no label twice, every label official and paired with its official type,
      and the career's type is that of its first dominant subtype. */
  lemma ImportedCareersWellFormed(rows: seq<Row>, subtypeMap: SubtypeMap)
    ensures forall c | c in ParseRows(rows, subtypeMap).careers :: CareerAccepted(c, subtypeMap)
    ensures AllOfficial(ParseRows(rows, subtypeMap).careers, subtypeMap)
  {
    if |rows| > 0 && MissingColumnsOf(rows) == [] {
      MissingColumnsIff(rows);
      ParseRowsRunsLoop(rows, subtypeMap);
      AcceptedAreCareers(rows, subtypeMap);
    }
  }

  // ---------------------------------------------------------------------------
  // Confirmation

  /** The confirm button is enabled: a result exists, with careers and no errors. */
  predicate ConfirmEnabled(result: Option<ParseResult>) {
    !(result.None? || |result.value.errors| > 0 || |result.value.careers| == 0)
  }

  /** `handleConfirm`: the careers handed over to replace the catalogue, if any. */
  function Confirm(result: Option<ParseResult>): (r: Option<seq<CareerDetail>>)
    ensures r.Some? <==> ConfirmEnabled(result)
    ensures r.Some? ==> r.value == result.value.careers && r.value != []
  {
    if result.Some? && |result.value.careers| > 0 && |result.value.errors| == 0 then Some(result.value.careers)
    else None
  }

  /** A confirmed import came from a sheet whose every row was accepted: it
      hands over one career per row. */
  lemma ConfirmedImportIsWholeSheet(rows: seq<Row>, subtypeMap: SubtypeMap)
    requires Confirm(Some(ParseRows(rows, subtypeMap))).Some?
    ensures |Confirm(Some(ParseRows(rows, subtypeMap))).value| == |rows|
    ensures forall i | 0 <= i < |rows| :: !Refused(ReadRow(rows[i]), subtypeMap)
  {
    var result := ParseRows(rows, subtypeMap);
    assert result.errors == [] && result.careers != [];
    assert |rows| > 0;
    MissingColumnsIff(rows);
    RowsAccountedFor(rows, subtypeMap);
    var outcomes := Outcomes(rows, subtypeMap);
    assert Rejected(outcomes) == [];
    forall i | 0 <= i < |rows|
      ensures !Refused(ReadRow(rows[i]), subtypeMap)
    {
      RowRejectedIff(rows[i], i, subtypeMap);
      if outcomes[i].Failure? {
        RejectedHoldsFailure(outcomes, i);
      }
    }
  }

  /** An error outcome shows up among the errors. */
  lemma {:induction false} RejectedHoldsFailure<T, E>(outcomes: seq<Result<T, E>>, i: nat)
    requires i < |outcomes| && outcomes[i].Failure?
    ensures outcomes[i].error in Rejected(outcomes)
  {
    if i > 0 {
      RejectedHoldsFailure(outcomes[1..], i - 1);
    }
  }
}
