/**
 * The SQLite-backed catalog query: the parameterised statement text and bound
 * parameters it builds, the count statement derived from it, and how the page and
 * `hasMore` come out of the two engine answers. The SQL engine itself is not modelled:
 * its answers are parameters.
 */
module SqliteService {
  import opened Optional
  import opened Strings

  // The fixed text of the statements, split where a placeholder stands.
  const PLACEHOLDER := "?"
  // The column list is written in two pieces: per-character facts about one literal this long
  // are out of the solver's reach.
  const SELECT_COLUMNS := "SELECT id, name, bodyPart, " + "equipment, target, mediaPath"
  const COUNT_COLUMNS := "SELECT COUNT(*) as total"
  const FROM_WHERE := " FROM Exercise WHERE 1=1"
  const EQUIPMENT_TEST := " AND equipment = "
  const BODY_PART_TEST := " AND bodyPart = "
  const NAME_TEST := " AND name LIKE "
  const ORDER_CLAUSE := " ORDER BY id"
  const LIMIT_TEST := " LIMIT "
  const OFFSET_TEST := " OFFSET "
  const EQUIPMENT_CLAUSE := EQUIPMENT_TEST + PLACEHOLDER
  const BODY_PART_CLAUSE := BODY_PART_TEST + PLACEHOLDER
  const NAME_CLAUSE := NAME_TEST + PLACEHOLDER
  const LIMIT_CLAUSE := LIMIT_TEST + PLACEHOLDER + OFFSET_TEST + PLACEHOLDER

  /**
   * The fixed fragments, gathered in one record. The statement-level proofs below hold
   * for any record with the few properties `FitsStatements` lists, which the actual text has.
   */
  datatype SqlText = SqlText(
    columns: string,
    countColumns: string,
    table: string,
    equipmentTest: string,
    bodyPartTest: string,
    nameTest: string,
    order: string,
    limitTest: string,
    offsetTest: string)

  const SQL := SqlText(SELECT_COLUMNS, COUNT_COLUMNS, FROM_WHERE, EQUIPMENT_TEST, BODY_PART_TEST,
                       NAME_TEST, ORDER_CLAUSE, LIMIT_TEST, OFFSET_TEST)

  /** A bound parameter: a string or a number. */
  datatype Param = Text(text: string) | Number(number: int)

  /** The arguments of `getFilteredExercises`; `None` stands for null/undefined. */
  datatype Filters = Filters(
    searchQuery: string,
    equipment: Option<string>,
    bodyPart: Option<string>,
    skip: int,
    limit: int)

  /** The two statements the query runs, with their parameters. */
  datatype Statements = Statements(
    query: string,
    params: seq<Param>,
    countQuery: string,
    countParams: seq<Param>)

  /** A truthy string: present and non-empty. */
  predicate Present(x: Option<string>) {
    x.Some? && x.value != ""
  }

  /** `searchQuery && searchQuery.trim() !== ''`. */
  predicate NameActive(f: Filters) {
    f.searchQuery != "" && Trim(f.searchQuery) != ""
  }

  /** The `LIKE` pattern for the name filter. */
  function NamePattern(f: Filters): string {
    "%" + Trim(f.searchQuery) + "%"
  }

  /** The number of active filters. */
  function ActiveCount(f: Filters): nat {
    (if Present(f.equipment) then 1 else 0)
    + (if Present(f.bodyPart) then 1 else 0)
    + (if NameActive(f) then 1 else 0)
  }

  // ---------------------------------------------------------------------------
  // The statements, over the fixed text `t`

  /** The equipment clause, present exactly when the equipment filter is truthy. */
  function EquipmentClause(t: SqlText, f: Filters): string {
    if Present(f.equipment) then t.equipmentTest + PLACEHOLDER else ""
  }

  function BodyPartClause(t: SqlText, f: Filters): string {
    if Present(f.bodyPart) then t.bodyPartTest + PLACEHOLDER else ""
  }

  function NameClause(t: SqlText, f: Filters): string {
    if NameActive(f) then t.nameTest + PLACEHOLDER else ""
  }

  /** The pagination suffix: `LIMIT ? OFFSET ?`. */
  function LimitClause(t: SqlText): string {
    t.limitTest + PLACEHOLDER + t.offsetTest + PLACEHOLDER
  }

  /** The page statement: columns, base table, filter clauses, order, pagination. */
  function PageSqlOf(t: SqlText, f: Filters): string {
    t.columns + t.table + EquipmentClause(t, f) + BodyPartClause(t, f) + NameClause(t, f)
    + t.order + LimitClause(t)
  }

  /** The count statement: the same filters and order, counting instead of paging. */
  function CountSqlOf(t: SqlText, f: Filters): string {
    t.countColumns + t.table + EquipmentClause(t, f) + BodyPartClause(t, f) + NameClause(t, f)
    + t.order
  }

  function PageSql(f: Filters): string {
    PageSqlOf(SQL, f)
  }

  function CountSql(f: Filters): string {
    CountSqlOf(SQL, f)
  }

  /** The parameter of each filter clause: one when the clause is present, none otherwise. */
  function EquipmentParams(f: Filters): seq<Param> {
    if Present(f.equipment) then [Text(f.equipment.value)] else []
  }

  function BodyPartParams(f: Filters): seq<Param> {
    if Present(f.bodyPart) then [Text(f.bodyPart.value)] else []
  }

  function NameParams(f: Filters): seq<Param> {
    if NameActive(f) then [Text(NamePattern(f))] else []
  }

  /** The parameters of the filter clauses, in the same order. */
  function FilterParams(f: Filters): (ps: seq<Param>)
    ensures |ps| == ActiveCount(f)
  {
    EquipmentParams(f) + BodyPartParams(f) + NameParams(f)
  }

  /** The page parameters: the filter values, then `limit`, then `skip`. */
  function PageParams(f: Filters): seq<Param> {
    FilterParams(f) + [Number(f.limit)] + [Number(f.skip)]
  }

  /** There is one parameter per active filter plus two, `limit` and `skip` last. */
  lemma PageParamsShape(f: Filters)
    ensures |PageParams(f)| == ActiveCount(f) + 2
    ensures PageParams(f)[|PageParams(f)| - 2] == Number(f.limit)
    ensures PageParams(f)[|PageParams(f)| - 1] == Number(f.skip)
    ensures PageParams(f)[..|PageParams(f)| - 2] == FilterParams(f)
  {
  }

  // ---------------------------------------------------------------------------
  // What the proofs need of the fixed text

  /**
   * No fixed fragment holds a placeholder; the letter pair "IM" of "LIMIT" occurs in no
   * fragment that precedes the pagination suffix; and the suffix cannot overlap itself.
   */
  ghost predicate FitsStatements(t: SqlText) {
    && '?' !in t.columns && '?' !in t.countColumns && '?' !in t.table && '?' !in t.order
    && '?' !in t.equipmentTest && '?' !in t.bodyPartTest && '?' !in t.nameTest
    && '?' !in t.limitTest && '?' !in t.offsetTest
    && 'I' !in t.countColumns && 'I' !in t.table && 'I' !in t.equipmentTest && 'I' !in t.bodyPartTest
    && 'M' !in t.nameTest && 'M' !in t.order
    && |t.limitTest| >= 4 && t.limitTest[2] == 'I' && t.limitTest[3] == 'M'
    && Unbordered(LimitClause(t))
  }

  lemma ColumnsFit()
    ensures '?' !in SELECT_COLUMNS
  {
  }

  lemma CountColumnsFit()
    ensures '?' !in COUNT_COLUMNS && 'I' !in COUNT_COLUMNS
  {
  }

  lemma TableFits()
    ensures '?' !in FROM_WHERE && 'I' !in FROM_WHERE
  {
  }

  lemma TestsHaveNoPlaceholder()
    ensures '?' !in EQUIPMENT_TEST && '?' !in BODY_PART_TEST && '?' !in NAME_TEST
  {
  }

  lemma TestsHaveNoPair()
    ensures 'I' !in EQUIPMENT_TEST && 'I' !in BODY_PART_TEST && 'M' !in NAME_TEST
  {
  }

  lemma OrderFits()
    ensures '?' !in ORDER_CLAUSE && 'M' !in ORDER_CLAUSE
  {
  }

  lemma PaginationTestsFit()
    ensures '?' !in LIMIT_TEST && '?' !in OFFSET_TEST
    ensures |LIMIT_TEST| >= 4 && LIMIT_TEST[2] == 'I' && LIMIT_TEST[3] == 'M'
  {
  }

  /** Occurrences of the pagination suffix cannot overlap one another. */
  lemma LimitClauseUnbordered()
    ensures Unbordered(LIMIT_CLAUSE)
  {
    var pat := LIMIT_CLAUSE;
    assert pat == " LIMIT ? OFFSET ?";
    forall b | 0 < b < |pat|
      ensures pat[..b] != pat[|pat| - b..]
    {
      // Every prefix starts with " L"; no suffix does.
      assert pat[..b][0] == ' ';
      if b >= 2 {
        assert pat[..b][1] == 'L';
      }
      assert pat[|pat| - b..][0] == pat[|pat| - b];
      if b >= 2 {
        assert pat[|pat| - b..][1] == pat[|pat| - b + 1];
      }
    }
  }

  /** The text of the application has these properties. */
  lemma SqlFits()
    ensures FitsStatements(SQL)
  {
    ColumnsFit();
    CountColumnsFit();
    TableFits();
    TestsHaveNoPlaceholder();
    TestsHaveNoPair();
    OrderFits();
    PaginationTestsFit();
    LimitClauseUnbordered();
  }

  // ---------------------------------------------------------------------------
  // Placeholder counting

  /** A fragment without placeholders followed by one placeholder holds exactly one. */
  lemma OnePlaceholder(test: string)
    requires '?' !in test
    ensures CountChar(test + PLACEHOLDER, '?') == 1
  {
    CountCharConcat(test, PLACEHOLDER, '?');
    NotInCount(test, '?');
  }

  /** Each filter clause holds as many placeholders as it binds parameters. */
  lemma ClausePlaceholders(t: SqlText, f: Filters)
    requires FitsStatements(t)
    ensures CountChar(EquipmentClause(t, f), '?') == |EquipmentParams(f)|
    ensures CountChar(BodyPartClause(t, f), '?') == |BodyPartParams(f)|
    ensures CountChar(NameClause(t, f), '?') == |NameParams(f)|
    ensures CountChar(LimitClause(t), '?') == 2
  {
    OnePlaceholder(t.equipmentTest);
    OnePlaceholder(t.bodyPartTest);
    OnePlaceholder(t.nameTest);
    OnePlaceholder(t.limitTest);
    OnePlaceholder(t.offsetTest);
    CountCharConcat(t.limitTest + PLACEHOLDER, t.offsetTest + PLACEHOLDER, '?');
  }

  /** Counting over a statement assembled from a head, three clauses and a tail. */
  lemma {:induction false} AssembledCount(head: string, e: string, b: string, n: string, tail: string)
    ensures CountChar(head + e + b + n + tail, '?')
         == CountChar(head, '?') + CountChar(e, '?') + CountChar(b, '?') + CountChar(n, '?') + CountChar(tail, '?')
  {
    CountCharConcat(head, e, '?');
    CountCharConcat(head + e, b, '?');
    CountCharConcat(head + e + b, n, '?');
    CountCharConcat(head + e + b + n, tail, '?');
  }

  /** Each statement holds exactly one placeholder per parameter bound to it. */
  lemma PlaceholdersOf(t: SqlText, f: Filters)
    requires FitsStatements(t)
    ensures CountChar(PageSqlOf(t, f), '?') == |PageParams(f)|
    ensures CountChar(CountSqlOf(t, f), '?') == |FilterParams(f)|
  {
    ClausePlaceholders(t, f);
    NotInCount(t.columns, '?');
    NotInCount(t.countColumns, '?');
    NotInCount(t.table, '?');
    NotInCount(t.order, '?');
    CountCharConcat(t.columns, t.table, '?');
    CountCharConcat(t.countColumns, t.table, '?');
    CountCharConcat(t.order, LimitClause(t), '?');
    var e, b, n := EquipmentClause(t, f), BodyPartClause(t, f), NameClause(t, f);
    AssembledCount(t.columns + t.table, e, b, n, t.order + LimitClause(t));
    assert PageSqlOf(t, f) == t.columns + t.table + e + b + n + (t.order + LimitClause(t));
    AssembledCount(t.countColumns + t.table, e, b, n, t.order);
  }

  /** The statements `getFilteredExercises` runs hold one placeholder per bound parameter. */
  lemma StatementPlaceholders(f: Filters)
    ensures CountChar(PageSql(f), '?') == |PageParams(f)|
    ensures CountChar(CountSql(f), '?') == |FilterParams(f)|
  {
    SqlFits();
    PlaceholdersOf(SQL, f);
  }

  // ---------------------------------------------------------------------------
  // The count statement: where the replaced fragments occur

  /** The text before the pagination suffix never holds the letters "IM". */
  lemma CountSqlHasNoPair(t: SqlText, f: Filters)
    requires FitsStatements(t)
    ensures NoPair(CountSqlOf(t, f), 'I', 'M')
  {
    var e, b, n := EquipmentClause(t, f), BodyPartClause(t, f), NameClause(t, f);
    assert 'I' !in e && 'I' !in b && 'M' !in n;
    NotInNoPair(t.countColumns, 'I', 'M');
    NotInNoPair(t.table, 'I', 'M');
    NotInNoPair(e, 'I', 'M');
    NotInNoPair(b, 'I', 'M');
    NotInNoPair(n, 'I', 'M');
    NotInNoPair(t.order, 'I', 'M');
    NoPairConcat(t.countColumns, t.table, 'I', 'M');
    NoPairConcat(t.countColumns + t.table, e, 'I', 'M');
    NoPairConcat(t.countColumns + t.table + e, b, 'I', 'M');
    NoPairConcat(t.countColumns + t.table + e + b, n, 'I', 'M');
    NoPairConcat(t.countColumns + t.table + e + b + n, t.order, 'I', 'M');
  }

  lemma Regroup(a: string, b: string, c: string, d: string, e: string, g: string, h: string)
    ensures a + b + c + d + e + g + h == a + (b + c + d + e + g + h)
  {
  }

  /**
   * Replacing the column list and then the first pagination suffix turns the page
   * statement into the count statement.
   */
  lemma CountSqlFromPageSqlOf(t: SqlText, f: Filters)
    requires FitsStatements(t)
    ensures ReplaceFirst(ReplaceFirst(PageSqlOf(t, f), t.columns, t.countColumns), LimitClause(t), "")
         == CountSqlOf(t, f)
  {
    var e, b, n := EquipmentClause(t, f), BodyPartClause(t, f), NameClause(t, f);
    var lim := LimitClause(t);
    var rest := t.table + e + b + n + t.order + lim;
    Regroup(t.columns, t.table, e, b, n, t.order, lim);
    ReplacePrefix(t.columns, rest, t.countColumns);
    Regroup(t.countColumns, t.table, e, b, n, t.order, lim);
    var p := CountSqlOf(t, f);
    assert t.countColumns + rest == p + lim;
    assert lim[2] == 'I' && lim[3] == 'M';
    CountSqlHasNoPair(t, f);
    NoPairNoOccurrence(p, lim, 2, 'I', 'M');
    FirstOccurrenceAtEnd(p, lim);
    ReplaceAtEnd(p, lim, "");
    assert p + "" == p;
  }

  lemma CountSqlFromPageSql(f: Filters)
    ensures ReplaceFirst(ReplaceFirst(PageSql(f), SELECT_COLUMNS, COUNT_COLUMNS), LIMIT_CLAUSE, "")
         == CountSql(f)
  {
    SqlFits();
    CountSqlFromPageSqlOf(SQL, f);
  }

  /** One conditional `+=`/`push` step, whether or not its branch was taken. */
  lemma Appended(q: string, clause: string, q': string, ps: seq<Param>, added: seq<Param>, ps': seq<Param>)
    requires (q' == q + clause && ps' == ps + added) || (clause == "" && added == [] && q' == q && ps' == ps)
    ensures q' == q + clause && ps' == ps + added
  {
  }

  /**
   * The first part of `getFilteredExercises`: the base statement, then one `+=` clause
   * and one pushed parameter per truthy filter, in the order equipment, body part, name.
   */
  method FilterStatement(f: Filters) returns (query: string, params: seq<Param>)
    ensures query == SELECT_COLUMNS + FROM_WHERE + EquipmentClause(SQL, f) + BodyPartClause(SQL, f) + NameClause(SQL, f)
    ensures params == FilterParams(f)
  {
    query := SELECT_COLUMNS + FROM_WHERE;
    params := [];
    ghost var head := query;
    if Present(f.equipment) {
      query := query + EQUIPMENT_CLAUSE;
      params := params + [Text(f.equipment.value)];
    }
    Appended(head, EquipmentClause(SQL, f), query, [], EquipmentParams(f), params);
    if Present(f.bodyPart) {
      query := query + BODY_PART_CLAUSE;
      params := params + [Text(f.bodyPart.value)];
    }
    Appended(head + EquipmentClause(SQL, f), BodyPartClause(SQL, f), query,
      EquipmentParams(f), BodyPartParams(f), params);
    if f.searchQuery != "" && Trim(f.searchQuery) != "" {
      query := query + NAME_CLAUSE;
      params := params + [Text("%" + Trim(f.searchQuery) + "%")];
    }
    Appended(head + EquipmentClause(SQL, f) + BodyPartClause(SQL, f), NameClause(SQL, f), query,
      EquipmentParams(f) + BodyPartParams(f), NameParams(f), params);
  }

  /**
   * The statement text and parameters `getFilteredExercises` builds before it runs
   * anything: the filtered statement, then the order and pagination suffixes with
   * `limit` and `skip` pushed last, and the count statement derived from the page
   * statement by two `replace` calls and by dropping the last two parameters.
   */
  method BuildQueries(f: Filters) returns (st: Statements)
    ensures st.query == PageSql(f) && st.params == PageParams(f)
    ensures st.countQuery == CountSql(f)
    ensures st.countParams == st.params[..|st.params| - 2] == FilterParams(f)
  {
    var query, params := FilterStatement(f);
    query := query + ORDER_CLAUSE;
    query := query + LIMIT_CLAUSE;
    params := params + [Number(f.limit)];
    params := params + [Number(f.skip)];
    assert query == PageSql(f) && params == PageParams(f);
    var countQuery := ReplaceFirst(ReplaceFirst(query, SELECT_COLUMNS, COUNT_COLUMNS), LIMIT_CLAUSE, "");
    var countParams := params[..|params| - 2];
    CountSqlFromPageSql(f);
    PageParamsShape(f);
    st := Statements(query, params, countQuery, countParams);
  }

  /** The filters that are not written out in the statement are bound as parameters. */
  lemma FiltersAreBound(f: Filters)
    ensures Present(f.equipment) ==> FilterParams(f)[0] == Text(f.equipment.value)
    ensures NameActive(f) ==> FilterParams(f)[ActiveCount(f) - 1] == Text(NamePattern(f))
  {
  }

  /** Unlike the Realm query, a sentinel value such as "All Equipment" is a real filter here. */
  lemma SentinelIsBound(f: Filters)
    requires f.equipment == Some("All Equipment")
    ensures EquipmentClause(SQL, f) == EQUIPMENT_CLAUSE
    ensures FilterParams(f)[0] == Text("All Equipment")
  {
  }

  /** A blank search text adds no name clause. */
  lemma BlankSearchIgnored(f: Filters)
    requires forall i :: 0 <= i < |f.searchQuery| ==> IsWhitespace(f.searchQuery[i])
    ensures !NameActive(f)
    ensures NameClause(SQL, f) == "" && FilterParams(f) == FilterParams(f.(searchQuery := ""))
  {
    TrimEmptyIff(f.searchQuery);
  }

  // ---------------------------------------------------------------------------
  // Running the statements

  /** What the engine answers to one statement. */
  datatype Answer<T> = Success(value: T) | Failure(message: string)

  /** The columns the page statement selects. */
  datatype ExerciseRow = ExerciseRow(
    id: string,
    name: string,
    bodyPart: string,
    equipment: string,
    target: string,
    mediaPath: Option<string>)

  datatype SqlPage = SqlPage(exercises: seq<ExerciseRow>, hasMore: bool, totalCount: int)

  datatype SqlError = NotInitialized | EngineFailure(message: string)

  /** How the promise settles. */
  datatype Outcome = Resolved(page: SqlPage) | Rejected(error: SqlError)

  /** One executed statement with its bound parameters. */
  datatype Executed = Executed(sql: string, params: seq<Param>)

  class SqliteService {
    /** Whether `db` holds an open connection. */
    var dbOpen: bool

    constructor ()
      ensures !dbOpen
    {
      dbOpen := false;
    }

    /** `init`, reduced to its effect: a connection is held. */
    method Init()
      modifies this
      ensures dbOpen
    {
      dbOpen := true;
    }

    /** `closeDatabase`: closes a held connection; with none it does nothing. */
    method CloseDatabase() returns (closeIssued: bool)
      modifies this
      ensures closeIssued == old(dbOpen)
      ensures !dbOpen
    {
      closeIssued := false;
      if dbOpen {
        closeIssued := true;
        dbOpen := false;
      }
    }

    /**
     * `getFilteredExercises`: runs the count statement, then the page statement, and
     * settles with the page; `countAnswer` and `rowsAnswer` are what the engine answers.
     */
    method GetFilteredExercises(f: Filters, countAnswer: Answer<int>, rowsAnswer: Answer<seq<ExerciseRow>>)
      returns (outcome: Outcome, executed: seq<Executed>)
      ensures !dbOpen ==> outcome == Rejected(NotInitialized) && executed == []
      ensures dbOpen ==> |executed| >= 1 && executed[0] == Executed(CountSql(f), FilterParams(f))
      ensures dbOpen && countAnswer.Failure? ==>
        outcome == Rejected(EngineFailure(countAnswer.message)) && |executed| == 1
      ensures dbOpen && countAnswer.Success? ==> |executed| == 2 && executed[1] == Executed(PageSql(f), PageParams(f))
      ensures dbOpen && countAnswer.Success? && rowsAnswer.Failure? ==>
        outcome == Rejected(EngineFailure(rowsAnswer.message))
      ensures dbOpen && countAnswer.Success? && rowsAnswer.Success? ==>
        outcome == Resolved(SqlPage(rowsAnswer.value, countAnswer.value > f.skip + f.limit, countAnswer.value))
    {
      if !dbOpen {
        return Rejected(NotInitialized), [];
      }
      var st := BuildQueries(f);
      executed := [Executed(st.countQuery, st.countParams)];
      if countAnswer.Failure? {
        return Rejected(EngineFailure(countAnswer.message)), executed;
      }
      var totalCount := countAnswer.value;
      executed := executed + [Executed(st.query, st.params)];
      if rowsAnswer.Failure? {
        return Rejected(EngineFailure(rowsAnswer.message)), executed;
      }
      outcome := Resolved(SqlPage(rowsAnswer.value, totalCount > f.skip + f.limit, totalCount));
    }
  }
}
