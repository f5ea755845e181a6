/** The five REST handlers of the backend. Each builds one parameterized
    statement from the request, hands it to the store, and turns the rows (or
    the store's failure) into an HTTP status code and a JSON body. The store
    is a function from statement to result: its SQL semantics are not
    modelled. */
module Handlers {
  import opened Types
  import opened Decimal
  import opened SqlText

  /** What the store gives back for a statement: its rows, or a failure
      (connection lost, bad SQL), which every handler turns into a 500. */
  datatype StoreResult = Rows(rows: seq<Issue>) | Raised

  /** The JSON body of a response. EmptyBody is `res.json(undefined)`. */
  datatype Body =
    | IssueJson(issue: Issue)
    | IssueArray(issues: seq<Issue>)
    | ErrorJson(error: string)
    | DeletedJson(message: string, issue: Issue)
    | EmptyBody

  datatype Response = Response(code: int, body: Body)

  const InternalError: Response := Response(500, ErrorJson("Internal server error"))
  const NotFound: Response := Response(404, ErrorJson("Issue not found"))

  // Literal SQL fragments, as the handlers spell them.
  const SelectAllSql: string := "SELECT * FROM issues"
  const WhereStatusSql: string := " WHERE status = "
  const AndTitleSql: string := " AND (title ILIKE "
  const WhereTitleSql: string := " WHERE (title ILIKE "
  const OrDescriptionSql: string := " OR description ILIKE "
  const OrderBySql: string := " ORDER BY created_at DESC"
  const SelectByIdSql: string := "SELECT * FROM issues WHERE id = "
  const InsertSql: string := "INSERT INTO issues (title, description, status) VALUES ("
  const CloseReturningSql: string := ") RETURNING *"
  const UpdateSql: string := "UPDATE issues SET "
  const WhereIdSql: string := " WHERE id = "
  const ReturningSql: string := " RETURNING *"
  const TouchSql: string := "updated_at = CURRENT_TIMESTAMP"
  const DeleteByIdSql: string := "DELETE FROM issues WHERE id = "

  // ----- list (GET /api/issues) -----

  const SelectAll: seq<Piece> := [Text(SelectAllSql)]
  const WhereStatus: seq<Piece> := [Text(WhereStatusSql), Param(1)]
  const AndSearch: seq<Piece> := [Text(AndTitleSql), Param(2), Text(OrDescriptionSql), Param(2), Text(")")]
  const WhereSearch: seq<Piece> := [Text(WhereTitleSql), Param(1), Text(OrDescriptionSql), Param(1), Text(")")]
  const OrderByNewest: seq<Piece> := [Text(OrderBySql)]

  /** The ILIKE pattern for a search term: the term wrapped in `%`. */
  function SearchPattern(search: string): (p: string)
    ensures |p| == |search| + 2
    ensures p[0] == '%' && p[|p| - 1] == '%' && p[1..|p| - 1] == search
  {
    "%" + search + "%"
  }

  /** The list statement, by which of the two filters are truthy. */
  function ListQuery(status: Option<string>, search: Option<string>): Query
  {
    if Truthy(status) && Truthy(search) then
      Query(SelectAll + WhereStatus + AndSearch + OrderByNewest,
            [Str(status.value), Str(SearchPattern(search.value))])
    else if Truthy(status) then
      Query(SelectAll + WhereStatus + OrderByNewest, [Str(status.value)])
    else if Truthy(search) then
      Query(SelectAll + WhereSearch + OrderByNewest, [Str(SearchPattern(search.value))])
    else
      Query(SelectAll + OrderByNewest, [])
  }

  /** getIssues: the statement is grown by appending clauses and pushing
      parameters; the search clause picks its placeholder from how many
      parameters are already there. The rows are answered as they come. */
  method GetIssues(status: Option<string>, search: Option<string>, db: Query -> StoreResult)
    returns (issued: Query, res: Response)
    ensures issued == ListQuery(status, search)
    ensures res.code == 500 <==> db(issued).Raised?
    ensures db(issued).Raised? ==> res == InternalError
    ensures db(issued).Rows? ==> res == Response(200, IssueArray(db(issued).rows))
  {
    var query := SelectAll;
    var params: seq<Value> := [];
    if Truthy(status) {
      query := query + WhereStatus;
      params := params + [Str(status.value)];
    }
    if Truthy(search) {
      if |params| > 0 {
        query := query + AndSearch;
        params := params + [Str(SearchPattern(search.value))];
      } else {
        query := query + WhereSearch;
        params := params + [Str(SearchPattern(search.value))];
      }
    }
    query := query + OrderByNewest;
    issued := Query(query, params);
    var result := db(issued);
    if result.Raised? {
      res := InternalError;
    } else {
      res := Response(200, IssueArray(result.rows));
    }
  }

  lemma RenderedWhereStatus()
    ensures Render(WhereStatus) == WhereStatusSql + "$1"
    ensures Placeholders(WhereStatus) == [1]
  {
    RenderedParams();
    assert Render(WhereStatus[1..]) == "$1";
    assert Placeholders(WhereStatus[1..]) == [1];
  }

  lemma RenderedAndSearch()
    ensures Render(AndSearch) == AndTitleSql + ("$2" + (OrDescriptionSql + ("$2" + ")")))
    ensures Placeholders(AndSearch) == [2, 2]
  {
    RenderedParams();
    var q := AndSearch;
    assert Render(q[4..]) == ")";
    assert Render(q[3..]) == "$2" + ")";
    assert Render(q[2..]) == OrDescriptionSql + ("$2" + ")");
    assert Render(q[1..]) == "$2" + (OrDescriptionSql + ("$2" + ")"));
    assert Placeholders(q[3..]) == [2];
    assert Placeholders(q[1..]) == [2, 2];
  }

  lemma RenderedWhereSearch()
    ensures Render(WhereSearch) == WhereTitleSql + ("$1" + (OrDescriptionSql + ("$1" + ")")))
    ensures Placeholders(WhereSearch) == [1, 1]
  {
    RenderedParams();
    var q := WhereSearch;
    assert Render(q[4..]) == ")";
    assert Render(q[3..]) == "$1" + ")";
    assert Render(q[2..]) == OrDescriptionSql + ("$1" + ")");
    assert Render(q[1..]) == "$1" + (OrDescriptionSql + ("$1" + ")"));
    assert Placeholders(q[3..]) == [1];
    assert Placeholders(q[1..]) == [1, 1];
  }

  /** With neither filter truthy, every row is asked for, newest first, and
      nothing is bound. */
  lemma ListWithoutFilters(status: Option<string>, search: Option<string>)
    requires !Truthy(status) && !Truthy(search)
    ensures Render(ListQuery(status, search).text) == SelectAllSql + OrderBySql
    ensures ListQuery(status, search).params == []
  {
    assert ListQuery(status, search).text == SelectAll + OrderByNewest;
    RenderAppend(SelectAll, OrderByNewest);
    RenderedText(SelectAllSql);
    RenderedText(OrderBySql);
  }

  /** A status filter alone is bound at `$1`. */
  lemma ListStatusOnly(status: Option<string>, search: Option<string>)
    requires Truthy(status) && !Truthy(search)
    ensures Render(ListQuery(status, search).text)
      == SelectAllSql + (WhereStatusSql + "$1") + OrderBySql
    ensures ListQuery(status, search).params == [Str(status.value)]
  {
    assert ListQuery(status, search).text == SelectAll + WhereStatus + OrderByNewest;
    RenderAppend(SelectAll + WhereStatus, OrderByNewest);
    RenderAppend(SelectAll, WhereStatus);
    RenderedText(SelectAllSql);
    RenderedText(OrderBySql);
    RenderedWhereStatus();
  }

  /** A search term alone is bound at `$1`, as its pattern. */
  lemma ListSearchOnly(status: Option<string>, search: Option<string>)
    requires !Truthy(status) && Truthy(search)
    ensures Render(ListQuery(status, search).text)
      == SelectAllSql
         + (WhereTitleSql + ("$1" + (OrDescriptionSql + ("$1" + ")"))))
         + OrderBySql
    ensures ListQuery(status, search).params == [Str("%" + search.value + "%")]
  {
    assert ListQuery(status, search).text == SelectAll + WhereSearch + OrderByNewest;
    RenderAppend(SelectAll + WhereSearch, OrderByNewest);
    RenderAppend(SelectAll, WhereSearch);
    RenderedText(SelectAllSql);
    RenderedText(OrderBySql);
    RenderedWhereSearch();
  }

  /** Both filters: the status at `$1`, the pattern at `$2`, joined by AND. */
  lemma ListBothFilters(status: Option<string>, search: Option<string>)
    requires Truthy(status) && Truthy(search)
    ensures Render(ListQuery(status, search).text)
      == SelectAllSql + (WhereStatusSql + "$1")
         + (AndTitleSql + ("$2" + (OrDescriptionSql + ("$2" + ")"))))
         + OrderBySql
    ensures ListQuery(status, search).params == [Str(status.value), Str("%" + search.value + "%")]
  {
    assert ListQuery(status, search).text == SelectAll + WhereStatus + AndSearch + OrderByNewest;
    RenderAppend(SelectAll + WhereStatus + AndSearch, OrderByNewest);
    RenderAppend(SelectAll + WhereStatus, AndSearch);
    RenderAppend(SelectAll, WhereStatus);
    RenderedText(SelectAllSql);
    RenderedText(OrderBySql);
    RenderedWhereStatus();
    RenderedAndSearch();
  }

  /** The placeholders of the list statement, in order, for each combination
      of filters. */
  lemma ListPlaceholders(status: Option<string>, search: Option<string>)
    ensures Placeholders(ListQuery(status, search).text) ==
      if Truthy(status) && Truthy(search) then [1, 2, 2]
      else if Truthy(status) then [1]
      else if Truthy(search) then [1, 1]
      else []
  {
    RenderedText(SelectAllSql);
    RenderedText(OrderBySql);
    RenderedWhereStatus();
    RenderedAndSearch();
    RenderedWhereSearch();
    PlaceholdersAppend(SelectAll, WhereStatus);
    PlaceholdersAppend(SelectAll + WhereStatus, AndSearch);
    PlaceholdersAppend(SelectAll + WhereStatus + AndSearch, OrderByNewest);
    PlaceholdersAppend(SelectAll + WhereStatus, OrderByNewest);
    PlaceholdersAppend(SelectAll, WhereSearch);
    PlaceholdersAppend(SelectAll + WhereSearch, OrderByNewest);
    PlaceholdersAppend(SelectAll, OrderByNewest);
  }

  /** Whatever the filters, the placeholders line up with the parameters,
      the highest placeholder is their number, and there is one parameter per
      truthy filter. */
  lemma ListQueryAligned(status: Option<string>, search: Option<string>)
    ensures Aligned(ListQuery(status, search))
    ensures MaxOf(Placeholders(ListQuery(status, search).text)) == |ListQuery(status, search).params|
    ensures |ListQuery(status, search).params| == (if Truthy(status) then 1 else 0) + (if Truthy(search) then 1 else 0)
  {
    ListPlaceholders(status, search);
    AlignedMax(ListQuery(status, search));
  }

  /** Whatever the filters, the list statement ends with the newest-first
      ordering. */
  lemma ListNewestFirst(status: Option<string>, search: Option<string>)
    ensures var r := Render(ListQuery(status, search).text);
      |r| >= |OrderBySql| && r[|r| - |OrderBySql|..] == OrderBySql
  {
    var q := ListQuery(status, search);
    var body := q.text[..|q.text| - 1];
    assert q.text == body + OrderByNewest;
    RenderAppend(body, OrderByNewest);
    RenderedText(OrderBySql);
  }

  // ----- get one (GET /api/issues/:id) -----

  const SelectById: seq<Piece> := [Text(SelectByIdSql), Param(1)]

  lemma RenderedSelectById()
    ensures Render(SelectById) == SelectByIdSql + "$1"
    ensures Placeholders(SelectById) == [1]
  {
    RenderedParams();
    assert Render(SelectById[1..]) == "$1";
    assert Placeholders(SelectById[1..]) == [1];
  }

  /** getIssueById: one lookup, 404 on no rows, otherwise the first row. */
  method GetIssueById(id: string, db: Query -> StoreResult) returns (issued: Query, res: Response)
    ensures Render(issued.text) == SelectByIdSql + "$1"
    ensures issued.params == [Str(id)] && Aligned(issued)
    ensures res.code == 500 <==> db(issued).Raised?
    ensures res.code == 404 <==> db(issued) == Rows([])
    ensures db(issued).Raised? ==> res == InternalError
    ensures db(issued) == Rows([]) ==> res == NotFound
    ensures db(issued).Rows? && db(issued).rows != [] ==> res == Response(200, IssueJson(db(issued).rows[0]))
  {
    issued := Query(SelectById, [Str(id)]);
    RenderedSelectById();
    var result := db(issued);
    if result.Raised? {
      res := InternalError;
    } else if |result.rows| == 0 {
      res := NotFound;
    } else {
      res := Response(200, IssueJson(result.rows[0]));
    }
  }

  // ----- create (POST /api/issues) -----

  const InsertIssue: seq<Piece> :=
    [Text(InsertSql), Param(1), Text(", "), Param(2), Text(", "), Param(3), Text(CloseReturningSql)]

  lemma RenderedInsertIssue()
    ensures Render(InsertIssue) ==
      InsertSql + ("$1" + (", " + ("$2" + (", " + ("$3" + CloseReturningSql)))))
    ensures Placeholders(InsertIssue) == [1, 2, 3]
  {
    RenderedParams();
    var t6 := [Text(CloseReturningSql)];
    var t5 := [Param(3)] + t6;
    var t4 := [Text(", ")] + t5;
    var t3 := [Param(2)] + t4;
    var t2 := [Text(", ")] + t3;
    var t1 := [Param(1)] + t2;
    var t0 := [Text(InsertSql)] + t1;
    assert t0 == InsertIssue;
    RenderedText(CloseReturningSql);
    RenderCons(Param(3), t6);
    RenderCons(Text(", "), t5);
    RenderCons(Param(2), t4);
    RenderCons(Text(", "), t3);
    RenderCons(Param(1), t2);
    RenderCons(Text(InsertSql), t1);
  }

  /** `o || null` on an optional string. */
  function OrNull(o: Option<string>): (v: Value)
    ensures Truthy(o) ==> v == Str(o.value)
    ensures !Truthy(o) ==> v == Null
  {
    if Truthy(o) then Str(o.value) else Null
  }

  /** The insert statement for a create request, or None when its title is
      falsy. */
  function InsertQuery(req: CreateIssueRequest): (r: Option<Query>)
    ensures r.None? <==> !Truthy(req.title)
    ensures r.Some? ==> r.value.text == InsertIssue && |r.value.params| == 3
    ensures r.Some? ==> r.value.params[0] == Str(req.title.value)
    ensures r.Some? ==> r.value.params[1] == OrNull(req.description)
    ensures r.Some? ==> (r.value.params[1] == Null <==> !Truthy(req.description))
    ensures r.Some? ==> r.value.params[2] == Str(OrDefault(req.status, "open"))
  {
    if !Truthy(req.title) then None
    else Some(Query(InsertIssue, [Str(req.title.value), OrNull(req.description), Str(OrDefault(req.status, "open"))]))
  }

  /** createIssue: a falsy title is rejected before any statement is issued;
      otherwise the three columns are bound, a falsy description as NULL and
      a falsy status as "open", and the first returned row is answered with
      201. */
  method CreateIssue(req: CreateIssueRequest, db: Query -> StoreResult)
    returns (issued: Option<Query>, res: Response)
    ensures issued == InsertQuery(req)
    ensures issued.None? <==> !Truthy(req.title)
    ensures issued.None? ==> res == Response(400, ErrorJson("Title is required"))
    ensures issued.Some? ==>
      Render(issued.value.text) ==
        InsertSql
        + ("$1" + (", " + ("$2" + (", " + ("$3" + CloseReturningSql)))))
    ensures issued.Some? ==>
      issued.value.params == [Str(req.title.value), OrNull(req.description), Str(OrDefault(req.status, "open"))]
    ensures issued.Some? ==> Aligned(issued.value)
    ensures issued.Some? ==> (res.code == 500 <==> db(issued.value).Raised?)
    ensures issued.Some? && db(issued.value).Raised? ==> res == InternalError
    ensures issued.Some? && db(issued.value).Rows? ==>
      res == Response(201, if db(issued.value).rows == [] then EmptyBody else IssueJson(db(issued.value).rows[0]))
  {
    if !Truthy(req.title) {
      issued := None;
      res := Response(400, ErrorJson("Title is required"));
      return;
    }
    var q := Query(InsertIssue, [Str(req.title.value), OrNull(req.description), Str(OrDefault(req.status, "open"))]);
    RenderedInsertIssue();
    issued := Some(q);
    var result := db(q);
    if result.Raised? {
      res := InternalError;
    } else if result.rows == [] {
      res := Response(201, EmptyBody);
    } else {
      res := Response(201, IssueJson(result.rows[0]));
    }
  }

  // ----- update (PUT /api/issues/:id) -----

  datatype Column = TitleColumn | DescriptionColumn | StatusColumn

  function ColumnName(c: Column): string
  {
    match c
    case TitleColumn => "title"
    case DescriptionColumn => "description"
    case StatusColumn => "status"
  }

  /** The fixed order in which the handler considers the columns. */
  function Rank(c: Column): nat
  {
    match c
    case TitleColumn => 0
    case DescriptionColumn => 1
    case StatusColumn => 2
  }

  /** The request field that sets a column. */
  function FieldOf(req: UpdateIssueRequest, c: Column): Option<string>
  {
    match c
    case TitleColumn => req.title
    case DescriptionColumn => req.description
    case StatusColumn => req.status
  }

  lemma SpelledColumns()
    ensures ColumnName(TitleColumn) + " = " == "title = "
    ensures ColumnName(DescriptionColumn) + " = " == "description = "
    ensures ColumnName(StatusColumn) + " = " == "status = "
  {
  }

  /** One entry of the SET list: `column = $index`, or the timestamp refresh. */
  datatype Assignment = SetColumn(column: Column, index: nat) | TouchUpdatedAt

  function AssignmentSql(a: Assignment): seq<Piece>
  {
    match a
    case SetColumn(c, i) => [Text(ColumnName(c) + " = "), Param(i)]
    case TouchUpdatedAt => [Text(TouchSql)]
  }

  /** `updates.join(', ')`. */
  function JoinAssignments(us: seq<Assignment>): seq<Piece>
  {
    if |us| == 0 then []
    else if |us| == 1 then AssignmentSql(us[0])
    else AssignmentSql(us[0]) + [Text(", ")] + JoinAssignments(us[1..])
  }

  /** The columns the request supplies, by presence and not by truthiness
      (an empty string counts as supplied), in the fixed order. */
  function Supplied(req: UpdateIssueRequest): (cols: seq<Column>)
    ensures forall c :: c in cols <==> FieldOf(req, c).Some?
    ensures forall i, j :: 0 <= i < j < |cols| ==> Rank(cols[i]) < Rank(cols[j])
  {
    (if req.title.Some? then [TitleColumn] else []) +
    (if req.description.Some? then [DescriptionColumn] else []) +
    (if req.status.Some? then [StatusColumn] else [])
  }

  /** The i-th column at placeholder i+1. */
  function Numbered(cols: seq<Column>): (us: seq<Assignment>)
    ensures |us| == |cols|
  {
    seq(|cols|, i requires 0 <= i < |cols| => SetColumn(cols[i], i + 1))
  }

  /** The SET list: the supplied columns, numbered from 1, then the
      timestamp refresh. */
  function SetList(cols: seq<Column>): seq<Assignment>
  {
    Numbered(cols) + [TouchUpdatedAt]
  }

  /** The statement template around the joined SET list. */
  function UpdateText(updates: seq<Assignment>, idIndex: nat): seq<Piece>
  {
    [Text(UpdateSql)] + JoinAssignments(updates) + [Text(WhereIdSql), Param(idIndex), Text(ReturningSql)]
  }

  /** The value a column is bound to: its field's string, NULL when absent
      (which a supplied column never is). */
  function FieldValue(req: UpdateIssueRequest, c: Column): (v: Value)
    ensures FieldOf(req, c).Some? ==> v == Str(FieldOf(req, c).value)
  {
    match FieldOf(req, c)
    case Some(s) => Str(s)
    case None => Null
  }

  /** The values of the given columns, in their order. */
  function BoundValues(req: UpdateIssueRequest, cols: seq<Column>): (vs: seq<Value>)
    ensures |vs| == |cols|
  {
    seq(|cols|, i requires 0 <= i < |cols| => FieldValue(req, cols[i]))
  }

  /** The values bound to the SET list, in the order of the columns. */
  function SuppliedValues(req: UpdateIssueRequest): (vs: seq<Value>)
    ensures |vs| == |Supplied(req)|
  {
    BoundValues(req, Supplied(req))
  }

  lemma NumberedPush(cols: seq<Column>, c: Column)
    ensures Numbered(cols + [c]) == Numbered(cols) + [SetColumn(c, |cols| + 1)]
  {
    assert forall i :: 0 <= i < |cols| ==> (cols + [c])[i] == cols[i];
  }

  lemma BoundPush(req: UpdateIssueRequest, cols: seq<Column>, c: Column)
    requires FieldOf(req, c).Some?
    ensures BoundValues(req, cols + [c]) == BoundValues(req, cols) + [Str(FieldOf(req, c).value)]
  {
    assert forall i :: 0 <= i < |cols| ==> (cols + [c])[i] == cols[i];
  }

  /** The update statement, or None when the request supplies no field. */
  function UpdateQuery(req: UpdateIssueRequest, id: string): (r: Option<Query>)
    ensures r.None? <==> req.title.None? && req.description.None? && req.status.None?
  {
    var cols := Supplied(req);
    if cols == [] then None
    else Some(Query(UpdateText(SetList(cols), |cols| + 1), SuppliedValues(req) + [Str(id)]))
  }

  /** Once the supplied columns are numbered and their values pushed, the
      SET list with the refresh has one entry exactly when nothing was
      supplied, and otherwise the statement around it is `UpdateQuery`. */
  lemma BuiltUpdate(req: UpdateIssueRequest, id: string, numbered: seq<Assignment>, values: seq<Value>, paramIndex: nat)
    requires numbered == Numbered(Supplied(req)) && values == SuppliedValues(req)
    requires paramIndex == |Supplied(req)| + 1
    ensures |numbered + [TouchUpdatedAt]| == 1 <==> UpdateQuery(req, id).None?
    ensures |numbered + [TouchUpdatedAt]| != 1 ==>
      UpdateQuery(req, id) == Some(Query(UpdateText(numbered + [TouchUpdatedAt], paramIndex), values + [Str(id)]))
  {
  }

  /** updateIssue: the SET list and the values are pushed side by side while
      a counter hands out the placeholder numbers; the id is bound last, at
      the counter's final value. */
  method UpdateIssue(id: string, req: UpdateIssueRequest, db: Query -> StoreResult)
    returns (issued: Option<Query>, res: Response)
    ensures issued == UpdateQuery(req, id)
    ensures issued.None? ==> res == Response(400, ErrorJson("No fields to update"))
    ensures issued.Some? ==> (res.code == 500 <==> db(issued.value).Raised?)
    ensures issued.Some? ==> (res.code == 404 <==> db(issued.value) == Rows([]))
    ensures issued.Some? && db(issued.value).Raised? ==> res == InternalError
    ensures issued.Some? && db(issued.value) == Rows([]) ==> res == NotFound
    ensures issued.Some? && db(issued.value).Rows? && db(issued.value).rows != [] ==>
      res == Response(200, IssueJson(db(issued.value).rows[0]))
  {
    var updates: seq<Assignment> := [];
    var values: seq<Value> := [];
    var paramIndex: nat := 1;
    // the columns pushed so far
    ghost var cols: seq<Column> := [];

    if req.title.Some? {
      NumberedPush(cols, TitleColumn);
      BoundPush(req, cols, TitleColumn);
      updates := updates + [SetColumn(TitleColumn, paramIndex)];
      paramIndex := paramIndex + 1;
      values := values + [Str(req.title.value)];
      cols := cols + [TitleColumn];
    }
    assert cols == (if req.title.Some? then [TitleColumn] else []);
    assert updates == Numbered(cols) && values == BoundValues(req, cols) && paramIndex == |cols| + 1;
    if req.description.Some? {
      NumberedPush(cols, DescriptionColumn);
      BoundPush(req, cols, DescriptionColumn);
      updates := updates + [SetColumn(DescriptionColumn, paramIndex)];
      paramIndex := paramIndex + 1;
      values := values + [Str(req.description.value)];
      cols := cols + [DescriptionColumn];
    }
    assert cols == (if req.title.Some? then [TitleColumn] else []) +
                   (if req.description.Some? then [DescriptionColumn] else []);
    assert updates == Numbered(cols) && values == BoundValues(req, cols) && paramIndex == |cols| + 1;
    if req.status.Some? {
      NumberedPush(cols, StatusColumn);
      BoundPush(req, cols, StatusColumn);
      updates := updates + [SetColumn(StatusColumn, paramIndex)];
      paramIndex := paramIndex + 1;
      values := values + [Str(req.status.value)];
      cols := cols + [StatusColumn];
    }
    assert cols == Supplied(req);
    BuiltUpdate(req, id, updates, values, paramIndex);

    updates := updates + [TouchUpdatedAt];

    if |updates| == 1 {
      issued := None;
      res := Response(400, ErrorJson("No fields to update"));
      return;
    }

    values := values + [Str(id)];
    var q := Query(UpdateText(updates, paramIndex), values);
    issued := Some(q);
    var result := db(q);
    if result.Raised? {
      res := InternalError;
    } else if |result.rows| == 0 {
      res := NotFound;
    } else {
      res := Response(200, IssueJson(result.rows[0]));
    }
  }

  lemma AssignmentPlaceholders(a: Assignment)
    ensures Placeholders(AssignmentSql(a)) == if a.SetColumn? then [a.index] else []
  {
    match a
    case SetColumn(c, i) =>
      var t := AssignmentSql(a);
      assert t[1..] == [Param(i)];
      assert t[1..][1..] == [];
    case TouchUpdatedAt =>
      RenderedText(TouchSql);
  }

  /** The placeholders of a joined SET list whose last entry is the timestamp
      refresh and whose other entries all set a column are those entries'
      indices, in order. */
  lemma {:induction false} JoinedPlaceholders(us: seq<Assignment>)
    requires |us| >= 1 && us[|us| - 1] == TouchUpdatedAt
    requires forall i :: 0 <= i < |us| - 1 ==> us[i].SetColumn?
    ensures Placeholders(JoinAssignments(us)) == seq(|us| - 1, i requires 0 <= i < |us| - 1 => us[i].index)
  {
    if |us| == 1 {
      AssignmentPlaceholders(us[0]);
    } else {
      JoinedPlaceholders(us[1..]);
      AssignmentPlaceholders(us[0]);
      RenderedText(", ");
      PlaceholdersAppend(AssignmentSql(us[0]), [Text(", ")]);
      var head := AssignmentSql(us[0]) + [Text(", ")];
      assert JoinAssignments(us) == head + JoinAssignments(us[1..]);
      PlaceholdersAppend(head, JoinAssignments(us[1..]));
      assert Placeholders(head) == [us[0].index];
      IndicesCons(us);
    }
  }

  lemma IndicesCons(us: seq<Assignment>)
    requires |us| >= 2 && forall i :: 0 <= i < |us| - 1 ==> us[i].SetColumn?
    ensures [us[0].index] + seq(|us| - 2, i requires 0 <= i < |us| - 2 => us[1..][i].index)
      == seq(|us| - 1, i requires 0 <= i < |us| - 1 => us[i].index)
  {
  }

  /** The placeholders of the update template: those of the SET list, then
      the id's. */
  lemma UpdateTextPlaceholders(updates: seq<Assignment>, idIndex: nat)
    ensures Placeholders(UpdateText(updates, idIndex)) == Placeholders(JoinAssignments(updates)) + [idIndex]
  {
    var joined := JoinAssignments(updates);
    var tail := [Text(WhereIdSql), Param(idIndex), Text(ReturningSql)];
    RenderedText(UpdateSql);
    PlaceholdersAppend([Text(UpdateSql)], joined);
    PlaceholdersAppend([Text(UpdateSql)] + joined, tail);
    assert tail[1..] == [Param(idIndex), Text(ReturningSql)];
    assert tail[1..][1..] == [Text(ReturningSql)];
    RenderedText(ReturningSql);
    assert Placeholders(tail[1..]) == [idIndex];
  }

  /** The placeholders of a SET list are 1 to k, in order. */
  lemma SetListPlaceholders(cols: seq<Column>)
    ensures Placeholders(JoinAssignments(SetList(cols))) == seq(|cols|, i requires 0 <= i < |cols| => i + 1)
  {
    JoinedPlaceholders(SetList(cols));
  }

  /** With k supplied fields the statement uses `$1` to `$k` for them, in
      order, then `$(k+1)` for the id; it holds k+1 values, the id last, and
      is aligned. */
  lemma UpdatePlaceholders(req: UpdateIssueRequest, id: string)
    requires UpdateQuery(req, id).Some?
    ensures var q := UpdateQuery(req, id).value; var k := |Supplied(req)|;
      Placeholders(q.text) == seq(k + 1, i requires 0 <= i <= k => i + 1) &&
      |q.params| == k + 1 && q.params[k] == Str(id) &&
      Aligned(q) && MaxOf(Placeholders(q.text)) == k + 1
  {
    var cols := Supplied(req);
    var k := |cols|;
    var q := UpdateQuery(req, id).value;
    SetListPlaceholders(cols);
    UpdateTextPlaceholders(SetList(cols), k + 1);
    CountingUp(q, k);
  }

  /** A statement with k+1 parameters whose placeholders count up from `$1`
      to `$k+1` is aligned. */
  lemma CountingUp(q: Query, k: nat)
    requires Placeholders(q.text) == seq(k, i requires 0 <= i < k => i + 1) + [k + 1]
    requires |q.params| == k + 1
    ensures Placeholders(q.text) == seq(k + 1, i requires 0 <= i <= k => i + 1)
    ensures Aligned(q) && MaxOf(Placeholders(q.text)) == k + 1
  {
    var ps := Placeholders(q.text);
    assert ps == seq(k + 1, i requires 0 <= i <= k => i + 1);
    forall n | 1 <= n <= k + 1 ensures n in ps {
      assert ps[n - 1] == n;
    }
    AlignedMax(q);
  }

  /** The SET list holds exactly the supplied columns, in the fixed order
      title, description, status, numbered consecutively from `$1`, and each
      placeholder is bound to its own field's value; the timestamp refresh
      comes last. */
  lemma UpdateSetList(req: UpdateIssueRequest, id: string)
    requires UpdateQuery(req, id).Some?
    ensures var us := SetList(Supplied(req)); var k := |us| - 1; var q := UpdateQuery(req, id).value;
      q.text == UpdateText(us, k + 1) &&
      us[k] == TouchUpdatedAt &&
      (forall i :: 0 <= i < k ==> us[i].SetColumn? && us[i].index == i + 1) &&
      (forall i, j :: 0 <= i < j < k ==> Rank(us[i].column) < Rank(us[j].column)) &&
      (forall c :: FieldOf(req, c).Some? <==> exists i :: 0 <= i < k && us[i].column == c) &&
      (forall i :: 0 <= i < k ==> q.params[i] == Str(FieldOf(req, us[i].column).value))
  {
    var cols := Supplied(req);
    var us := SetList(cols);
    var k := |cols|;
    var q := UpdateQuery(req, id).value;
    assert |us| == k + 1 && us[k] == TouchUpdatedAt;
    assert forall i :: 0 <= i < k ==> us[i] == SetColumn(cols[i], i + 1);
    assert q.params == SuppliedValues(req) + [Str(id)];
    assert forall i :: 0 <= i < k ==> q.params[i] == SuppliedValues(req)[i];
    forall c | FieldOf(req, c).Some? ensures exists i :: 0 <= i < |cols| && us[i].column == c {
      var i :| 0 <= i < |cols| && cols[i] == c;
      assert us[i].column == c;
    }
  }

  /** The statement of an update that supplies only the description. */
  const DescriptionOnlyText: seq<Piece> :=
    [Text(UpdateSql), Text(ColumnName(DescriptionColumn) + " = "), Param(1), Text(", "), Text(TouchSql),
     Text(WhereIdSql), Param(2), Text(ReturningSql)]

  lemma DescriptionOnlyUpdate(description: string, id: string)
    ensures UpdateQuery(UpdateIssueRequest(None, Some(description), None), id)
      == Some(Query(DescriptionOnlyText, [Str(description), Str(id)]))
  {
    var req := UpdateIssueRequest(None, Some(description), None);
    assert Supplied(req) == [DescriptionColumn];
    var us := SetList([DescriptionColumn]);
    assert us == [SetColumn(DescriptionColumn, 1), TouchUpdatedAt];
    assert us[1..] == [TouchUpdatedAt];
    assert JoinAssignments(us) == [Text(ColumnName(DescriptionColumn) + " = "), Param(1), Text(", "), Text(TouchSql)];
    assert UpdateText(us, 2) == DescriptionOnlyText;
    assert SuppliedValues(req) + [Str(id)] == [Str(description), Str(id)];
    assert UpdateQuery(req, id) == Some(Query(UpdateText(us, 2), SuppliedValues(req) + [Str(id)]));
  }

  lemma RenderedDescriptionOnly()
    ensures Render(DescriptionOnlyText) ==
      UpdateSql + ("description = " + ("$1" + (", " + (TouchSql
      + (WhereIdSql + ("$2" + ReturningSql))))))
  {
    var text := DescriptionOnlyText;
    RenderedParams();
    SpelledColumns();
    assert Render(text[7..]) == ReturningSql;
    assert Render(text[6..]) == "$2" + ReturningSql;
    assert Render(text[5..]) == WhereIdSql + ("$2" + ReturningSql);
    assert Render(text[4..]) == TouchSql + (WhereIdSql + ("$2" + ReturningSql));
    assert Render(text[3..]) == ", " + (TouchSql + (WhereIdSql + ("$2" + ReturningSql)));
    assert Render(text[2..]) == "$1" + (", " + (TouchSql + (WhereIdSql + ("$2" + ReturningSql))));
    assert Render(text[1..]) == "description = " + ("$1" + (", " + (TouchSql + (WhereIdSql + ("$2" + ReturningSql)))));
  }

  /** An explicitly empty description is written as an empty string by an
      update (`description = $1` bound to ""), whereas create binds NULL for
      it. */
  lemma PresenceVersusTruthiness(id: string)
    ensures var upd := UpdateQuery(UpdateIssueRequest(None, Some(""), None), id);
      upd.Some? &&
      Render(upd.value.text) ==
        UpdateSql + ("description = " + ("$1" + (", " + (TouchSql
        + (WhereIdSql + ("$2" + ReturningSql)))))) &&
      upd.value.params == [Str(""), Str(id)]
    ensures OrNull(Some("")) == Null
  {
    DescriptionOnlyUpdate("", id);
    RenderedDescriptionOnly();
  }

  // ----- delete (DELETE /api/issues/:id) -----

  const DeleteById: seq<Piece> := [Text(DeleteByIdSql), Param(1), Text(ReturningSql)]

  lemma RenderedDeleteById()
    ensures Render(DeleteById) == DeleteByIdSql + ("$1" + ReturningSql)
    ensures Placeholders(DeleteById) == [1]
  {
    RenderedParams();
    assert Render(DeleteById[2..]) == ReturningSql;
    assert Render(DeleteById[1..]) == "$1" + ReturningSql;
    assert Placeholders(DeleteById[1..]) == [1];
  }

  /** deleteIssue: 404 on no rows, otherwise a confirmation carrying the
      deleted row. */
  method DeleteIssue(id: string, db: Query -> StoreResult) returns (issued: Query, res: Response)
    ensures Render(issued.text) == DeleteByIdSql + ("$1" + ReturningSql)
    ensures issued.params == [Str(id)] && Aligned(issued)
    ensures res.code == 500 <==> db(issued).Raised?
    ensures res.code == 404 <==> db(issued) == Rows([])
    ensures db(issued).Raised? ==> res == InternalError
    ensures db(issued) == Rows([]) ==> res == NotFound
    ensures db(issued).Rows? && db(issued).rows != [] ==>
      res == Response(200, DeletedJson("Issue deleted successfully", db(issued).rows[0]))
  {
    issued := Query(DeleteById, [Str(id)]);
    RenderedDeleteById();
    var result := db(issued);
    if result.Raised? {
      res := InternalError;
    } else if |result.rows| == 0 {
      res := NotFound;
    } else {
      res := Response(200, DeletedJson("Issue deleted successfully", result.rows[0]));
    }
  }
}
