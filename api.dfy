/** The HTTP back end: three datasets loaded once at start-up and three lookup endpoints
    that answer with the rows of one dataset whose gene symbol matches the query.
    The datasets are parameters of each endpoint rather than process-wide globals. */
module Api {
  import opened Json
  import opened Text

  // ---------------------------------------------------------------- tables

  /** One row of a data frame, by column name. */
  type Row = map<string, Value>

  /** A data frame: its column names in order and its rows in order. */
  datatype Table = Table(columns: seq<string>, rows: seq<Row>)

  /** The cell of a row in a column. A cell the CSV line does not supply is NaN (Null). */
  function Cell(row: Row, column: string): Value
  {
    if column in row then row[column] else Null
  }

  /** pandas' `DataFrame.empty`: no rows or no columns. */
  predicate IsEmpty(t: Table)
  {
    |t.columns| == 0 || |t.rows| == 0
  }

  /** A CSV file as the loader finds it on disk. */
  datatype CsvFile = Missing | Unreadable | Parsed(table: Table)

  /** Loading never raises: a missing or unreadable file gives the empty data frame. */
  function LoadCsv(file: CsvFile): (t: Table)
    ensures file.Parsed? ==> t == file.table
    ensures !file.Parsed? ==> IsEmpty(t)
  {
    if file.Parsed? then file.table else Table([], [])
  }

  // ---------------------------------------------------------------- matching

  /** Whether the row's Gene cell, upper-cased, equals g. A NaN or numeric cell never
      matches (`.str.upper()` makes it NaN). */
  predicate Matches(row: Row, g: string)
  {
    var c := Cell(row, "Gene");
    c.Str? && Upper(c.text) == g
  }

  predicate NoMatch(rows: seq<Row>, g: string)
  {
    forall i :: 0 <= i < |rows| ==> !Matches(rows[i], g)
  }

  predicate IsFirstMatch(rows: seq<Row>, g: string, i: int)
  {
    0 <= i < |rows| && Matches(rows[i], g) && forall j :: 0 <= j < i ==> !Matches(rows[j], g)
  }

  /** The boolean-mask filter `df[df["Gene"].str.upper() == g]`: the matching rows. */
  function Select(rows: seq<Row>, g: string): (hits: seq<Row>)
    ensures |hits| <= |rows|
    ensures forall k :: 0 <= k < |hits| ==> hits[k] in rows && Matches(hits[k], g)
    ensures forall i :: 0 <= i < |rows| && Matches(rows[i], g) ==> rows[i] in hits
    ensures hits == [] <==> NoMatch(rows, g)
  {
    if rows == [] then []
    else if Matches(rows[0], g) then [rows[0]] + Select(rows[1..], g)
    else
      var hits := Select(rows[1..], g);
      assert forall i :: 1 <= i < |rows| ==> rows[i] == rows[1..][i - 1];
      hits
  }

  /** The positions of the matching rows, in increasing order: an independent account of
      which rows the filter keeps. */
  function MatchIndices(rows: seq<Row>, g: string): (ix: seq<nat>)
    ensures forall k :: 0 <= k < |ix| ==> ix[k] < |rows| && Matches(rows[ix[k]], g)
    ensures forall k, l :: 0 <= k < l < |ix| ==> ix[k] < ix[l]
    ensures forall i :: 0 <= i < |rows| && Matches(rows[i], g) ==> i in ix
  {
    if rows == [] then []
    else
      var n := |rows| - 1;
      var front := MatchIndices(rows[..n], g);
      assert forall i :: 0 <= i < n ==> rows[..n][i] == rows[i];
      front + (if Matches(rows[n], g) then [n] else [])
  }

  lemma {:induction false} SelectAppend(a: seq<Row>, b: seq<Row>, g: string)
    ensures Select(a + b, g) == Select(a, g) + Select(b, g)
  {
    if a == [] {
      assert a + b == b;
    } else {
      assert (a + b)[1..] == a[1..] + b;
      SelectAppend(a[1..], b, g);
    }
  }

  /** The filter keeps exactly the matching rows, in table order: its k-th row is the row
      at the k-th matching position. */
  lemma {:induction false} SelectInOrder(rows: seq<Row>, g: string)
    ensures var hits, ix := Select(rows, g), MatchIndices(rows, g);
              |hits| == |ix| && forall k :: 0 <= k < |ix| ==> hits[k] == rows[ix[k]]
  {
    if rows != [] {
      var n := |rows| - 1;
      var front := rows[..n];
      assert rows == front + [rows[n]];
      SelectAppend(front, [rows[n]], g);
      SelectInOrder(front, g);
      var hit := Matches(rows[n], g);
      assert Select([rows[n]], g) == if hit then [rows[n]] else [];
      InOrderStep(rows, Select(front, g), MatchIndices(front, g), hit);
    }
  }

  /** The inductive step of SelectInOrder: appending the last row, and its index when it
      matches, keeps the kept rows and the matching positions in step. */
  lemma InOrderStep(rows: seq<Row>, fh: seq<Row>, fx: seq<nat>, hit: bool)
    requires rows != []
    requires |fh| == |fx|
    requires forall k :: 0 <= k < |fx| ==> fx[k] < |rows| - 1 && fh[k] == rows[..|rows| - 1][fx[k]]
    ensures var n := |rows| - 1;
      var hits, ix := fh + (if hit then [rows[n]] else []), fx + (if hit then [n] else []);
      |hits| == |ix| && forall k :: 0 <= k < |ix| ==> hits[k] == rows[ix[k]]
  {
  }

  /** The first row of the filtered frame is the first matching row of the table. */
  lemma FirstHit(rows: seq<Row>, g: string)
    requires !NoMatch(rows, g)
    ensures Select(rows, g) != [] && IsFirstMatch(rows, g, MatchIndices(rows, g)[0])
    ensures Select(rows, g)[0] == rows[MatchIndices(rows, g)[0]]
  {
    SelectInOrder(rows, g);
  }

  /** Whichever way the first match is named, the filter's first row is that row. */
  lemma FirstHitIsFirstMatch(rows: seq<Row>, g: string)
    requires !NoMatch(rows, g)
    ensures Select(rows, g) != []
    ensures forall i :: IsFirstMatch(rows, g, i) ==> Select(rows, g)[0] == rows[i]
  {
    FirstHit(rows, g);
    var f := MatchIndices(rows, g)[0];
    forall i | IsFirstMatch(rows, g, i) ensures Select(rows, g)[0] == rows[i] {
      assert !(i < f) && !(f < i);
    }
  }

  // ---------------------------------------------------------------- shaping

  /** `row.to_dict()` restricted to the given columns. */
  function Record(columns: seq<string>, row: Row): map<string, Value>
  {
    map c | c in columns :: Cell(row, c)
  }

  /** `frame.to_dict(orient="records")` for the given columns. */
  function Records(columns: seq<string>, rows: seq<Row>): seq<Value>
  {
    seq(|rows|, k requires 0 <= k < |rows| => Obj(Record(columns, rows[k])))
  }

  const DrugColumns: seq<string> := ["Drug", "Interaction"]

  /** The drug projection has exactly the two keys, copied from the row. */
  lemma DrugRecordShape()
    ensures forall row :: Record(DrugColumns, row) ==
              map["Drug" := Cell(row, "Drug"), "Interaction" := Cell(row, "Interaction")]
  {
    forall row ensures Record(DrugColumns, row) ==
                 map["Drug" := Cell(row, "Drug"), "Interaction" := Cell(row, "Interaction")] {
      assert Record(DrugColumns, row).Keys == {"Drug", "Interaction"};
    }
  }

  function ErrorBody(message: string): Value
  {
    Obj(map["error" := Str(message)])
  }

  function NotFoundBody(gene: string, field: string): Value
  {
    Obj(map["gene" := Str(gene), field := Str("Not found")])
  }

  /** What an endpoint does with one request: returns a JSON body (served with status
      200), or raises, which the framework turns into status 500. */
  datatype Reply = Body(json: Value) | ServerError(exception: string)

  /** A dataset is searched when it is not empty and has a Gene column; otherwise the
      endpoint answers before looking at any row. */
  predicate Searched(t: Table)
  {
    !IsEmpty(t) && "Gene" in t.columns
  }

  // ---------------------------------------------------------------- endpoints

  /** GET /: a welcome object with a single "message" field. */
  function ReadRoot(): (r: Value)
    ensures r.Obj? && r.fields.Keys == {"message"} && r.fields["message"] == Str("Welcome to the AutoBio-X API!")
  {
    Obj(map["message" := Str("Welcome to the AutoBio-X API!")])
  }

  /** GET /health: an object whose only field "status" is "ok". */
  function Health(): (r: Value)
    ensures r.Obj? && r.fields.Keys == {"status"} && r.fields["status"] == Str("ok")
  {
    Obj(map["status" := Str("ok")])
  }

  /** GET /expression/{gene}: the first matching row without its first column. */
  function GetExpression(expression: Table, gene: string): (r: Reply)
    ensures IsEmpty(expression) ==> r == Body(ErrorBody("Expression dataset not available."))
    ensures !IsEmpty(expression) && "Gene" !in expression.columns ==> r.ServerError?
    ensures Searched(expression) ==>
              (r == Body(NotFoundBody(Upper(gene), "expression")) <==> NoMatch(expression.rows, Upper(gene)))
    ensures Searched(expression) ==>
              forall i :: IsFirstMatch(expression.rows, Upper(gene), i) ==>
                r == Body(Obj(map["gene" := Str(Upper(gene)),
                                  "expression" := Obj(Record(expression.columns[1..], expression.rows[i]))]))
  {
    if IsEmpty(expression) then Body(ErrorBody("Expression dataset not available."))
    else if "Gene" !in expression.columns then ServerError("KeyError: 'Gene'")
    else
      var g := Upper(gene);
      var hits := Select(expression.rows, g);
      if hits == [] then Body(NotFoundBody(g, "expression"))
      else
        FirstHitIsFirstMatch(expression.rows, g);
        var found := map["gene" := Str(g), "expression" := Obj(Record(expression.columns[1..], hits[0]))];
        assert found != NotFoundBody(g, "expression").fields by {
          assert found["expression"] != Str("Not found");
        }
        Body(Obj(found))
  }

  /** GET /mutation/{gene}: every matching row, whole, in table order. */
  function GetMutation(mutation: Table, gene: string): (r: Reply)
    ensures IsEmpty(mutation) ==> r == Body(ErrorBody("Mutation dataset not available."))
    ensures !IsEmpty(mutation) && "Gene" !in mutation.columns ==> r.ServerError?
    ensures Searched(mutation) ==>
              (r == Body(NotFoundBody(Upper(gene), "mutation")) <==> NoMatch(mutation.rows, Upper(gene)))
    ensures Searched(mutation) && !NoMatch(mutation.rows, Upper(gene)) ==>
              var ix := MatchIndices(mutation.rows, Upper(gene));
              r.Body? && r.json.Arr? && |r.json.items| == |ix| &&
              forall k :: 0 <= k < |ix| ==> r.json.items[k] == Obj(Record(mutation.columns, mutation.rows[ix[k]]))
  {
    if IsEmpty(mutation) then Body(ErrorBody("Mutation dataset not available."))
    else if "Gene" !in mutation.columns then ServerError("KeyError: 'Gene'")
    else
      var g := Upper(gene);
      var hits := Select(mutation.rows, g);
      if hits == [] then Body(NotFoundBody(g, "mutation"))
      else
        SelectInOrder(mutation.rows, g);
        Body(Arr(Records(mutation.columns, hits)))
  }

  /** GET /drugs/{gene}: every matching row, in table order, cut down to Drug and
      Interaction; a dataset without those columns raises once a row matches. */
  function GetDrugs(drug: Table, gene: string): (r: Reply)
    ensures IsEmpty(drug) ==> r == Body(ErrorBody("Drug dataset not available."))
    ensures !IsEmpty(drug) && "Gene" !in drug.columns ==> r.ServerError?
    ensures Searched(drug) ==>
              (r == Body(NotFoundBody(Upper(gene), "drugs")) <==> NoMatch(drug.rows, Upper(gene)))
    ensures Searched(drug) && !NoMatch(drug.rows, Upper(gene)) ==>
              (r.ServerError? <==> !("Drug" in drug.columns && "Interaction" in drug.columns))
    ensures Searched(drug) && !NoMatch(drug.rows, Upper(gene)) && !r.ServerError? ==>
              var ix := MatchIndices(drug.rows, Upper(gene));
              r.Body? && r.json.Arr? && |r.json.items| == |ix| &&
              forall k :: 0 <= k < |ix| ==>
                r.json.items[k] == Obj(map["Drug" := Cell(drug.rows[ix[k]], "Drug"),
                                           "Interaction" := Cell(drug.rows[ix[k]], "Interaction")])
  {
    if IsEmpty(drug) then Body(ErrorBody("Drug dataset not available."))
    else if "Gene" !in drug.columns then ServerError("KeyError: 'Gene'")
    else
      var g := Upper(gene);
      var hits := Select(drug.rows, g);
      if hits == [] then Body(NotFoundBody(g, "drugs"))
      else if !("Drug" in drug.columns && "Interaction" in drug.columns) then
        ServerError("KeyError: \"['Drug', 'Interaction'] not in index\"")
      else
        SelectInOrder(drug.rows, g);
        DrugRecordShape();
        Body(Arr(Records(DrugColumns, hits)))
  }

  /** The endpoints see the query only through its upper-cased form. */
  lemma CaseInsensitive(t: Table, gene: string)
    ensures GetExpression(t, gene) == GetExpression(t, Upper(gene))
    ensures GetMutation(t, gene) == GetMutation(t, Upper(gene))
    ensures GetDrugs(t, gene) == GetDrugs(t, Upper(gene))
  {
    UpperIdempotent(gene);
  }

  /** How the framework serves a reply: a body with status 200, an uncaught exception as
      status 500 with a plain-text body that is not JSON. */
  function Serve(r: Reply): Outcome
  {
    match r
    case Body(json) => Replied(200, Some(json))
    case ServerError(_) => Replied(500, None)
  }
}
