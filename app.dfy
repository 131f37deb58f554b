/** The front end: it reads a gene symbol, asks the back end for the three kinds of data,
    falls back to fixed samples when a request fails, shows one panel per kind and offers
    a PDF report when all three look usable. The network is a parameter: a function from
    the requested URL to the outcome of the request. */
module App {
  import opened Json
  import opened Text
  import Api

  const BaseApi: string := "https://autobio-x.onrender.com"

  function ExpressionUrl(gene: string): string { BaseApi + "/expression/" + gene }
  function MutationUrl(gene: string): string { BaseApi + "/mutation/" + gene }
  function DrugsUrl(gene: string): string { BaseApi + "/drugs/" + gene }

  // ---------------------------------------------------------------- fetching

  function SampleExpression(): Value
  {
    Obj(map["Sample_1" := Num(8.2), "Sample_2" := Num(7.9), "Sample_3" := Num(8.4)])
  }

  function SampleMutations(): Value
  {
    Arr([Obj(map["Mutation" := Str("p.R175H"), "Impact" := Str("High")]),
         Obj(map["Mutation" := Str("p.R248Q"), "Impact" := Str("Medium")])])
  }

  function SampleDrugs(): Value
  {
    Arr([Obj(map["Drug" := Str("Olaparib"), "Status" := Str("Approved")]),
         Obj(map["Drug" := Str("Talazoparib"), "Status" := Str("Clinical Trial")])])
  }

  /** The record a helper makes of a response whose status is not 200. */
  function ApiError(status: int): Value
  {
    Obj(map["error" := Str("API returned " + Decimal(status))])
  }

  /** Whether a 200 response's body can be read: `r.json()` raises on a body that is not
      JSON, and the exception handler then takes over. */
  predicate Decodes(o: Outcome)
  {
    o.Replied? && o.body.Some?
  }

  /** get_expression_data: a 200 response gives its "expression" field ({} when absent);
      another status gives an error record; an exception anywhere in the try block, including
      a body that is not JSON or not a JSON object, gives the fixed sample. */
  function FetchExpression(o: Outcome): (v: Value)
    ensures o.Replied? && o.status != 200 ==> v == ApiError(o.status)
    ensures o.Replied? && o.status == 200 && Decodes(o) && o.body.value.Obj? ==>
              var fields := o.body.value.fields;
              if "expression" in fields then v == fields["expression"] else v == Obj(map[])
    ensures o.Raised? || (o.status == 200 && !(Decodes(o) && o.body.value.Obj?)) ==>
              v == SampleExpression()
  {
    match o
    case Raised(_) => SampleExpression()
    case Replied(status, body) =>
      if status != 200 then ApiError(status)
      else if body.Some? && body.value.Obj? then Get(body.value.fields, "expression", Obj(map[]))
      else SampleExpression()
  }

  /** get_mutation_data and get_drug_data: a 200 response gives its whole body; another
      status gives a one-element list holding an error record; an exception, including a
      body that is not JSON, gives the fixed sample. */
  function FetchRecords(o: Outcome, sample: Value): (v: Value)
    ensures o.Replied? && o.status != 200 ==> v == Arr([ApiError(o.status)])
    ensures o.Replied? && o.status == 200 && Decodes(o) ==> v == o.body.value
    ensures o.Raised? || (o.status == 200 && !Decodes(o)) ==> v == sample
  {
    match o
    case Raised(_) => sample
    case Replied(status, body) =>
      if status != 200 then Arr([ApiError(status)])
      else if body.Some? then body.value
      else sample
  }

  function FetchMutation(o: Outcome): Value { FetchRecords(o, SampleMutations()) }

  function FetchDrugs(o: Outcome): Value { FetchRecords(o, SampleDrugs()) }

  // ---------------------------------------------------------------- safe_text

  predicate IsLatin1(c: char)
  {
    c as int <= 255
  }

  /** safe_text: encoding to Latin-1 with errors ignored and decoding back drops every
      character above code point 255. */
  function SafeText(s: string): (r: string)
    ensures |r| <= |s|
    ensures forall i :: 0 <= i < |r| ==> IsLatin1(r[i])
  {
    if s == [] then [] else (if IsLatin1(s[0]) then [s[0]] else []) + SafeText(s[1..])
  }

  lemma {:induction false} SafeTextAppend(a: string, b: string)
    ensures SafeText(a + b) == SafeText(a) + SafeText(b)
  {
    if a == [] {
      assert a + b == b;
    } else {
      assert (a + b)[1..] == a[1..] + b;
      SafeTextAppend(a[1..], b);
    }
  }

  /** A Latin-1 string comes through unchanged. */
  lemma {:induction false} SafeTextKeepsLatin1(s: string)
    requires forall i :: 0 <= i < |s| ==> IsLatin1(s[i])
    ensures SafeText(s) == s
  {
    if s != [] {
      assert forall i :: 0 <= i < |s[1..]| ==> s[1..][i] == s[i + 1];
      SafeTextKeepsLatin1(s[1..]);
      assert s == [s[0]] + s[1..];
    }
  }

  lemma SafeTextIdempotent(s: string)
    ensures SafeText(SafeText(s)) == SafeText(s)
  {
    SafeTextKeepsLatin1(SafeText(s));
  }

  /** Each Latin-1 character is kept as often as it occurs, every other one is dropped;
      with SafeTextAppend this says the output is the input's Latin-1 characters in order. */
  lemma {:induction false} SafeTextCounts(s: string, c: char)
    ensures multiset(SafeText(s))[c] == if IsLatin1(c) then multiset(s)[c] else 0
  {
    if s != [] {
      SafeTextCounts(s[1..], c);
      assert s == [s[0]] + s[1..];
      assert multiset(s) == multiset([s[0]]) + multiset(s[1..]);
    }
  }

  // ---------------------------------------------------------------- the ok tests

  /** The result of evaluating a Python expression that may raise. */
  datatype Eval<T> = Done(value: T) | Crash(exception: string)

  /** `needle in hay` on two str values: substring search. */
  predicate IsInfix(needle: string, hay: string)
  {
    needle <= hay || (hay != [] && IsInfix(needle, hay[1..]))
  }

  /** `key in container` for a str key: dict membership, substring search, list membership,
      and a TypeError for None, bool and numbers. */
  function Contains(container: Value, key: string): Eval<bool>
  {
    match container
    case Obj(fields) => Done(key in fields)
    case Str(s) => Done(IsInfix(key, s))
    case Arr(items) => Done(Str(key) in items)
    case _ => Crash("TypeError")
  }

  /** expression_ok: `expr and isinstance(expr, dict) and "error" not in expr`. */
  predicate ExpressionOk(expr: Value)
    ensures ExpressionOk(expr) <==> expr.Obj? && expr.fields != map[] && "error" !in expr.fields
  {
    Truthy(expr) && expr.Obj? && "error" !in expr.fields
  }

  /** mutation_ok and drug_ok: `v and isinstance(v, list) and "error" not in v[0]`. Only
      element 0 is inspected; when it is None, a bool or a number the test raises. */
  function RecordsOk(v: Value): (ok: Eval<bool>)
    ensures ok == Done(true) ==> v.Arr? && v.items != []
    ensures !(v.Arr? && v.items != []) ==> ok == Done(false)
    ensures v.Arr? && v.items != [] && v.items[0].Obj? ==> ok == Done("error" !in v.items[0].fields)
    ensures v.Arr? && v.items != [] && v.items[0].Str? ==> ok == Done(!IsInfix("error", v.items[0].text))
    ensures v.Arr? && v.items != [] && v.items[0].Arr? ==> ok == Done(Str("error") !in v.items[0].items)
    ensures ok.Crash? <==> v.Arr? && v.items != [] && (v.items[0].Null? || v.items[0].Bool? || v.items[0].Num?)
  {
    if !(Truthy(v) && v.Arr?) then Done(false)
    else
      match Contains(v.items[0], "error")
      case Done(present) => Done(!present)
      case Crash(e) => Crash(e)
  }

  lemma OnlyFirstRecordInspected(first: Value, rest1: seq<Value>, rest2: seq<Value>)
    ensures RecordsOk(Arr([first] + rest1)) == RecordsOk(Arr([first] + rest2))
  {
  }

  // ---------------------------------------------------------------- display

  /** What the page shows for one kind of data: a table, a warning, or the exception that
      stops the script. */
  datatype Panel = Shown(data: Value) | Warned(message: Value) | Crashed(exception: string)

  const NoExpressionData: string := "No expression data available."
  const NoMutationData: string := "No mutation data found."
  const NoDrugData: string := "No drug matches found."

  /** The expression panel as written: a table when expression_ok holds, otherwise
      `expr.get("error", ...)`, which raises AttributeError when expr is not a dict. */
  function ShowExpressionAsWritten(expr: Value): (p: Panel)
    ensures p.Shown? <==> ExpressionOk(expr)
    ensures p.Crashed? <==> !expr.Obj?
    ensures p.Shown? ==> p == Shown(expr)
    ensures p.Warned? ==> expr.Obj? && p == Warned(Get(expr.fields, "error", Str(NoExpressionData)))
  {
    if ExpressionOk(expr) then Shown(expr)
    else if expr.Obj? then Warned(Get(expr.fields, "error", Str(NoExpressionData)))
    else Crashed("AttributeError")
  }

  /** `v[0].get("error", fallback)` on a decoded value. A dict is indexed by key, and a
      decoded dict has no key 0. */
  function FirstErrorOr(v: Value, fallback: string): Panel
  {
    match v
    case Arr(items) =>
      if items == [] then Crashed("IndexError")
      else if items[0].Obj? then Warned(Get(items[0].fields, "error", Str(fallback)))
      else Crashed("AttributeError")
    case Obj(_) => Crashed("KeyError")
    case Str(s) => if s == [] then Crashed("IndexError") else Crashed("AttributeError")
    case _ => Crashed("TypeError")
  }

  /** The mutation and drug panels as written: a table when the ok test holds, otherwise
      the first record's "error" field or the fallback text. */
  function ShowRecordsAsWritten(v: Value, fallback: string): (p: Panel)
    ensures p.Shown? <==> RecordsOk(v) == Done(true)
    ensures !p.Crashed? ==> RecordsOk(v).Done?
    ensures !p.Crashed? <==> v.Arr? && v.items != [] && (v.items[0].Obj? || RecordsOk(v) == Done(true))
    ensures v.Obj? ==> p == Crashed("KeyError")
    ensures p.Shown? ==> p == Shown(v)
    ensures p.Warned? ==>
              && v.Arr? && v.items != [] && v.items[0].Obj?
              && p == Warned(Get(v.items[0].fields, "error", Str(fallback)))
  {
    match RecordsOk(v)
    case Crash(e) => Crashed(e)
    case Done(ok) => if ok then Shown(v) else FirstErrorOr(v, fallback)
  }

  /** The expression panel corrected: a value that is not a dict, such as the back end's
      "Not found", gives the fallback warning. */
  function ShowExpression(expr: Value): (p: Panel)
    ensures !p.Crashed?
    ensures !ShowExpressionAsWritten(expr).Crashed? ==> p == ShowExpressionAsWritten(expr)
    ensures !expr.Obj? ==> p == Warned(Str(NoExpressionData))
  {
    if expr.Obj? then ShowExpressionAsWritten(expr) else Warned(Str(NoExpressionData))
  }

  /** The mutation and drug panels corrected: a dict (the back end's "Not found" or
      error record) warns with its "error" field or the fallback; any other shape warns
      with the fallback. */
  function ShowRecords(v: Value, fallback: string): (p: Panel)
    ensures !p.Crashed?
    ensures p.Shown? <==> RecordsOk(v) == Done(true)
    ensures !ShowRecordsAsWritten(v, fallback).Crashed? ==> p == ShowRecordsAsWritten(v, fallback)
    ensures v.Obj? ==> p == Warned(Get(v.fields, "error", Str(fallback)))
    ensures !p.Shown? && !v.Obj? && !(v.Arr? && v.items != [] && v.items[0].Obj?) ==> p == Warned(Str(fallback))
  {
    if RecordsOk(v) == Done(true) then Shown(v)
    else if v.Arr? && v.items != [] && v.items[0].Obj? then Warned(Get(v.items[0].fields, "error", Str(fallback)))
    else if v.Obj? then Warned(Get(v.fields, "error", Str(fallback)))
    else Warned(Str(fallback))
  }

  // ---------------------------------------------------------------- the page

  /** The gene as the page uses it: the input stripped and upper-cased. */
  function Gene(input: string): (gene: string)
    ensures gene == [] <==> AllSpace(input)
    ensures Upper(gene) == gene
  {
    StripBlank(input);
    UpperIdempotent(Strip(input));
    Upper(Strip(input))
  }

  function Requests(gene: string): seq<string>
  {
    [ExpressionUrl(gene), MutationUrl(gene), DrugsUrl(gene)]
  }

  /** The three values the helpers return for one gene. */
  datatype Lookup = Lookup(expr: Value, muts: Value, drugs: Value)

  function FetchAll(gene: string, net: string -> Outcome): Lookup
  {
    Lookup(FetchExpression(net(ExpressionUrl(gene))),
           FetchMutation(net(MutationUrl(gene))),
           FetchDrugs(net(DrugsUrl(gene))))
  }

  /** `expression_ok and mutation_ok and drug_ok`. */
  predicate ReportReady(l: Lookup)
  {
    ExpressionOk(l.expr) && RecordsOk(l.muts) == Done(true) && RecordsOk(l.drugs) == Done(true)
  }

  /** One run of the script: the requests it makes, the panels it shows in order, and
      whether it offers the PDF report. */
  datatype Page = Page(requests: seq<string>, panels: seq<Panel>, reportOffered: bool)

  /** No panel of the run raised: the script ran to its end. */
  predicate NoneRaised(ps: seq<Panel>)
  {
    forall k :: 0 <= k < |ps| ==> !ps[k].Crashed?
  }

  /** The panels a run shows when each one may raise: a raising panel is the last one
      shown, because the exception ends the script. */
  function ShownUntilCrash(e: Panel, m: Panel, d: Panel): (ps: seq<Panel>)
    ensures 1 <= |ps| <= 3 && ps[0] == e
    ensures |ps| >= 2 <==> !e.Crashed?
    ensures |ps| >= 2 ==> ps[1] == m
    ensures |ps| == 3 <==> !e.Crashed? && !m.Crashed?
    ensures |ps| == 3 ==> ps[2] == d
    ensures forall k :: 0 <= k < |ps| - 1 ==> !ps[k].Crashed?
  {
    if e.Crashed? then [e] else if m.Crashed? then [e, m] else [e, m, d]
  }

  /** The page as written: a panel that raises ends the run, so nothing after it is
      shown and no report is offered. */
  function RenderPageAsWritten(input: string, net: string -> Outcome): (p: Page)
    ensures AllSpace(input) ==> p == Page([], [], false)
    ensures !AllSpace(input) ==> p.requests == Requests(Gene(input)) && 1 <= |p.panels| <= 3
    ensures !AllSpace(input) ==>
              var l := FetchAll(Gene(input), net);
              var e := ShowExpressionAsWritten(l.expr);
              var m := ShowRecordsAsWritten(l.muts, NoMutationData);
              var d := ShowRecordsAsWritten(l.drugs, NoDrugData);
              && p.panels[0] == e
              && (|p.panels| >= 2 <==> !e.Crashed?)
              && (|p.panels| >= 2 ==> p.panels[1] == m)
              && (|p.panels| == 3 <==> !e.Crashed? && !m.Crashed?)
              && (|p.panels| == 3 ==> p.panels[2] == d)
    ensures forall k :: 0 <= k < |p.panels| - 1 ==> !p.panels[k].Crashed?
    ensures p.reportOffered <==> !AllSpace(input) && ReportReady(FetchAll(Gene(input), net))
  {
    var gene := Gene(input);
    if gene == [] then Page([], [], false)
    else
      var l := FetchAll(gene, net);
      var ps := ShownUntilCrash(ShowExpressionAsWritten(l.expr),
                                ShowRecordsAsWritten(l.muts, NoMutationData),
                                ShowRecordsAsWritten(l.drugs, NoDrugData));
      Page(Requests(gene), ps, !ps[|ps| - 1].Crashed? && ReportReady(l))
  }

  /** The page with the corrected panels: all three are always shown. */
  function RenderPage(input: string, net: string -> Outcome): (p: Page)
    ensures AllSpace(input) ==> p == Page([], [], false)
    ensures !AllSpace(input) ==> p.requests == Requests(Gene(input)) && |p.panels| == 3
    ensures !AllSpace(input) ==>
              var l := FetchAll(Gene(input), net);
              p.panels == [ShowExpression(l.expr), ShowRecords(l.muts, NoMutationData), ShowRecords(l.drugs, NoDrugData)]
    ensures NoneRaised(p.panels)
    ensures p.reportOffered <==> !AllSpace(input) && ReportReady(FetchAll(Gene(input), net))
  {
    var gene := Gene(input);
    if gene == [] then Page([], [], false)
    else
      var l := FetchAll(gene, net);
      var ps := [ShowExpression(l.expr), ShowRecords(l.muts, NoMutationData), ShowRecords(l.drugs, NoDrugData)];
      Page(Requests(gene), ps, ReportReady(l))
  }

  /** The correction changes nothing on a run that did not crash. */
  lemma CorrectionIsConservative(input: string, net: string -> Outcome)
    requires NoneRaised(RenderPageAsWritten(input, net).panels)
    ensures RenderPage(input, net) == RenderPageAsWritten(input, net)
  {
    var p := RenderPageAsWritten(input, net);
    if !AllSpace(input) {
      var gene := Gene(input);
      var l := FetchAll(gene, net);
      var e := ShowExpressionAsWritten(l.expr);
      var m := ShowRecordsAsWritten(l.muts, NoMutationData);
      var d := ShowRecordsAsWritten(l.drugs, NoDrugData);
      assert !e.Crashed? && p.panels[0] == e;
      assert !m.Crashed? && p.panels[1] == m;
      assert |p.panels| == 3 && !p.panels[2].Crashed?;
      assert !d.Crashed? && p.panels[2] == d;
      assert p == Page(Requests(gene), [e, m, d], ReportReady(l));
    }
  }

  // ---------------------------------------------------------------- against the back end

  /** What the expression helper makes of each reply of GET /expression/{gene}. A missing
      dataset's error record has no "expression" field and becomes {}. */
  lemma ExpressionThroughApi(t: Api.Table, gene: string)
    ensures var v := FetchExpression(Api.Serve(Api.GetExpression(t, gene)));
      && (Api.IsEmpty(t) ==> v == Obj(map[]))
      && (!Api.IsEmpty(t) && "Gene" !in t.columns ==> v == ApiError(500))
      && (Api.Searched(t) && Api.NoMatch(t.rows, Upper(gene)) ==> v == Str("Not found"))
      && (Api.Searched(t) ==> forall i :: Api.IsFirstMatch(t.rows, Upper(gene), i) ==>
            v == Obj(Api.Record(t.columns[1..], t.rows[i])))
  {
  }

  /** What the mutation helper makes of each reply of GET /mutation/{gene}. */
  lemma MutationThroughApi(t: Api.Table, gene: string)
    ensures var v := FetchMutation(Api.Serve(Api.GetMutation(t, gene)));
      && (Api.IsEmpty(t) ==> v == Api.ErrorBody("Mutation dataset not available."))
      && (!Api.IsEmpty(t) && "Gene" !in t.columns ==> v == Arr([ApiError(500)]))
      && (Api.Searched(t) && Api.NoMatch(t.rows, Upper(gene)) ==> v == Api.NotFoundBody(Upper(gene), "mutation"))
      && (Api.Searched(t) && !Api.NoMatch(t.rows, Upper(gene)) ==>
            v == Api.GetMutation(t, gene).json && v.Arr? && |v.items| == |Api.MatchIndices(t.rows, Upper(gene))|)
  {
    var r := Api.GetMutation(t, gene);
    if r.Body? {
      assert FetchMutation(Api.Serve(r)) == r.json;
    } else {
      assert FetchMutation(Api.Serve(r)) == Arr([ApiError(500)]);
    }
  }

  /** Finding, as written: for a gene the expression dataset does not hold, the back end
      answers "Not found", the helper passes that string on, and the first panel raises
      AttributeError, ending the run. */
  lemma UnknownGeneCrashesPage(t: Api.Table, input: string, net: string -> Outcome)
    requires !AllSpace(input)
    requires net(ExpressionUrl(Gene(input))) == Api.Serve(Api.GetExpression(t, Gene(input)))
    requires Api.Searched(t) && Api.NoMatch(t.rows, Gene(input))
    ensures RenderPageAsWritten(input, net).panels == [Crashed("AttributeError")]
  {
    ExpressionThroughApi(t, Gene(input));
  }

  /** Finding, as written: the back end's "Not found" record for mutations or drugs is a
      dict, and its panel raises KeyError on `v[0]`. */
  lemma UnknownGeneCrashesRecordPanels(t: Api.Table, gene: string)
    requires Api.Searched(t) && Api.NoMatch(t.rows, Upper(gene))
    ensures ShowRecordsAsWritten(FetchMutation(Api.Serve(Api.GetMutation(t, gene))), NoMutationData)
              == Crashed("KeyError")
    ensures ShowRecordsAsWritten(FetchDrugs(Api.Serve(Api.GetDrugs(t, gene))), NoDrugData)
              == Crashed("KeyError")
  {
  }

  /** Corrected: a gene that none of the three datasets holds gives the three fallback
      warnings. Each endpoint serves its own table. */
  lemma UnknownGeneWarns(te: Api.Table, tm: Api.Table, td: Api.Table, input: string, net: string -> Outcome)
    requires !AllSpace(input)
    requires net(ExpressionUrl(Gene(input))) == Api.Serve(Api.GetExpression(te, Gene(input)))
    requires net(MutationUrl(Gene(input))) == Api.Serve(Api.GetMutation(tm, Gene(input)))
    requires net(DrugsUrl(Gene(input))) == Api.Serve(Api.GetDrugs(td, Gene(input)))
    requires Api.Searched(te) && Api.NoMatch(te.rows, Gene(input))
    requires Api.Searched(tm) && Api.NoMatch(tm.rows, Gene(input))
    requires Api.Searched(td) && Api.NoMatch(td.rows, Gene(input))
    ensures RenderPage(input, net).panels ==
              [Warned(Str(NoExpressionData)), Warned(Str(NoMutationData)), Warned(Str(NoDrugData))]
    ensures !RenderPage(input, net).reportOffered
  {
    ExpressionThroughApi(te, Gene(input));
    MutationThroughApi(tm, Gene(input));
  }
}
