/** The schema of the listing query: `page`, `limit`, `sort` and `order`
    arrive as strings (or not at all) and leave as a checked, typed query. */
module PaginationSchema {
  import opened Common
  import opened Strings
  import opened ZodIssues

  datatype Order = Asc | Desc

  datatype PaginationQuery = PaginationQuery(page: int, limit: int, sort: string, order: Order)

  const DefaultPage: int := 1
  const DefaultLimit: int := 10
  const MaxLimit: int := 100
  const DefaultSort: string := "createdAt"

  /** What every accepted query satisfies. */
  predicate InRange(q: PaginationQuery)
  {
    q.page >= 1 && 1 <= q.limit <= MaxLimit
  }

  /** The number `page` or `limit` turns into before it is checked: the
      fallback when the field is missing or empty, otherwise `parseInt` of
      the text (`None` for `NaN`). Only called on a missing or string field. */
  function CoercedCount(raw: Value, fallback: int): Option<int>
  {
    if raw.Str? && raw.s != "" then ParseInt(raw.s) else Some(fallback)
  }

  /** `z.string().optional().transform(val => val ? parseInt(val, 10) : fallback)`
      piped into `z.number().positive()` and, for `limit`, `.max(max)`. The
      issues' paths are relative to the field. */
  function CountField(raw: Value, fallback: int, max: Option<int>): (r: Result<int, seq<Issue>>)
    ensures r.Ok? ==> r.value >= 1 && (max.Some? ==> r.value <= max.value)
    ensures r.Ok? <==>
      && (raw.Undefined? || raw.Str?)
      && CoercedCount(raw, fallback).Some? && CoercedCount(raw, fallback).value > 0
      && (max.Some? ==> CoercedCount(raw, fallback).value <= max.value)
    ensures r.Ok? ==> Some(r.value) == CoercedCount(raw, fallback)
    ensures r.Err? ==> |r.error| == 1
  {
    if !(raw.Undefined? || raw.Str?) then Err([Issue([], InvalidTypeMessage("string", raw))])
    else
      var n := CoercedCount(raw, fallback);
      if n.None? then Err([Issue([], NaNMessage)])
      else if n.value <= 0 then Err([Issue([], NotPositiveMessage)])
      else if max.Some? && n.value > max.value then Err([Issue([], TooBigMessage(max.value))])
      else Ok(n.value)
  }

  /** `z.string().optional().default('createdAt')`. */
  function SortField(raw: Value): (r: Result<string, seq<Issue>>)
    ensures raw.Undefined? ==> r == Ok(DefaultSort)
    ensures raw.Str? ==> r == Ok(raw.s)
    ensures !(raw.Undefined? || raw.Str?) ==> r.Err?
  {
    match raw
    case Undefined => Ok(DefaultSort)
    case Str(s) => Ok(s)
    case _ => Err([Issue([], InvalidTypeMessage("string", raw))])
  }

  function OrderName(o: Order): string
  {
    match o
    case Asc => "asc"
    case Desc => "desc"
  }

  const OrderOptions: string := "'asc' | 'desc'"

  /** The library's message for a string outside the enum. */
  function EnumMessage(received: string): string
  {
    "Invalid enum value. Expected " + OrderOptions + ", received '" + received + "'"
  }

  /** `z.enum(['asc', 'desc']).optional().default('desc')`. */
  function OrderField(raw: Value): (r: Result<Order, seq<Issue>>)
    ensures r.Ok? <==> raw.Undefined? || raw == Str("asc") || raw == Str("desc")
    ensures r.Ok? ==> raw == Undefined || raw == Str(OrderName(r.value))
    ensures raw.Undefined? ==> r == Ok(Desc)
  {
    match raw
    case Undefined => Ok(Desc)
    case Str(s) =>
      if s == "asc" then Ok(Asc)
      else if s == "desc" then Ok(Desc)
      else Err([Issue([], EnumMessage(s))])
    case _ => Err([Issue([], InvalidTypeMessage(OrderOptions, raw))])
  }

  /** The issues a page or limit field reports while the object's fields
      are walked: only its string check, which runs at once. */
  function TypeCheckIssues(raw: Value, r: Result<int, seq<Issue>>): (issues: seq<Issue>)
    ensures raw.Undefined? || raw.Str? ==> issues == []
  {
    if raw.Undefined? || raw.Str? then [] else IssuesOf(r)
  }

  /** The issues a page or limit field reports after the walk: the number
      checks behind `.pipe`, which run only once the coerced value is
      ready. */
  function NumberCheckIssues(raw: Value, r: Result<int, seq<Issue>>): (issues: seq<Issue>)
    ensures !(raw.Undefined? || raw.Str?) ==> issues == []
    ensures TypeCheckIssues(raw, r) + issues == IssuesOf(r)
  {
    if raw.Undefined? || raw.Str? then IssuesOf(r) else []
  }

  /** `paginationSchema.parseAsync(query)`, as the validator calls it: every
      field is checked and all issues are reported together. The checks
      that run while the fields are walked report first, field by field in
      declaration order; the number checks of `page` and then `limit`, which
      wait for the coerced value, report after them. */
  function Parse(v: Value): (r: Result<PaginationQuery, seq<Issue>>)
    ensures r.Ok? <==>
      && v.Obj?
      && CountField(Field(v, "page"), DefaultPage, None).Ok?
      && CountField(Field(v, "limit"), DefaultLimit, Some(MaxLimit)).Ok?
      && SortField(Field(v, "sort")).Ok? && OrderField(Field(v, "order")).Ok?
    ensures r.Ok? ==> r.value == PaginationQuery(
      CountField(Field(v, "page"), DefaultPage, None).value,
      CountField(Field(v, "limit"), DefaultLimit, Some(MaxLimit)).value,
      SortField(Field(v, "sort")).value, OrderField(Field(v, "order")).value)
    ensures r.Ok? ==> InRange(r.value)
    ensures r.Err? ==> |r.error| >= 1
  {
    if !v.Obj? then Err([Issue([], InvalidTypeMessage("object", v))])
    else
      var page := CountField(Field(v, "page"), DefaultPage, None);
      var limit := CountField(Field(v, "limit"), DefaultLimit, Some(MaxLimit));
      var sort := SortField(Field(v, "sort"));
      var order := OrderField(Field(v, "order"));
      if page.Ok? && limit.Ok? && sort.Ok? && order.Ok? then
        Ok(PaginationQuery(page.value, limit.value, sort.value, order.value))
      else
        var rawPage, rawLimit := Field(v, "page"), Field(v, "limit");
        Err(AtKey("page", TypeCheckIssues(rawPage, page)) + AtKey("limit", TypeCheckIssues(rawLimit, limit))
          + AtKey("sort", IssuesOf(sort)) + AtKey("order", IssuesOf(order))
          + (AtKey("page", NumberCheckIssues(rawPage, page)) + AtKey("limit", NumberCheckIssues(rawLimit, limit))))
  }

  /** A refused query reports every issue of each field whose rule refuses
      it, under that field's key, and nothing else; a value that is not an
      object is refused as a whole. */
  lemma EveryRefusedQueryFieldIsReported(v: Value)
    ensures !v.Obj? ==> Parse(v) == Err([Issue([], InvalidTypeMessage("object", v))])
    ensures v.Obj? ==>
      var page := CountField(Field(v, "page"), DefaultPage, None);
      var limit := CountField(Field(v, "limit"), DefaultLimit, Some(MaxLimit));
      var sort := SortField(Field(v, "sort"));
      var order := OrderField(Field(v, "order"));
      var r := Parse(v);
      r.Err? ==>
        && ReportedUnder("page", IssuesOf(page), r.error)
        && ReportedUnder("limit", IssuesOf(limit), r.error)
        && ReportedUnder("sort", IssuesOf(sort), r.error)
        && ReportedUnder("order", IssuesOf(order), r.error)
        && |r.error| == |IssuesOf(page)| + |IssuesOf(limit)| + |IssuesOf(sort)| + |IssuesOf(order)|
  {
    if v.Obj? {
      var rawPage, rawLimit := Field(v, "page"), Field(v, "limit");
      var page := CountField(rawPage, DefaultPage, None);
      var limit := CountField(rawLimit, DefaultLimit, Some(MaxLimit));
      TwoPhaseReported("page", TypeCheckIssues(rawPage, page), NumberCheckIssues(rawPage, page),
                       "limit", TypeCheckIssues(rawLimit, limit), NumberCheckIssues(rawLimit, limit),
                       "sort", IssuesOf(SortField(Field(v, "sort"))), "order", IssuesOf(OrderField(Field(v, "order"))));
    }
  }

  /** The number checks of `page` and `limit` report last, after every
      issue of `sort` and `order`: the refusal ends with the issues of
      those number checks, page first. */
  lemma NumberChecksReportLast(v: Value)
    requires v.Obj?
    ensures var rawPage, rawLimit := Field(v, "page"), Field(v, "limit");
      var late := AtKey("page", NumberCheckIssues(rawPage, CountField(rawPage, DefaultPage, None)))
        + AtKey("limit", NumberCheckIssues(rawLimit, CountField(rawLimit, DefaultLimit, Some(MaxLimit))));
      var r := Parse(v);
      r.Err? ==>
        && |late| <= |r.error|
        && r.error[|r.error| - |late|..] == late
        && ReportedUnder("sort", IssuesOf(SortField(Field(v, "sort"))), r.error[..|r.error| - |late|])
        && ReportedUnder("order", IssuesOf(OrderField(Field(v, "order"))), r.error[..|r.error| - |late|])
  {
    if Parse(v).Err? {
      var rawPage, rawLimit := Field(v, "page"), Field(v, "limit");
      var page := CountField(rawPage, DefaultPage, None);
      var limit := CountField(rawLimit, DefaultLimit, Some(MaxLimit));
      var sort := SortField(Field(v, "sort"));
      var order := OrderField(Field(v, "order"));
      var tp, tl := TypeCheckIssues(rawPage, page), TypeCheckIssues(rawLimit, limit);
      var early := AtKey("page", tp) + AtKey("limit", tl) + AtKey("sort", IssuesOf(sort)) + AtKey("order", IssuesOf(order));
      var late := AtKey("page", NumberCheckIssues(rawPage, page)) + AtKey("limit", NumberCheckIssues(rawLimit, limit));
      var e := Parse(v).error;
      assert e == early + late;
      assert e[..|e| - |late|] == early && e[|e| - |late|..] == late;
      FourFieldsReported("page", tp, "limit", tl, "sort", IssuesOf(sort), "order", IssuesOf(order));
    }
  }

  /** `?page=0&order=up`: the enum issue of `order` is reported before the
      positive check of `page`, although `page` is declared first. */
  lemma OrderIssueBeforePageNumberIssue()
    ensures Parse(Obj(map["page" := Str("0"), "order" := Str("up")])) ==
      Err([Issue([Key("order")], EnumMessage("up")), Issue([Key("page")], NotPositiveMessage)])
  {
    var v := Obj(map["page" := Str("0"), "order" := Str("up")]);
    assert Field(v, "page") == Str("0") && Field(v, "limit") == Undefined;
    assert Field(v, "sort") == Undefined && Field(v, "order") == Str("up");
    assert ParseInt("0") == Some(0) by {
      NatToStringParses(0, "");
      assert NatToString(0) + "" == "0";
    }
    assert CountField(Str("0"), DefaultPage, None) == Err([Issue([], NotPositiveMessage)]);
    assert CountField(Undefined, DefaultLimit, Some(MaxLimit)) == Ok(DefaultLimit);
    assert "up" != "asc" && "up" != "desc" by {
      assert |"up"| != |"asc"| && |"up"| != |"desc"|;
    }
    var page := CountField(Str("0"), DefaultPage, None);
    var limit := CountField(Undefined, DefaultLimit, Some(MaxLimit));
    var order := OrderField(Str("up"));
    assert order == Err([Issue([], EnumMessage("up"))]);
    var orderIssue, pageIssue := Issue([Key("order")], EnumMessage("up")), Issue([Key("page")], NotPositiveMessage);
    SingleIssueAtKey("order", EnumMessage("up"));
    SingleIssueAtKey("page", NotPositiveMessage);
    assert TypeCheckIssues(Str("0"), page) == [] && NumberCheckIssues(Str("0"), page) == [Issue([], NotPositiveMessage)];
    assert TypeCheckIssues(Undefined, limit) == [] && NumberCheckIssues(Undefined, limit) == [];
    assert IssuesOf(SortField(Undefined)) == [];
    var none: seq<Issue> := [];
    assert AtKey("page", none) == [] && AtKey("limit", none) == [] && AtKey("sort", none) == [];
    assert Parse(v).error == [] + [] + [] + [orderIssue] + ([pageIssue] + []);
    assert [] + [] + [] + [orderIssue] + ([pageIssue] + []) == [orderIssue, pageIssue];
  }

  /** The parsed query as the value that replaces `req.query`. */
  function ToValue(q: PaginationQuery): Value
  {
    Obj(map["page" := Num(q.page), "limit" := Num(q.limit), "sort" := Str(q.sort),
            "order" := Str(OrderName(q.order))])
  }

  /** How the list handler reads `req.query` as a pagination query. */
  function FromValue(v: Value): Option<PaginationQuery>
  {
    match (Field(v, "page"), Field(v, "limit"), Field(v, "sort"), Field(v, "order"))
    case (Num(page), Num(limit), Str(sort), Str(order)) =>
      if order == "asc" then Some(PaginationQuery(page, limit, sort, Asc))
      else if order == "desc" then Some(PaginationQuery(page, limit, sort, Desc))
      else None
    case _ => None
  }

  /** The schema as the validator sees it: an accepted query is stored as
      a value the list handler reads back as that query, and a refused one
      hands over its issues. */
  function Schema(v: Value): (r: ParseOutcome)
    ensures r.Parsed? <==> Parse(v).Ok?
    ensures r.Parsed? ==> r.value == ToValue(Parse(v).value) && FromValue(r.value) == Some(Parse(v).value)
    ensures !r.Parsed? ==> r == Invalid(Parse(v).error)
  {
    match Parse(v)
    case Ok(q) => FromToValue(q); Parsed(ToValue(q))
    case Err(issues) => Invalid(issues)
  }

  /** The handler reads back exactly the query the validator stored. */
  lemma FromToValue(q: PaginationQuery)
    ensures FromValue(ToValue(q)) == Some(q)
  {
    var v := ToValue(q);
    assert Field(v, "page") == Num(q.page) && Field(v, "limit") == Num(q.limit);
    assert Field(v, "sort") == Str(q.sort) && Field(v, "order") == Str(OrderName(q.order));
  }

  /** A field that is missing or empty takes its default. */
  lemma MissingOrEmptyTakeDefaults(v: Value)
    requires v.Obj?
    requires Field(v, "page") in {Undefined, Str("")}
    requires Field(v, "limit") in {Undefined, Str("")}
    requires Field(v, "sort") == Undefined && Field(v, "order") == Undefined
    ensures Parse(v) == Ok(PaginationQuery(DefaultPage, DefaultLimit, DefaultSort, Desc))
  {
  }

  /** An empty query string gives the default query. */
  lemma EmptyQueryIsDefault()
    ensures Parse(Obj(map[])) == Ok(PaginationQuery(1, 10, "createdAt", Desc))
  {
    MissingOrEmptyTakeDefaults(Obj(map[]));
  }

  /** A page written as a number is accepted exactly when it is positive, and
      is then the page the handler gets; 0 and negative pages are refused. */
  lemma PageIsAcceptedIffPositive(v: Value, n: int)
    requires v.Obj? && Field(v, "page") == Str(IntToString(n))
    ensures Parse(v).Ok? ==> Parse(v).value.page == n
    ensures n <= 0 ==> Parse(v).Err?
    ensures n >= 1 && Field(v, "limit").Undefined? && Field(v, "sort").Undefined? && Field(v, "order").Undefined?
      ==> Parse(v) == Ok(PaginationQuery(n, DefaultLimit, DefaultSort, Desc))
  {
    var text := IntToString(n);
    IntToStringParses(n);
    assert text != "";
    assert CoercedCount(Str(text), DefaultPage) == Some(n);
    var page := CountField(Str(text), DefaultPage, None);
    assert page.Ok? <==> n >= 1;
    assert page.Ok? ==> page.value == n;
    if n >= 1 && Field(v, "limit").Undefined? && Field(v, "sort").Undefined? && Field(v, "order").Undefined? {
      assert CountField(Undefined, DefaultLimit, Some(MaxLimit)) == Ok(DefaultLimit);
      assert SortField(Undefined) == Ok(DefaultSort);
      assert OrderField(Undefined) == Ok(Desc);
    }
  }

  /** A limit written as a number is accepted exactly when it lies in
      1..100; above 100 it is refused. */
  lemma LimitIsAcceptedIffInRange(v: Value, n: int)
    requires v.Obj? && Field(v, "limit") == Str(IntToString(n))
    ensures Parse(v).Ok? ==> Parse(v).value.limit == n
    ensures (n < 1 || n > MaxLimit) ==> Parse(v).Err?
    ensures 1 <= n <= MaxLimit && Field(v, "page").Undefined? && Field(v, "sort").Undefined? && Field(v, "order").Undefined?
      ==> Parse(v) == Ok(PaginationQuery(DefaultPage, n, DefaultSort, Desc))
  {
    var text := IntToString(n);
    IntToStringParses(n);
    assert text != "";
    assert CoercedCount(Str(text), DefaultLimit) == Some(n);
    var limit := CountField(Str(text), DefaultLimit, Some(MaxLimit));
    assert limit.Ok? <==> 1 <= n <= MaxLimit;
    assert limit.Ok? ==> limit.value == n;
    if 1 <= n <= MaxLimit && Field(v, "page").Undefined? && Field(v, "sort").Undefined? && Field(v, "order").Undefined? {
      assert CountField(Undefined, DefaultPage, None) == Ok(DefaultPage);
      assert SortField(Undefined) == Ok(DefaultSort);
      assert OrderField(Undefined) == Ok(Desc);
    }
  }

  /** Text after the digits is ignored, as `parseInt` ignores it: "2abc" is
      page 2. */
  lemma TrailingTextIsIgnored(v: Value, n: nat, rest: string)
    requires |rest| > 0 && !IsDigit(rest[0])
    requires v.Obj? && Field(v, "page") == Str(NatToString(n) + rest)
    ensures Parse(v).Ok? ==> Parse(v).value.page == n
    ensures n == 0 ==> Parse(v).Err?
  {
    var text := NatToString(n) + rest;
    NatToStringParses(n, rest);
    assert text != "";
    assert CoercedCount(Str(text), DefaultPage) == Some(n);
    var page := CountField(Str(text), DefaultPage, None);
    assert page.Ok? ==> page.value == n;
    assert n == 0 ==> page.Err?;
  }

  /** `sort` is kept as given, and `order` is one of the two allowed names
      or missing; anything else is refused. */
  lemma SortKeptOrderChecked(v: Value)
    requires Parse(v).Ok?
    ensures Field(v, "sort").Str? ==> Parse(v).value.sort == Field(v, "sort").s
    ensures Field(v, "order") in {Undefined, Str("asc"), Str("desc")}
    ensures Field(v, "order").Undefined? ==> Parse(v).value.order == Desc
  {
    var order := OrderField(Field(v, "order"));
    assert order.Ok?;
  }
}
