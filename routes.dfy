/** `POST /api/orders/execute`: the request schema as a validity predicate
    and a parser that reports one issue per offending field, and the
    handler that creates, stores and enqueues an order and answers 202,
    400 or 500. */
module Routes {
  import opened Wrappers
  import opened Json
  import opened Domain
  import opened Postgres
  import opened OrderQueue

  // ---------------------------------------------------------------------
  // The request schema
  // ---------------------------------------------------------------------

  /** The kinds of schema violation the parser reports. */
  datatype IssueCode = InvalidType | InvalidEnumValue | TooSmall | TooBig

  /** One reported violation: the path of the offending value (empty for
      the body itself, else the field name) and what is wrong with it. */
  datatype Issue = Issue(path: seq<string>, code: IssueCode)

  const MaxSlippageLimit: real := 10000.0

  /** The schema's keys, in the order the schema declares them. */
  const SchemaKeys: seq<string> := ["side", "tokenIn", "tokenOut", "amountIn", "maxSlippageBps"]

  function Lookup(f: Fields, k: string): Option<Json> {
    if k in f then Some(f[k]) else None
  }

  /** `z.enum(['buy', 'sell'])`. */
  function SideIssue(v: Option<Json>): Option<IssueCode> {
    if v.None? || !v.value.JStr? then Some(InvalidType)
    else if ParseSide(v.value.s).None? then Some(InvalidEnumValue)
    else None
  }

  /** `z.string().min(1)`. */
  function TokenIssue(v: Option<Json>): Option<IssueCode> {
    if v.None? || !v.value.JStr? then Some(InvalidType)
    else if |v.value.s| < 1 then Some(TooSmall)
    else None
  }

  /** `z.number().positive()`. */
  function AmountIssue(v: Option<Json>): Option<IssueCode> {
    if v.None? || !v.value.JNum? then Some(InvalidType)
    else if v.value.n <= 0.0 then Some(TooSmall)
    else None
  }

  /** `z.number().min(0).max(10000)`. */
  function SlippageIssue(v: Option<Json>): Option<IssueCode> {
    if v.None? || !v.value.JNum? then Some(InvalidType)
    else if v.value.n < 0.0 then Some(TooSmall)
    else if v.value.n > MaxSlippageLimit then Some(TooBig)
    else None
  }

  function IssueAt(k: string, c: Option<IssueCode>): seq<Issue> {
    if c.Some? then [Issue([k], c.value)] else []
  }

  /** Every field's issues, in schema order. */
  function FieldIssues(f: Fields): seq<Issue> {
    IssueAt("side", SideIssue(Lookup(f, "side"))) +
    IssueAt("tokenIn", TokenIssue(Lookup(f, "tokenIn"))) +
    IssueAt("tokenOut", TokenIssue(Lookup(f, "tokenOut"))) +
    IssueAt("amountIn", AmountIssue(Lookup(f, "amountIn"))) +
    IssueAt("maxSlippageBps", SlippageIssue(Lookup(f, "maxSlippageBps")))
  }

  /** `executeOrderSchema.parse`: a body that is not an object fails as a
      whole; otherwise every field is checked, every issue is collected,
      and keys outside the schema are dropped. */
  function Parse(body: Json): Result<OrderParams, seq<Issue>> {
    if !body.JObj? then Failure([Issue([], InvalidType)])
    else
      var f := body.fields;
      var issues := FieldIssues(f);
      if issues != [] then Failure(issues)
      else Success(OrderParams(ParseSide(f["side"].s).value, f["tokenIn"].s, f["tokenOut"].s,
                               f["amountIn"].n, f["maxSlippageBps"].n))
  }

  /** What the schema demands of a request body, stated directly: an
      object whose side is "buy" or "sell", whose tokens are non-empty
      strings, whose amountIn is a number above zero and whose
      maxSlippageBps is a number from 0 to 10000 inclusive. */
  predicate ValidBody(body: Json) {
    && body.JObj?
    && "side" in body.fields && body.fields["side"] in {JStr("buy"), JStr("sell")}
    && "tokenIn" in body.fields && body.fields["tokenIn"].JStr? && body.fields["tokenIn"].s != ""
    && "tokenOut" in body.fields && body.fields["tokenOut"].JStr? && body.fields["tokenOut"].s != ""
    && "amountIn" in body.fields && body.fields["amountIn"].JNum? && body.fields["amountIn"].n > 0.0
    && "maxSlippageBps" in body.fields && body.fields["maxSlippageBps"].JNum?
    && 0.0 <= body.fields["maxSlippageBps"].n <= 10000.0
  }

  /** The parser accepts exactly the valid bodies, and what it returns is
      the body's own fields. */
  lemma ParseAcceptsExactlyValid(body: Json)
    ensures Parse(body).Success? <==> ValidBody(body)
    ensures Parse(body).Success? ==>
              var p := Parse(body).value;
              && JStr(SideName(p.side)) == body.fields["side"]
              && JStr(p.tokenIn) == body.fields["tokenIn"] && JStr(p.tokenOut) == body.fields["tokenOut"]
              && JNum(p.amountIn) == body.fields["amountIn"]
              && JNum(p.maxSlippageBps) == body.fields["maxSlippageBps"]
  {
    if body.JObj? {
      var f := body.fields;
      if "side" in f && f["side"].JStr? {
        assert ParseSide(f["side"].s).Some? <==> f["side"] in {JStr("buy"), JStr("sell")};
      }
    }
  }

  /** A rejected body always comes with at least one issue; a body that is
      an object gets one issue per offending schema field, in schema
      order, and a field has no issue exactly when it is valid. */
  lemma IssuesNameTheInvalidFields(f: Fields)
    ensures Parse(JObj(f)).Failure? ==> Parse(JObj(f)).error != []
    ensures |FieldIssues(f)| <= |SchemaKeys|
    ensures (exists i :: 0 <= i < |FieldIssues(f)| && FieldIssues(f)[i].path == ["amountIn"]) <==>
            !("amountIn" in f && f["amountIn"].JNum? && f["amountIn"].n > 0.0)
    ensures (exists i :: 0 <= i < |FieldIssues(f)| && FieldIssues(f)[i].path == ["maxSlippageBps"]) <==>
            !("maxSlippageBps" in f && f["maxSlippageBps"].JNum? && 0.0 <= f["maxSlippageBps"].n <= 10000.0)
  {
    var a := IssueAt("side", SideIssue(Lookup(f, "side"))) +
             IssueAt("tokenIn", TokenIssue(Lookup(f, "tokenIn"))) +
             IssueAt("tokenOut", TokenIssue(Lookup(f, "tokenOut")));
    var b := IssueAt("amountIn", AmountIssue(Lookup(f, "amountIn")));
    var c := IssueAt("maxSlippageBps", SlippageIssue(Lookup(f, "maxSlippageBps")));
    assert FieldIssues(f) == a + b + c;
    assert forall i :: 0 <= i < |a| ==> a[i].path[0] in {"side", "tokenIn", "tokenOut"};
    assert ["amountIn"] != ["maxSlippageBps"];
    if b != [] {
      assert (a + b + c)[|a|] == b[0];
    }
    if c != [] {
      assert (a + b + c)[|a| + |b|] == c[0];
    }
  }

  /** The slippage bounds are inclusive and the amount must be strictly
      positive: starting from any valid body, a slippage of exactly 0 or
      exactly 10000 is accepted and an amount of exactly 0 is refused. */
  lemma BoundaryValues(f: Fields)
    requires ValidBody(JObj(f))
    ensures Parse(JObj(f["maxSlippageBps" := JNum(0.0)])).Success?
    ensures Parse(JObj(f["maxSlippageBps" := JNum(10000.0)])).Success?
    ensures Parse(JObj(f["amountIn" := JNum(0.0)])) == Failure([Issue(["amountIn"], TooSmall)])
  {
    ParseAcceptsExactlyValid(JObj(f["maxSlippageBps" := JNum(0.0)]));
    ParseAcceptsExactlyValid(JObj(f["maxSlippageBps" := JNum(10000.0)]));
    var g := f["amountIn" := JNum(0.0)];
    assert ParseSide(f["side"].s).Some?;
    assert IssueAt("side", SideIssue(Lookup(g, "side"))) == [];
    assert IssueAt("tokenIn", TokenIssue(Lookup(g, "tokenIn"))) == [];
    assert IssueAt("tokenOut", TokenIssue(Lookup(g, "tokenOut"))) == [];
    assert IssueAt("maxSlippageBps", SlippageIssue(Lookup(g, "maxSlippageBps"))) == [];
    assert FieldIssues(g) == [Issue(["amountIn"], TooSmall)];
  }

  /** Keys outside the schema do not affect the outcome. */
  lemma UnknownKeysAreStripped(f: Fields, k: string, v: Json)
    requires k !in SchemaKeys
    ensures Parse(JObj(f[k := v])) == Parse(JObj(f))
  {
    var g := f[k := v];
    assert forall key :: key in SchemaKeys ==> Lookup(g, key) == Lookup(f, key);
    assert Lookup(g, "side") == Lookup(f, "side") && Lookup(g, "tokenIn") == Lookup(f, "tokenIn");
    assert Lookup(g, "tokenOut") == Lookup(f, "tokenOut") && Lookup(g, "amountIn") == Lookup(f, "amountIn");
    assert Lookup(g, "maxSlippageBps") == Lookup(f, "maxSlippageBps");
  }

  // ---------------------------------------------------------------------
  // The handler
  // ---------------------------------------------------------------------

  datatype Response =
    | Accepted(orderId: string)
    | ValidationFailed(details: seq<Issue>)
    | ServerError

  function StatusCode(r: Response): (code: nat)
    ensures code in {202, 400, 500}
  {
    match r
    case Accepted(_) => 202
    case ValidationFailed(_) => 400
    case ServerError => 500
  }

  /** The `error` text of a failed response; an accepted one has none. */
  function ErrorText(r: Response): Option<string> {
    match r
    case Accepted(_) => None
    case ValidationFailed(_) => Some("Validation failed")
    case ServerError => Some("Internal server error")
  }

  /** What one request leaves behind: the response, the table and the queue. */
  datatype Handled = Handled(response: Response, rows: Table, jobs: seq<Job>)

  /** The handler's effect. `newId` and `now` stand for `randomUUID()` and
      `new Date()`; `dbDown` and `queueDown` make the insert or the enqueue
      reject. */
  function Handle(rows: Table, jobs: seq<Job>, body: Json, newId: string, now: Timestamp,
                  dbDown: bool, queueDown: bool): Handled
  {
    match Parse(body)
    case Failure(issues) => Handled(ValidationFailed(issues), rows, jobs)
    case Success(params) =>
      var order := CreateNewMarketOrder(params, newId, now);
      var inserted := InsertInto(rows, InsertParams(order));
      if dbDown || inserted.Failure? then Handled(ServerError, rows, jobs)
      else if queueDown then Handled(ServerError, inserted.value, jobs)
      else Handled(Accepted(newId), inserted.value, jobs + [OrderJob(newId)])
  }

  /** The route handler: parse, create, insert, enqueue, answer. Each await
      that rejects lands in the single catch, which answers 400 for a
      schema error and 500 otherwise. */
  method ExecuteOrder(table: OrderTable, queue: JobQueue, body: Json, newId: string, now: Timestamp,
                      dbDown: bool, queueDown: bool)
    returns (response: Response)
    requires table.Valid()
    modifies table, queue
    ensures table.Valid()
    ensures Handled(response, table.rows, queue.jobs) ==
            Handle(old(table.rows), old(queue.jobs), body, newId, now, dbDown, queueDown)
  {
    var parsed := Parse(body);
    if parsed.Failure? {
      return ValidationFailed(parsed.error);
    }
    var order := CreateNewMarketOrder(parsed.value, newId, now);
    if dbDown {
      return ServerError;
    }
    var stored := table.InsertOrder(order);
    if stored.Fail? {
      return ServerError;
    }
    var queued := queue.AddOrderToQueue(order.id, queueDown);
    if !queued {
      return ServerError;
    }
    response := Accepted(order.id);
  }

  /** An invalid body is answered 400 with its issues, and nothing is
      stored or enqueued. */
  lemma InvalidBodyChangesNothing(rows: Table, jobs: seq<Job>, body: Json, newId: string, now: Timestamp,
                                  dbDown: bool, queueDown: bool)
    requires !ValidBody(body)
    ensures var h := Handle(rows, jobs, body, newId, now, dbDown, queueDown);
            && h.response.ValidationFailed? && h.response.details != []
            && StatusCode(h.response) == 400 && ErrorText(h.response) == Some("Validation failed")
            && h.rows == rows && h.jobs == jobs
  {
    ParseAcceptsExactlyValid(body);
    if body.JObj? {
      IssuesNameTheInvalidFields(body.fields);
    }
  }

  /** A 202 happens exactly when the body is valid, the id is new, the
      slippage fits the table's INTEGER column and both backends answer;
      the answer then carries the new id, the stored row reads back as the
      order built from the body's fields, and exactly one job for that id
      has been enqueued after the existing ones. */
  lemma AcceptedMeansStoredThenQueued(rows: Table, jobs: seq<Job>, body: Json, newId: string, now: Timestamp,
                                      dbDown: bool, queueDown: bool)
    ensures var h := Handle(rows, jobs, body, newId, now, dbDown, queueDown);
            h.response.Accepted? <==>
              ValidBody(body) && !dbDown && !queueDown && newId !in rows
              && IsWhole(body.fields["maxSlippageBps"].n)
    ensures var h := Handle(rows, jobs, body, newId, now, dbDown, queueDown);
            h.response.Accepted? ==>
              && h.response.orderId == newId && StatusCode(h.response) == 202
              && newId in h.rows && Decodable(h.rows[newId])
              && OrderOfRow(h.rows[newId]) == CreateNewMarketOrder(Parse(body).value, newId, now)
              && h.jobs == jobs + [OrderJob(newId)]
  {
    ParseAcceptsExactlyValid(body);
    if Parse(body).Success? {
      InsertReadsBack(rows, CreateNewMarketOrder(Parse(body).value, newId, now));
    }
  }

  /** Every other outcome of a valid body is a 500 that enqueues nothing;
      the row stays only when it was the enqueue that failed. */
  lemma ServerErrorEnqueuesNothing(rows: Table, jobs: seq<Job>, body: Json, newId: string, now: Timestamp,
                                   dbDown: bool, queueDown: bool)
    requires ValidBody(body)
    ensures var h := Handle(rows, jobs, body, newId, now, dbDown, queueDown);
            h.response.ServerError? ==>
              && StatusCode(h.response) == 500 && ErrorText(h.response) == Some("Internal server error")
              && h.jobs == jobs
              && (h.rows == rows <==> dbDown || newId in rows || !IsWhole(body.fields["maxSlippageBps"].n))
  {
    ParseAcceptsExactlyValid(body);
    InsertReadsBack(rows, CreateNewMarketOrder(Parse(body).value, newId, now));
  }

  /** The schema lets a fractional slippage through, but the table's
      INTEGER column refuses it: such a request is answered 500, not 400. */
  lemma FractionalSlippageIsServerError(rows: Table, jobs: seq<Job>, body: Json, newId: string, now: Timestamp)
    requires ValidBody(body) && !IsWhole(body.fields["maxSlippageBps"].n)
    ensures Handle(rows, jobs, body, newId, now, false, false) == Handled(ServerError, rows, jobs)
  {
    ParseAcceptsExactlyValid(body);
    InsertReadsBack(rows, CreateNewMarketOrder(Parse(body).value, newId, now));
  }
}
