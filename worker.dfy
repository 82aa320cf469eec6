/** The `processOrder` job handler: load the order, then a fixed try block
    of status publications and store writes around the quote and the swap,
    and a single catch path that records the failure, publishes it and
    rethrows.

    The handler is specified by `Run`, which lists every store write and
    publication the handler attempts, in order, with the error each one
    threw. The point of failure is an input: `faults` maps a step to the
    value it throws. A store write that throws changes nothing; a
    publication that throws has already reached every listener, and only
    its log record is missing. Step `j` of the try block happens at
    `clock(j)`, the catch path's write and publication at `clock(11)` and
    `clock(12)`. */
module OrderWorker {
  import opened Wrappers
  import opened Json
  import opened Domain
  import opened DexRouter
  import opened Postgres
  import opened Sockets
  import opened OrderEvents

  /** The worker's router is created with base price 1. */
  const BasePrice: real := 1.0

  /** A thrown value: an `Error` carries a message; anything else is
      reported as "Unknown error". */
  datatype Thrown = ErrorObj(message: string) | NonError

  function FailureReason(t: Thrown): (r: string)
    ensures t.ErrorObj? ==> r == t.message
    ensures t.NonError? ==> r == "Unknown error"
  {
    match t
    case ErrorObj(m) => m
    case NonError => "Unknown error"
  }

  /** The error thrown when the job's order is not in the store. */
  function NotFound(orderId: string): Thrown {
    ErrorObj("Order " + orderId + " not found")
  }

  /** The handler's awaited calls, named after what they do. */
  datatype Step =
    | Load
    | EmitPending | EmitRouting | WriteRouting | EmitQuotes
    | EmitBuilding | WriteBuilding | EmitBuilt
    | EmitSubmitted | WriteSubmitted
    | WriteConfirmed | EmitConfirmed
    | WriteFailed | EmitFailed

  /** The number of awaited calls in the try block after the load. */
  const TryLength: nat := 11

  /** The `j`-th awaited call of the try block after the load. */
  function TryStepName(j: nat): Step
    requires j < TryLength
  {
    if j == 0 then EmitPending
    else if j == 1 then EmitRouting
    else if j == 2 then WriteRouting
    else if j == 3 then EmitQuotes
    else if j == 4 then EmitBuilding
    else if j == 5 then WriteBuilding
    else if j == 6 then EmitBuilt
    else if j == 7 then EmitSubmitted
    else if j == 8 then WriteSubmitted
    else if j == 9 then WriteConfirmed
    else EmitConfirmed
  }

  /** Time stamps of the catch path's write and publication. */
  const CatchWriteAt: nat := 11
  const CatchEmitAt: nat := 12

  /** A store write (`updateOrderStatus`) or a publication (`emitStatusUpdate`). */
  datatype Effect = Write(status: OrderStatus, patch: Patch) | Publish(update: StatusMessage)

  /** An effect attempted at time `at`, and what it threw, if anything. */
  datatype Attempt = Attempt(effect: Effect, at: Timestamp, threw: Option<Thrown>)

  datatype JobRun = JobRun(attempts: seq<Attempt>, result: Result<SwapResult, Thrown>)

  /** Everything a job run depends on besides the stores: the order id
      carried by the job, the injected faults, the router's draws for the
      quote and for the swap, and the clock. */
  datatype Inputs = Inputs(
    orderId: string,
    faults: map<Step, Thrown>,
    quoteRnd: nat -> real,
    swapRnd: nat -> real,
    clock: nat -> Timestamp)

  function FaultAt(inp: Inputs, s: Step): (f: Option<Thrown>)
    ensures f.Some? <==> s in inp.faults
    ensures f.Some? ==> f.value == inp.faults[s]
  {
    if s in inp.faults then Some(inp.faults[s]) else None
  }

  // ---------------------------------------------------------------------
  // Payloads
  // ---------------------------------------------------------------------

  function Update(orderId: string, status: OrderStatus, data: Option<Fields>): StatusMessage {
    StatusMessage(orderId, status, data)
  }

  function QuoteJson(q: DexQuote): Json {
    JObj(map["dex" := JStr(DexName(q.dex)), "price" := JNum(q.price), "fee" := JNum(q.fee)])
  }

  /** The routing publication's data: the winner, its price and fee, and
      every quote. */
  function QuotesData(bq: BestQuote): Fields {
    map["chosenDex" := JStr(DexName(bq.best.dex)), "price" := JNum(bq.best.price), "fee" := JNum(bq.best.fee),
        "allQuotes" := JArr(seq(|bq.all|, i requires 0 <= i < |bq.all| => QuoteJson(bq.all[i])))]
  }

  function ConfirmedData(dex: Dex, s: SwapResult): Fields {
    map["txHash" := JStr(s.txHash), "executedPrice" := JNum(s.executedPrice), "chosenDex" := JStr(DexName(dex))]
  }

  function FailedData(reason: string): Fields {
    map["error" := JStr(reason)]
  }

  // ---------------------------------------------------------------------
  // The specification
  // ---------------------------------------------------------------------

  /** What the router returns to a run: the quote and the swap. */
  datatype Plan = Plan(quote: BestQuote, swap: SwapResult)

  /** The effect of the try block's `j`-th call, for a given quote and
      swap. */
  function PlannedEffect(orderId: string, p: Plan, j: nat): Effect
    requires j < TryLength
  {
    var bq, s := p.quote, p.swap;
    if j == 0 then Publish(Update(orderId, Pending, None))
    else if j == 1 then Publish(Update(orderId, Routing, None))
    else if j == 2 then Write(Routing, Patch(Some(bq.best.dex), None, None, None))
    else if j == 3 then Publish(Update(orderId, Routing, Some(QuotesData(bq))))
    else if j == 4 then Publish(Update(orderId, Building, None))
    else if j == 5 then Write(Building, NoPatch)
    else if j == 6 then Publish(Update(orderId, Building, None))
    else if j == 7 then Publish(Update(orderId, Submitted, None))
    else if j == 8 then Write(Submitted, NoPatch)
    else if j == 9 then Write(Confirmed, Patch(None, Some(s.executedPrice), Some(s.txHash), None))
    else Publish(Update(orderId, Confirmed, Some(ConfirmedData(bq.best.dex, s))))
  }

  function QuoteOf(inp: Inputs): BestQuote {
    GetBestQuote(BasePrice, inp.quoteRnd)
  }

  /** The swap is executed on the winning venue. */
  function SwapOf(inp: Inputs): SwapResult {
    ExecuteSwap(BasePrice, QuoteOf(inp).best.dex, inp.swapRnd)
  }

  function PlanOf(inp: Inputs): Plan {
    Plan(QuoteOf(inp), SwapOf(inp))
  }

  function EffectAt(inp: Inputs, j: nat): Effect
    requires j < TryLength
  {
    PlannedEffect(inp.orderId, PlanOf(inp), j)
  }

  /** The try block partway: what has been attempted and what was thrown. */
  datatype Partial = Partial(attempts: seq<Attempt>, error: Option<Thrown>)

  /** Step `j` of the try block when it is reached: its effect, its time
      and what it throws. */
  function PlannedAttempt(inp: Inputs, p: Plan, j: nat): (a: Attempt)
    requires j < TryLength
    ensures a.threw.Some? <==> TryStepName(j) in inp.faults
  {
    Attempt(PlannedEffect(inp.orderId, p, j), inp.clock(j), FaultAt(inp, TryStepName(j)))
  }

  /** Step `j` of the try block after `t`: skipped once an earlier step
      has thrown, otherwise attempted. */
  function Next(inp: Inputs, p: Plan, j: nat, t: Partial): Partial
    requires j < TryLength
  {
    if t.error.Some? then t
    else Partial(t.attempts + [PlannedAttempt(inp, p, j)], FaultAt(inp, TryStepName(j)))
  }

  /** The try block after its first `j` steps. */
  function TryBlock(inp: Inputs, p: Plan, j: nat): (t: Partial)
    requires j <= TryLength
    decreases j
  {
    if j == 0 then Partial([], None) else Next(inp, p, j - 1, TryBlock(inp, p, j - 1))
  }

  /** The catch path after `done`: write `failed` with the reason, publish
      it, rethrow. When the catch path's own write or publication throws,
      that error is what leaves the handler. */
  function CatchBlock(inp: Inputs, done: seq<Attempt>, err: Thrown): (r: JobRun)
    ensures r.result.Failure?
  {
    var reason := FailureReason(err);
    var write := Attempt(Write(Failed, Patch(None, None, None, Some(reason))), inp.clock(CatchWriteAt), FaultAt(inp, WriteFailed));
    if WriteFailed in inp.faults then JobRun(done + [write], Failure(inp.faults[WriteFailed]))
    else
      var publish := Attempt(Publish(Update(inp.orderId, Failed, Some(FailedData(reason)))), inp.clock(CatchEmitAt), FaultAt(inp, EmitFailed));
      JobRun(done + [write, publish], Failure(if EmitFailed in inp.faults then inp.faults[EmitFailed] else err))
  }

  /** The error the load throws, given what the store returned. */
  function LoadError(inp: Inputs, found: Option<Order>): (e: Option<Thrown>)
    ensures e.None? <==> Load !in inp.faults && found.Some?
  {
    if Load in inp.faults then Some(inp.faults[Load])
    else if found.None? then Some(NotFound(inp.orderId))
    else None
  }

  /** One job run for the router's results `p`; `found` is what
      `getOrderById` returns for the job's id. */
  function RunWith(inp: Inputs, p: Plan, found: Option<Order>): JobRun {
    var loadError := LoadError(inp, found);
    if loadError.Some? then CatchBlock(inp, [], loadError.value)
    else
      var t := TryBlock(inp, p, TryLength);
      if t.error.None? then JobRun(t.attempts, Success(p.swap))
      else CatchBlock(inp, t.attempts, t.error.value)
  }

  /** One job run. */
  function Run(inp: Inputs, found: Option<Order>): JobRun {
    RunWith(inp, PlanOf(inp), found)
  }

  // ---------------------------------------------------------------------
  // Properties of a run
  // ---------------------------------------------------------------------

  /** `t` is the try block after `j` steps: the first steps of the plan,
      each but the last succeeded, and the block's error is what the last
      one threw. */
  ghost predicate StoppedAtFirstFault(inp: Inputs, p: Plan, j: nat, t: Partial) {
    |t.attempts| <= j &&
    (forall k :: 0 <= k < |t.attempts| ==> k < TryLength && t.attempts[k] == PlannedAttempt(inp, p, k)) &&
    (forall k :: 0 <= k < |t.attempts| - 1 ==> t.attempts[k].threw.None?) &&
    (t.error.None? ==> |t.attempts| == j && forall k :: 0 <= k < j ==> t.attempts[k].threw.None?) &&
    (t.error.Some? ==> t.attempts != [] && t.error == t.attempts[|t.attempts| - 1].threw)
  }

  lemma NextStopsAtFirstFault(inp: Inputs, p: Plan, j: nat, t: Partial)
    requires j < TryLength && StoppedAtFirstFault(inp, p, j, t)
    ensures StoppedAtFirstFault(inp, p, j + 1, Next(inp, p, j, t))
  {
    if t.error.None? {
      var t' := Next(inp, p, j, t);
      forall k | 0 <= k < |t'.attempts| ensures k < TryLength && t'.attempts[k] == PlannedAttempt(inp, p, k) {
        if k < j {
          assert t'.attempts[k] == t.attempts[k];
        }
      }
    }
  }

  /** The try block stops at its first failing step. */
  lemma {:induction false} TryBlockStopsAtFirstFault(inp: Inputs, p: Plan, j: nat)
    requires j <= TryLength
    ensures StoppedAtFirstFault(inp, p, j, TryBlock(inp, p, j))
    decreases j
  {
    if j > 0 {
      TryBlockStopsAtFirstFault(inp, p, j - 1);
      NextStopsAtFirstFault(inp, p, j - 1, TryBlock(inp, p, j - 1));
    }
  }

  /** A run succeeds exactly when the order loads and no step of the try
      block throws. It then attempts the whole plan, in order, and returns
      the swap. */
  lemma RunSucceeds(inp: Inputs, p: Plan, found: Option<Order>)
    ensures RunWith(inp, p, found).result.Success? <==>
      LoadError(inp, found).None? && forall j :: 0 <= j < TryLength ==> TryStepName(j) !in inp.faults
    ensures RunWith(inp, p, found).result.Success? ==>
      (RunWith(inp, p, found).result.value == p.swap &&
       |RunWith(inp, p, found).attempts| == TryLength &&
       forall j :: 0 <= j < TryLength ==> RunWith(inp, p, found).attempts[j] == Attempt(PlannedEffect(inp.orderId, p, j), inp.clock(j), None))
  {
    TryBlockStopsAtFirstFault(inp, p, TryLength);
    var t := TryBlock(inp, p, TryLength);
    if RunWith(inp, p, found).result.Success? {
      forall j | 0 <= j < TryLength ensures TryStepName(j) !in inp.faults {
        assert t.attempts[j] == PlannedAttempt(inp, p, j);
      }
    }
  }

  /** The status a store write or a publication carries. */
  function EffectStatus(e: Effect): (s: OrderStatus)
    ensures e.Write? ==> s == e.status
    ensures e.Publish? ==> s == e.update.status
  {
    match e
    case Write(s, _) => s
    case Publish(u) => u.status
  }

  /** The stage of the plan's `j`-th step: routing from step 1, building
      from 4, submitted from 7, confirmed from 9. */
  function StageAt(j: nat): (n: nat)
    ensures n <= 4
  {
    if j < 1 then 0 else if j < 4 then 1 else if j < 7 then 2 else if j < 9 then 3 else 4
  }

  /** The plan walks the state machine: it starts at `pending`, ends at
      `confirmed`, never reaches `failed`, and each step keeps the status
      or takes one legal transition forward, so the stage never goes
      back. */
  lemma PlanFollowsStateMachine(orderId: string, p: Plan)
    ensures EffectStatus(PlannedEffect(orderId, p, 0)) == Pending
    ensures EffectStatus(PlannedEffect(orderId, p, TryLength - 1)) == Confirmed
    ensures forall j :: 0 <= j < TryLength ==>
      EffectStatus(PlannedEffect(orderId, p, j)) != Failed && Stage(EffectStatus(PlannedEffect(orderId, p, j))) == StageAt(j)
    ensures forall j :: 0 < j < TryLength ==>
      (EffectStatus(PlannedEffect(orderId, p, j - 1)) == EffectStatus(PlannedEffect(orderId, p, j)) ||
       CanAdvance(EffectStatus(PlannedEffect(orderId, p, j - 1)), EffectStatus(PlannedEffect(orderId, p, j))))
    ensures forall i, j :: 0 <= i <= j < TryLength ==>
      Stage(EffectStatus(PlannedEffect(orderId, p, i))) <= Stage(EffectStatus(PlannedEffect(orderId, p, j)))
  {
    forall j | 0 <= j < TryLength
      ensures EffectStatus(PlannedEffect(orderId, p, j)) != Failed && Stage(EffectStatus(PlannedEffect(orderId, p, j))) == StageAt(j)
    {
    }
    forall j | 0 < j < TryLength
      ensures EffectStatus(PlannedEffect(orderId, p, j - 1)) == EffectStatus(PlannedEffect(orderId, p, j)) ||
              CanAdvance(EffectStatus(PlannedEffect(orderId, p, j - 1)), EffectStatus(PlannedEffect(orderId, p, j)))
    {
    }
  }

  /** Every step of the plan that names a venue names the winning one (the
      routing write, the quotes publication, the confirmation), the
      confirmation repeats what the confirmed write stored, and the venue
      named is the one whose quote is best and where the swap is made. */
  lemma PlanUsesOneVenue(inp: Inputs)
    ensures PlanOf(inp).swap == ExecuteSwap(BasePrice, PlanOf(inp).quote.best.dex, inp.swapRnd)
    ensures forall q :: q in PlanOf(inp).quote.all ==> q.price <= PlanOf(inp).quote.best.price
    ensures EffectAt(inp, 2) == Write(Routing, Patch(Some(PlanOf(inp).quote.best.dex), None, None, None))
    ensures EffectAt(inp, 3).update.data.value["chosenDex"] == JStr(DexName(PlanOf(inp).quote.best.dex))
    ensures EffectAt(inp, 9) == Write(Confirmed, Patch(None, Some(PlanOf(inp).swap.executedPrice), Some(PlanOf(inp).swap.txHash), None))
    ensures EffectAt(inp, 10).update.data.value["chosenDex"] == JStr(DexName(PlanOf(inp).quote.best.dex))
    ensures EffectAt(inp, 10).update.data.value["txHash"] == JStr(PlanOf(inp).swap.txHash)
    ensures EffectAt(inp, 10).update.data.value["executedPrice"] == JNum(PlanOf(inp).swap.executedPrice)
  {
  }

  /** A failed run: the first `n` steps of the plan, then the catch path's
      `failed` write with the reason of the error `err` that was thrown,
      then, unless that write threw, the `failed` publication. When the
      catch path itself throws nothing, the job rethrows `err`. */
  lemma FailedRunShape(inp: Inputs, p: Plan, found: Option<Order>) returns (n: nat, err: Thrown)
    requires RunWith(inp, p, found).result.Failure?
    ensures n <= TryLength && n < |RunWith(inp, p, found).attempts| <= n + 2
    ensures forall k :: 0 <= k < n ==> RunWith(inp, p, found).attempts[k] == PlannedAttempt(inp, p, k)
    ensures LoadError(inp, found).Some? ==> n == 0 && err == LoadError(inp, found).value
    ensures LoadError(inp, found).None? ==>
      (0 < n && RunWith(inp, p, found).attempts[n - 1].threw == Some(err) &&
       forall k :: 0 <= k < n - 1 ==> RunWith(inp, p, found).attempts[k].threw.None?)
    ensures RunWith(inp, p, found).attempts[n] ==
      Attempt(Write(Failed, Patch(None, None, None, Some(FailureReason(err)))), inp.clock(CatchWriteAt), FaultAt(inp, WriteFailed))
    ensures |RunWith(inp, p, found).attempts| == n + 2 <==> WriteFailed !in inp.faults
    ensures |RunWith(inp, p, found).attempts| == n + 2 ==>
      RunWith(inp, p, found).attempts[n + 1] ==
      Attempt(Publish(Update(inp.orderId, Failed, Some(FailedData(FailureReason(err))))), inp.clock(CatchEmitAt), FaultAt(inp, EmitFailed))
    ensures WriteFailed !in inp.faults && EmitFailed !in inp.faults ==> RunWith(inp, p, found).result == Failure(err)
  {
    var loadError := LoadError(inp, found);
    if loadError.Some? {
      n, err := 0, loadError.value;
    } else {
      TryBlockStopsAtFirstFault(inp, p, TryLength);
      var t := TryBlock(inp, p, TryLength);
      n, err := |t.attempts|, t.error.value;
    }
  }

  /** A job whose order is not in the store attempts nothing of the plan:
      it writes `failed` with "Order <id> not found" and publishes that. */
  lemma MissingOrderFails(inp: Inputs, p: Plan)
    requires Load !in inp.faults
    ensures RunWith(inp, p, None).result.Failure?
    ensures RunWith(inp, p, None).attempts[0].effect == Write(Failed, Patch(None, None, None, Some("Order " + inp.orderId + " not found")))
    ensures |RunWith(inp, p, None).attempts| == (if WriteFailed in inp.faults then 1 else 2)
    ensures WriteFailed !in inp.faults ==>
      RunWith(inp, p, None).attempts[1].effect == Publish(Update(inp.orderId, Failed, Some(FailedData("Order " + inp.orderId + " not found"))))
    ensures WriteFailed !in inp.faults && EmitFailed !in inp.faults ==> RunWith(inp, p, None).result == Failure(NotFound(inp.orderId))
  {
  }

  /** The status the last store write that did not throw set, if any. */
  function LastWritten(atts: seq<Attempt>): (s: Option<OrderStatus>)
    ensures s.Some? ==> exists k :: 0 <= k < |atts| && atts[k].effect.Write? && atts[k].effect.status == s.value && atts[k].threw.None?
    decreases |atts|
  {
    if atts == [] then None
    else
      var a := atts[|atts| - 1];
      if a.effect.Write? && a.threw.None? then Some(a.effect.status) else LastWritten(atts[..|atts| - 1])
  }

  // ---------------------------------------------------------------------
  // What the effects do to the stores
  // ---------------------------------------------------------------------

  /** The order store, the frames written to sockets, and the event log. */
  datatype World = World(rows: Table, wire: seq<Frame>, log: seq<LogRecord>)

  /** The result of the update statement for `orderId`. */
  function Patched(rows: Table, orderId: string, status: OrderStatus, now: Timestamp, p: Patch): Table {
    if orderId in rows then rows[orderId := PatchRow(rows[orderId], status, now, p)] else rows
  }

  /** One attempt's effect, with the listeners and open sockets fixed. */
  function Perform(w: World, orderId: string, a: Attempt, ls: seq<Listener>, open: set<nat>): World {
    match a.effect
    case Write(status, p) =>
      if a.threw.Some? then w else w.(rows := Patched(w.rows, orderId, status, a.at, p))
    case Publish(u) =>
      w.(wire := w.wire + Deliveries(ls, u, open),
         log := w.log + (if a.threw.Some? then [] else [RecordOf(u, a.at)]))
  }

  /** The attempts' effects, in order. No write adds or removes a row. */
  function PerformAll(w: World, orderId: string, atts: seq<Attempt>, ls: seq<Listener>, open: set<nat>): (r: World)
    ensures r.rows.Keys == w.rows.Keys
    decreases |atts|
  {
    if atts == [] then w
    else Perform(PerformAll(w, orderId, atts[..|atts| - 1], ls, open), orderId, atts[|atts| - 1], ls, open)
  }

  /** The attempts change only the job's own row, and leave it with the
      status of the last write that did not throw. */
  lemma {:induction false} PerformAllRows(w: World, orderId: string, atts: seq<Attempt>, ls: seq<Listener>, open: set<nat>)
    ensures forall id :: id in w.rows && id != orderId ==> PerformAll(w, orderId, atts, ls, open).rows[id] == w.rows[id]
    ensures orderId in w.rows ==>
      PerformAll(w, orderId, atts, ls, open).rows[orderId].status ==
      (if LastWritten(atts).Some? then StatusName(LastWritten(atts).value) else w.rows[orderId].status)
    decreases |atts|
  {
    if atts != [] {
      PerformAllRows(w, orderId, atts[..|atts| - 1], ls, open);
    }
  }

  /** When only the confirmed publication throws, the try block runs to
      its end: the confirmed write goes through and the block's error is
      the publication's. */
  lemma OnlyConfirmedPublicationThrows(inp: Inputs, p: Plan, err: Thrown)
    requires inp.faults == map[EmitConfirmed := err]
    ensures |TryBlock(inp, p, TryLength).attempts| == TryLength
    ensures TryBlock(inp, p, TryLength).error == Some(err)
    ensures TryBlock(inp, p, TryLength).attempts[9] == Attempt(Write(Confirmed, Patch(None, Some(p.swap.executedPrice), Some(p.swap.txHash), None)), inp.clock(9), None)
  {
    TryBlockStopsAtFirstFault(inp, p, TryLength);
    var t := TryBlock(inp, p, TryLength);
    assert TryStepName(10) in inp.faults;
    var m := |t.attempts| - 1;
    assert t.attempts[m] == PlannedAttempt(inp, p, m);
    assert TryStepName(m) == EmitConfirmed;
    assert t.attempts[9] == PlannedAttempt(inp, p, 9);
  }

  /** When only the confirmed publication throws (its log record cannot
      be stored), the confirmed write has already gone through and the
      catch path then writes `failed` over it: the order the swap
      completed for ends `failed`. */
  lemma LateFailureOverwritesConfirmed(inp: Inputs, p: Plan, o: Order, err: Thrown)
    requires inp.faults == map[EmitConfirmed := err]
    ensures |RunWith(inp, p, Some(o)).attempts| == TryLength + 2
    ensures RunWith(inp, p, Some(o)).attempts[9] ==
      Attempt(Write(Confirmed, Patch(None, Some(p.swap.executedPrice), Some(p.swap.txHash), None)), inp.clock(9), None)
    ensures RunWith(inp, p, Some(o)).attempts[TryLength] ==
      Attempt(Write(Failed, Patch(None, None, None, Some(FailureReason(err)))), inp.clock(CatchWriteAt), None)
    ensures RunWith(inp, p, Some(o)).result == Failure(err)
  {
    OnlyConfirmedPublicationThrows(inp, p, err);
  }

  /** The last write of a successful run that went through is the
      `confirmed` one, and that of a failed run is `failed`, unless that
      write threw. */
  lemma RunLastWritten(inp: Inputs, p: Plan, found: Option<Order>)
    ensures RunWith(inp, p, found).result.Success? ==> LastWritten(RunWith(inp, p, found).attempts) == Some(Confirmed)
    ensures RunWith(inp, p, found).result.Failure? && WriteFailed !in inp.faults ==> LastWritten(RunWith(inp, p, found).attempts) == Some(Failed)
  {
    var atts := RunWith(inp, p, found).attempts;
    if RunWith(inp, p, found).result.Success? {
      RunSucceeds(inp, p, found);
      assert atts[10].effect.Publish? && atts[..10][9] == atts[9];
      assert LastWritten(atts) == LastWritten(atts[..10]);
    } else if WriteFailed !in inp.faults {
      var n, err := FailedRunShape(inp, p, found);
      assert atts[|atts| - 1].effect.Publish? && atts[..|atts| - 1][n] == atts[n];
      assert LastWritten(atts) == LastWritten(atts[..|atts| - 1]);
    }
  }

  /** After a run the job's row, when there is one, is `confirmed` if the
      job succeeded and `failed` if it failed and the `failed` write went
      through; every other row is as it was. */
  lemma RunFinalStatus(inp: Inputs, p: Plan, found: Option<Order>, w: World, ls: seq<Listener>, open: set<nat>)
    requires inp.orderId in w.rows
    ensures inp.orderId in PerformAll(w, inp.orderId, RunWith(inp, p, found).attempts, ls, open).rows
    ensures RunWith(inp, p, found).result.Success? ==>
      PerformAll(w, inp.orderId, RunWith(inp, p, found).attempts, ls, open).rows[inp.orderId].status == StatusName(Confirmed)
    ensures RunWith(inp, p, found).result.Failure? && WriteFailed !in inp.faults ==>
      PerformAll(w, inp.orderId, RunWith(inp, p, found).attempts, ls, open).rows[inp.orderId].status == StatusName(Failed)
    ensures forall id :: id in w.rows && id != inp.orderId ==>
      PerformAll(w, inp.orderId, RunWith(inp, p, found).attempts, ls, open).rows[id] == w.rows[id]
  {
    PerformAllRows(w, inp.orderId, RunWith(inp, p, found).attempts, ls, open);
    RunLastWritten(inp, p, found);
  }

  lemma PerformAllSnoc(w: World, orderId: string, atts: seq<Attempt>, a: Attempt, ls: seq<Listener>, open: set<nat>)
    ensures PerformAll(w, orderId, atts + [a], ls, open) == Perform(PerformAll(w, orderId, atts, ls, open), orderId, a, ls, open)
  {
    assert (atts + [a])[..|atts|] == atts;
  }

  // ---------------------------------------------------------------------
  // The handler
  // ---------------------------------------------------------------------

  /** `updateOrderStatus`, or the error it throws. */
  method WriteStep(table: OrderTable, orderId: string, status: OrderStatus, p: Patch, at: Timestamp, fault: Option<Thrown>)
    requires table.Valid()
    modifies table
    ensures table.Valid()
    ensures table.rows == if fault.Some? then old(table.rows) else Patched(old(table.rows), orderId, status, at, p)
  {
    if fault.None? {
      table.UpdateOrderStatus(orderId, status, p, at);
    }
  }

  /** `emitStatusUpdate`, whose log append may throw. */
  method PublishStep(bus: StatusBus, sockets: SocketTable, u: StatusMessage, at: Timestamp, fault: Option<Thrown>)
    modifies sockets`wire, bus`log
    ensures sockets.wire == old(sockets.wire) + Deliveries(bus.listeners, u, sockets.open)
    ensures bus.log == old(bus.log) + (if fault.Some? then [] else [RecordOf(u, at)])
  {
    var ok := bus.EmitStatusUpdate(u, sockets, at, fault.Some?);
  }

  /** The stores are the initial ones after the attempts of `t`, and `e`
      is what `t` threw. */
  ghost predicate Holds(orderId: string, t: Partial, w0: World, w: World, e: Option<Thrown>, ls: seq<Listener>, open: set<nat>) {
    w == PerformAll(w0, orderId, t.attempts, ls, open) && e == t.error
  }

  /** One attempted effect on the stores. */
  method Attempted(a: Attempt, orderId: string, table: OrderTable, bus: StatusBus, sockets: SocketTable)
    requires table.Valid()
    modifies table, sockets`wire, bus`log
    ensures table.Valid()
    ensures World(table.rows, sockets.wire, bus.log) ==
      Perform(old(World(table.rows, sockets.wire, bus.log)), orderId, a, bus.listeners, sockets.open)
  {
    match a.effect
    case Write(status, p) =>
      WriteStep(table, orderId, status, p, a.at, a.threw);
    case Publish(u) =>
      PublishStep(bus, sockets, u, a.at, a.threw);
  }

  /** Step `j` of the try block, skipped once an earlier step has thrown. */
  method TryStep(inp: Inputs, ghost p: Plan, j: nat, effect: Effect, e: Option<Thrown>, table: OrderTable, bus: StatusBus, sockets: SocketTable,
                 ghost w0: World, ghost t: Partial)
    returns (e': Option<Thrown>, ghost t': Partial)
    requires j < TryLength && effect == PlannedEffect(inp.orderId, p, j)
    requires table.Valid()
    requires Holds(inp.orderId, t, w0, World(table.rows, sockets.wire, bus.log), e, bus.listeners, sockets.open)
    modifies table, sockets`wire, bus`log
    ensures table.Valid() && t' == Next(inp, p, j, t)
    ensures Holds(inp.orderId, t', w0, World(table.rows, sockets.wire, bus.log), e', bus.listeners, sockets.open)
  {
    t' := Next(inp, p, j, t);
    if e.Some? {
      e' := e;
      return;
    }
    var f := FaultAt(inp, TryStepName(j));
    var a := Attempt(effect, inp.clock(j), f);
    PerformAllSnoc(w0, inp.orderId, t.attempts, a, bus.listeners, sockets.open);
    Attempted(a, inp.orderId, table, bus, sockets);
    e' := f;
  }

  /** The catch block. */
  method CatchStep(inp: Inputs, err: Thrown, table: OrderTable, bus: StatusBus, sockets: SocketTable, ghost w0: World, ghost done: seq<Attempt>)
    returns (result: Result<SwapResult, Thrown>)
    requires table.Valid()
    requires World(table.rows, sockets.wire, bus.log) == PerformAll(w0, inp.orderId, done, bus.listeners, sockets.open)
    modifies table, sockets`wire, bus`log
    ensures table.Valid()
    ensures result == CatchBlock(inp, done, err).result
    ensures World(table.rows, sockets.wire, bus.log) == PerformAll(w0, inp.orderId, CatchBlock(inp, done, err).attempts, bus.listeners, sockets.open)
  {
    var reason := FailureReason(err);
    var write := Attempt(Write(Failed, Patch(None, None, None, Some(reason))), inp.clock(CatchWriteAt), FaultAt(inp, WriteFailed));
    PerformAllSnoc(w0, inp.orderId, done, write, bus.listeners, sockets.open);
    WriteStep(table, inp.orderId, Failed, Patch(None, None, None, Some(reason)), inp.clock(CatchWriteAt), FaultAt(inp, WriteFailed));
    if WriteFailed in inp.faults {
      return Failure(inp.faults[WriteFailed]);
    }
    var u := Update(inp.orderId, Failed, Some(FailedData(reason)));
    var publish := Attempt(Publish(u), inp.clock(CatchEmitAt), FaultAt(inp, EmitFailed));
    PerformAllSnoc(w0, inp.orderId, done + [write], publish, bus.listeners, sockets.open);
    assert done + [write, publish] == done + [write] + [publish];
    PublishStep(bus, sockets, u, inp.clock(CatchEmitAt), FaultAt(inp, EmitFailed));
    result := Failure(if EmitFailed in inp.faults then inp.faults[EmitFailed] else err);
  }

  /** Routing: publish, take the quote, write the winner, publish the
      quotes. */
  method Route(inp: Inputs, ghost p: Plan, e0: Option<Thrown>, table: OrderTable, bus: StatusBus, sockets: SocketTable,
               ghost w0: World, ghost t0: Partial)
    returns (e: Option<Thrown>, bq: BestQuote, ghost t: Partial)
    requires table.Valid() && p.quote == QuoteOf(inp)
    requires Holds(inp.orderId, t0, w0, World(table.rows, sockets.wire, bus.log), e0, bus.listeners, sockets.open)
    modifies table, sockets`wire, bus`log
    ensures table.Valid() && bq == p.quote && t == Next(inp, p, 3, Next(inp, p, 2, Next(inp, p, 1, t0)))
    ensures Holds(inp.orderId, t, w0, World(table.rows, sockets.wire, bus.log), e, bus.listeners, sockets.open)
  {
    var id := inp.orderId;
    e, t := TryStep(inp, p, 1, Publish(Update(id, Routing, None)), e0, table, bus, sockets, w0, t0);
    bq := GetBestQuote(BasePrice, inp.quoteRnd);
    e, t := TryStep(inp, p, 2, Write(Routing, Patch(Some(bq.best.dex), None, None, None)), e, table, bus, sockets, w0, t);
    e, t := TryStep(inp, p, 3, Publish(Update(id, Routing, Some(QuotesData(bq)))), e, table, bus, sockets, w0, t);
  }

  /** Building: publish, write, publish. */
  method Build(inp: Inputs, ghost p: Plan, e0: Option<Thrown>, table: OrderTable, bus: StatusBus, sockets: SocketTable,
               ghost w0: World, ghost t0: Partial)
    returns (e: Option<Thrown>, ghost t: Partial)
    requires table.Valid()
    requires Holds(inp.orderId, t0, w0, World(table.rows, sockets.wire, bus.log), e0, bus.listeners, sockets.open)
    modifies table, sockets`wire, bus`log
    ensures table.Valid() && t == Next(inp, p, 6, Next(inp, p, 5, Next(inp, p, 4, t0)))
    ensures Holds(inp.orderId, t, w0, World(table.rows, sockets.wire, bus.log), e, bus.listeners, sockets.open)
  {
    var id := inp.orderId;
    e, t := TryStep(inp, p, 4, Publish(Update(id, Building, None)), e0, table, bus, sockets, w0, t0);
    e, t := TryStep(inp, p, 5, Write(Building, NoPatch), e, table, bus, sockets, w0, t);
    e, t := TryStep(inp, p, 6, Publish(Update(id, Building, None)), e, table, bus, sockets, w0, t);
  }

  /** Submitted: publish, then write. */
  method Submit(inp: Inputs, ghost p: Plan, e0: Option<Thrown>, table: OrderTable, bus: StatusBus, sockets: SocketTable,
                ghost w0: World, ghost t0: Partial)
    returns (e: Option<Thrown>, ghost t: Partial)
    requires table.Valid()
    requires Holds(inp.orderId, t0, w0, World(table.rows, sockets.wire, bus.log), e0, bus.listeners, sockets.open)
    modifies table, sockets`wire, bus`log
    ensures table.Valid() && t == Next(inp, p, 8, Next(inp, p, 7, t0))
    ensures Holds(inp.orderId, t, w0, World(table.rows, sockets.wire, bus.log), e, bus.listeners, sockets.open)
  {
    var id := inp.orderId;
    e, t := TryStep(inp, p, 7, Publish(Update(id, Submitted, None)), e0, table, bus, sockets, w0, t0);
    e, t := TryStep(inp, p, 8, Write(Submitted, NoPatch), e, table, bus, sockets, w0, t);
  }

  /** Confirmed: write the swap's result, then publish it. */
  method Confirm(inp: Inputs, ghost p: Plan, bq: BestQuote, swap: SwapResult, e0: Option<Thrown>, table: OrderTable, bus: StatusBus, sockets: SocketTable,
                 ghost w0: World, ghost t0: Partial)
    returns (e: Option<Thrown>, ghost t: Partial)
    requires table.Valid() && p == Plan(bq, swap)
    requires Holds(inp.orderId, t0, w0, World(table.rows, sockets.wire, bus.log), e0, bus.listeners, sockets.open)
    modifies table, sockets`wire, bus`log
    ensures table.Valid() && t == Next(inp, p, 10, Next(inp, p, 9, t0))
    ensures Holds(inp.orderId, t, w0, World(table.rows, sockets.wire, bus.log), e, bus.listeners, sockets.open)
  {
    var id := inp.orderId;
    e, t := TryStep(inp, p, 9, Write(Confirmed, Patch(None, Some(swap.executedPrice), Some(swap.txHash), None)), e0, table, bus, sockets, w0, t0);
    e, t := TryStep(inp, p, 10, Publish(Update(id, Confirmed, Some(ConfirmedData(bq.best.dex, swap)))), e, table, bus, sockets, w0, t);
  }

  /** The whole try block, one step at a time. */
  lemma TryBlockUnrolled(inp: Inputs, p: Plan)
    ensures TryBlock(inp, p, TryLength) ==
      Next(inp, p, 10, Next(inp, p, 9, Next(inp, p, 8, Next(inp, p, 7, Next(inp, p, 6, Next(inp, p, 5,
      Next(inp, p, 4, Next(inp, p, 3, Next(inp, p, 2, Next(inp, p, 1, Next(inp, p, 0, Partial([], None))))))))))))
  {
  }

  /** The job handler. The listeners and the open sockets are whatever the
      gateway has registered; the job does not change them. */
  method ProcessOrder(inp: Inputs, table: OrderTable, bus: StatusBus, sockets: SocketTable)
    returns (result: Result<SwapResult, Thrown>)
    requires table.Valid()
    modifies table, sockets`wire, bus`log
    ensures table.Valid()
    ensures result == Run(inp, old(table.GetOrderById(inp.orderId))).result
    ensures World(table.rows, sockets.wire, bus.log) ==
      PerformAll(old(World(table.rows, sockets.wire, bus.log)), inp.orderId,
                 Run(inp, old(table.GetOrderById(inp.orderId))).attempts, bus.listeners, sockets.open)
    ensures old(inp.orderId in table.rows) ==> inp.orderId in table.rows
    ensures old(inp.orderId in table.rows) && result.Success? ==> table.rows[inp.orderId].status == StatusName(Confirmed)
    ensures old(inp.orderId in table.rows) && result.Failure? && WriteFailed !in inp.faults ==>
      table.rows[inp.orderId].status == StatusName(Failed)
  {
    ghost var w0 := World(table.rows, sockets.wire, bus.log);
    var id := inp.orderId;
    var found: Option<Order> := None;
    if Load !in inp.faults {
      found := table.GetOrderById(id);
    }
    var loadError := LoadError(inp, found);
    if loadError.Some? {
      result := CatchStep(inp, loadError.value, table, bus, sockets, w0, []);
      if id in w0.rows {
        RunFinalStatus(inp, PlanOf(inp), old(table.GetOrderById(id)), w0, bus.listeners, sockets.open);
      }
      return;
    }
    ghost var p := PlanOf(inp);
    var e, bq;
    ghost var t;
    e, t := TryStep(inp, p, 0, Publish(Update(id, Pending, None)), None, table, bus, sockets, w0, Partial([], None));
    e, bq, t := Route(inp, p, e, table, bus, sockets, w0, t);
    e, t := Build(inp, p, e, table, bus, sockets, w0, t);
    e, t := Submit(inp, p, e, table, bus, sockets, w0, t);
    var swap := ExecuteSwap(BasePrice, bq.best.dex, inp.swapRnd);
    e, t := Confirm(inp, p, bq, swap, e, table, bus, sockets, w0, t);
    TryBlockUnrolled(inp, p);
    if e.Some? {
      result := CatchStep(inp, e.value, table, bus, sockets, w0, t.attempts);
    } else {
      result := Success(swap);
    }
    if id in w0.rows {
      RunFinalStatus(inp, p, old(table.GetOrderById(id)), w0, bus.listeners, sockets.open);
    }
  }
}
