/** The order entity: its status, side and venue enumerations, the record
    the pipeline moves through its states, and the constructor used on
    submission. The string literals of the source's union types are the
    names given by `StatusName`, `SideName` and `DexName`. */
module Domain {
  import opened Wrappers

  /** Milliseconds since the epoch; the source reads them from `new Date()`. */
  type Timestamp = int

  datatype OrderType = Market

  datatype OrderSide = Buy | Sell

  datatype OrderStatus = Pending | Routing | Building | Submitted | Confirmed | Failed

  /** The two venues an order can be routed to. */
  datatype Dex = Raydium | Meteora

  datatype Order = Order(
    id: string,
    orderType: OrderType,
    side: OrderSide,
    tokenIn: string,
    tokenOut: string,
    amountIn: real,
    maxSlippageBps: real,
    status: OrderStatus,
    chosenDex: Option<Dex>,
    executedPrice: Option<real>,
    txHash: Option<string>,
    failureReason: Option<string>,
    createdAt: Timestamp,
    updatedAt: Timestamp)

  /** The fields a client chooses when submitting a market order. */
  datatype OrderParams = OrderParams(
    side: OrderSide,
    tokenIn: string,
    tokenOut: string,
    amountIn: real,
    maxSlippageBps: real)

  // ---------------------------------------------------------------------
  // Names of the enumerations, and reading them back
  // ---------------------------------------------------------------------

  function TypeName(t: OrderType): string {
    "market"
  }

  function SideName(s: OrderSide): string {
    match s
    case Buy => "buy"
    case Sell => "sell"
  }

  function StatusName(s: OrderStatus): string {
    match s
    case Pending => "pending"
    case Routing => "routing"
    case Building => "building"
    case Submitted => "submitted"
    case Confirmed => "confirmed"
    case Failed => "failed"
  }

  function DexName(d: Dex): string {
    match d
    case Raydium => "raydium"
    case Meteora => "meteora"
  }

  function ParseType(t: string): (r: Option<OrderType>)
    ensures r.Some? <==> t == "market"
    ensures r.Some? ==> TypeName(r.value) == t
  {
    if t == "market" then Some(Market) else None
  }

  function ParseSide(t: string): (r: Option<OrderSide>)
    ensures r.Some? ==> SideName(r.value) == t
    ensures forall s: OrderSide :: t == SideName(s) ==> r == Some(s)
  {
    if t == "buy" then Some(Buy)
    else if t == "sell" then Some(Sell)
    else None
  }

  /** Reading a status back from its stored text: exactly the six names are
      recognised, each as the status it names. */
  function ParseStatus(t: string): (r: Option<OrderStatus>)
    ensures r.Some? ==> StatusName(r.value) == t
    ensures forall s: OrderStatus :: t == StatusName(s) ==> r == Some(s)
  {
    if t == "pending" then Some(Pending)
    else if t == "routing" then Some(Routing)
    else if t == "building" then Some(Building)
    else if t == "submitted" then Some(Submitted)
    else if t == "confirmed" then Some(Confirmed)
    else if t == "failed" then Some(Failed)
    else None
  }

  function ParseDex(t: string): (r: Option<Dex>)
    ensures r.Some? ==> DexName(r.value) == t
    ensures forall d: Dex :: t == DexName(d) ==> r == Some(d)
  {
    if t == "raydium" then Some(Raydium)
    else if t == "meteora" then Some(Meteora)
    else None
  }

  /** A status is exactly one of six values, and distinct statuses have
      distinct names. */
  lemma StatusNamesDistinct(a: OrderStatus, b: OrderStatus)
    ensures StatusName(a) == StatusName(b) <==> a == b
  {
    if StatusName(a) == StatusName(b) {
      assert ParseStatus(StatusName(a)) == Some(a);
      assert ParseStatus(StatusName(b)) == Some(b);
    }
  }

  // ---------------------------------------------------------------------
  // The state machine the pipeline follows
  // ---------------------------------------------------------------------

  predicate IsTerminal(s: OrderStatus) {
    s == Confirmed || s == Failed
  }

  /** Position of a forward status in `pending → routing → building →
      submitted → confirmed`; `failed` sits outside that chain. */
  function Stage(s: OrderStatus): (n: nat)
    requires s != Failed
    ensures n <= 4
    ensures n == 0 <==> s == Pending
    ensures n == 4 <==> s == Confirmed
  {
    match s
    case Pending => 0
    case Routing => 1
    case Building => 2
    case Submitted => 3
    case Confirmed => 4
  }

  /** The legal transitions: one stage forward, or from any non-terminal
      status to `failed`. */
  predicate CanAdvance(from: OrderStatus, to: OrderStatus) {
    !IsTerminal(from) &&
    (to == Failed || (to != Failed && Stage(to) == Stage(from) + 1))
  }

  lemma TerminalHasNoSuccessor(s: OrderStatus, t: OrderStatus)
    requires IsTerminal(s)
    ensures !CanAdvance(s, t)
  {
  }

  // ---------------------------------------------------------------------
  // Creating an order
  // ---------------------------------------------------------------------

  /** The submitted fields that an order carries. */
  function ParamsOf(o: Order): OrderParams {
    OrderParams(o.side, o.tokenIn, o.tokenOut, o.amountIn, o.maxSlippageBps)
  }

  /** The shape of an order nobody has worked on yet. */
  predicate IsNew(o: Order) {
    && o.orderType == Market
    && o.status == Pending
    && o.chosenDex.None?
    && o.executedPrice.None?
    && o.txHash.None?
    && o.failureReason.None?
    && o.createdAt == o.updatedAt
  }

  /** `createNewMarketOrder`: the identifier and the clock reading are
      inputs (the source draws them from `randomUUID()` and `new Date()`). */
  function CreateNewMarketOrder(params: OrderParams, id: string, now: Timestamp): (o: Order)
    ensures IsNew(o)
    ensures ParamsOf(o) == params
    ensures o.id == id && o.createdAt == now
  {
    Order(id, Market, params.side, params.tokenIn, params.tokenOut,
          params.amountIn, params.maxSlippageBps, Pending,
          None, None, None, None, now, now)
  }

  /** A new order is determined by its parameters, its id and its creation
      time: every new order is the one `CreateNewMarketOrder` builds. */
  lemma NewOrderIsDetermined(o: Order)
    requires IsNew(o)
    ensures o == CreateNewMarketOrder(ParamsOf(o), o.id, o.createdAt)
  {
  }
}
