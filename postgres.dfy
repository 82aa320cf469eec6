/** The `orders` table: how an order becomes the fourteen parameters of its
    INSERT, how `updateOrderStatus` builds its SET clauses and parameter
    list, how a stored row is read back as an order, and a small model of
    what PostgreSQL does with those statements (parameter binding, the
    NUMERIC / INTEGER / TIMESTAMPTZ column types, NOT NULL, the primary
    key). The UUID `id` column and the TEXT columns hold plain strings:
    the key is compared as written, and every string is accepted. */
module Postgres {
  import opened Wrappers
  import opened Domain

  /** A statement parameter, as the driver passes a JavaScript value. */
  datatype SqlValue = SText(text: string) | SNum(num: real) | STime(time: Timestamp) | SNull

  /** The columns of `orders`, in the order of the table definition. */
  datatype Column =
    | Id | Type | Side | TokenIn | TokenOut | AmountIn | MaxSlippageBps
    | Status | ChosenDex | ExecutedPrice | TxHash | FailureReason
    | CreatedAt | UpdatedAt

  datatype ColumnType = Text | Numeric | Integer | Timestamptz

  datatype SqlError = InvalidInput | WrongParameterCount | DuplicateKey

  /** A stored row, with each column at its declared SQL type. */
  datatype Row = Row(
    id: string,
    orderType: string,
    side: string,
    tokenIn: string,
    tokenOut: string,
    amountIn: real,
    maxSlippageBps: int,
    status: string,
    chosenDex: Option<string>,
    executedPrice: Option<real>,
    txHash: Option<string>,
    failureReason: Option<string>,
    createdAt: Timestamp,
    updatedAt: Timestamp)

  /** Rows keyed by their primary key. */
  type Table = map<string, Row>

  function ColumnName(c: Column): string {
    match c
    case Id => "id"
    case Type => "type"
    case Side => "side"
    case TokenIn => "token_in"
    case TokenOut => "token_out"
    case AmountIn => "amount_in"
    case MaxSlippageBps => "max_slippage_bps"
    case Status => "status"
    case ChosenDex => "chosen_dex"
    case ExecutedPrice => "executed_price"
    case TxHash => "tx_hash"
    case FailureReason => "failure_reason"
    case CreatedAt => "created_at"
    case UpdatedAt => "updated_at"
  }

  function TypeOf(c: Column): ColumnType {
    match c
    case AmountIn | ExecutedPrice => Numeric
    case MaxSlippageBps => Integer
    case CreatedAt | UpdatedAt => Timestamptz
    case _ => Text
  }

  predicate Nullable(c: Column) {
    c == ChosenDex || c == ExecutedPrice || c == TxHash || c == FailureReason
  }

  predicate IsWhole(x: real) {
    x.Floor as real == x
  }

  /** Whether a column accepts a parameter: NULL only where nullable, and a
      number in an INTEGER column only when it has no fractional part. */
  predicate Accepts(c: Column, v: SqlValue) {
    match v
    case SNull => Nullable(c)
    case SText(_) => TypeOf(c) == Text
    case SNum(x) => TypeOf(c) == Numeric || (TypeOf(c) == Integer && IsWhole(x))
    case STime(_) => TypeOf(c) == Timestamptz
  }

  function TextOf(v: SqlValue): Option<string> {
    if v.SText? then Some(v.text) else None
  }

  function NumOf(v: SqlValue): Option<real> {
    if v.SNum? then Some(v.num) else None
  }

  /** Stores an accepted parameter in one column of a row. */
  function SetColumn(row: Row, c: Column, v: SqlValue): Row
    requires Accepts(c, v)
  {
    match c
    case Id => row.(id := v.text)
    case Type => row.(orderType := v.text)
    case Side => row.(side := v.text)
    case TokenIn => row.(tokenIn := v.text)
    case TokenOut => row.(tokenOut := v.text)
    case AmountIn => row.(amountIn := v.num)
    case MaxSlippageBps => row.(maxSlippageBps := v.num.Floor)
    case Status => row.(status := v.text)
    case ChosenDex => row.(chosenDex := TextOf(v))
    case ExecutedPrice => row.(executedPrice := NumOf(v))
    case TxHash => row.(txHash := TextOf(v))
    case FailureReason => row.(failureReason := TextOf(v))
    case CreatedAt => row.(createdAt := v.time)
    case UpdatedAt => row.(updatedAt := v.time)
  }

  // ---------------------------------------------------------------------
  // insertOrder
  // ---------------------------------------------------------------------

  /** The column list of the INSERT statement. */
  const InsertColumns: seq<Column> :=
    [Id, Type, Side, TokenIn, TokenOut, AmountIn, MaxSlippageBps,
     Status, ChosenDex, ExecutedPrice, TxHash, FailureReason,
     CreatedAt, UpdatedAt]

  /** `value ?? null` for a text field. */
  function OptText(o: Option<string>): SqlValue {
    if o.Some? then SText(o.value) else SNull
  }

  function OptNum(o: Option<real>): SqlValue {
    if o.Some? then SNum(o.value) else SNull
  }

  function OptDex(o: Option<Dex>): Option<string> {
    if o.Some? then Some(DexName(o.value)) else None
  }

  /** The parameter list `insertOrder` sends: one value per column, in
      column order, absent optional fields as NULL. */
  function InsertParams(o: Order): (vs: seq<SqlValue>)
    ensures |vs| == |InsertColumns| == 14
    ensures vs[0] == SText(o.id) && vs[7] == SText(StatusName(o.status))
    ensures vs[8] == SNull <==> o.chosenDex.None?
    ensures vs[9] == SNull <==> o.executedPrice.None?
    ensures vs[10] == SNull <==> o.txHash.None?
    ensures vs[11] == SNull <==> o.failureReason.None?
  {
    [SText(o.id), SText(TypeName(o.orderType)), SText(SideName(o.side)),
     SText(o.tokenIn), SText(o.tokenOut), SNum(o.amountIn), SNum(o.maxSlippageBps),
     SText(StatusName(o.status)), OptText(OptDex(o.chosenDex)), OptNum(o.executedPrice),
     OptText(o.txHash), OptText(o.failureReason), STime(o.createdAt), STime(o.updatedAt)]
  }

  /** Whether each of the fourteen INSERT parameters suits its column, in
      column order: the text columns take text, amount_in a number,
      max_slippage_bps a whole number, the timestamps times, and the four
      nullable columns also NULL (the rules `Accepts` states column by
      column). */
  predicate ParamsFit(vs: seq<SqlValue>) {
    && |vs| == 14
    && vs[0].SText? && vs[1].SText? && vs[2].SText? && vs[3].SText? && vs[4].SText?
    && vs[5].SNum? && vs[6].SNum? && IsWhole(vs[6].num) && vs[7].SText?
    && (vs[8].SText? || vs[8].SNull?) && (vs[9].SNum? || vs[9].SNull?)
    && (vs[10].SText? || vs[10].SNull?) && (vs[11].SText? || vs[11].SNull?)
    && vs[12].STime? && vs[13].STime?
  }

  /** The row an accepted INSERT stores. */
  function RowOfParams(vs: seq<SqlValue>): Row
    requires ParamsFit(vs)
  {
    Row(vs[0].text, vs[1].text, vs[2].text, vs[3].text, vs[4].text,
        vs[5].num, vs[6].num.Floor, vs[7].text, TextOf(vs[8]), NumOf(vs[9]),
        TextOf(vs[10]), TextOf(vs[11]), vs[12].time, vs[13].time)
  }

  /** What PostgreSQL does with an INSERT of `vs` into `orders`. */
  function InsertInto(table: Table, vs: seq<SqlValue>): Result<Table, SqlError> {
    if |vs| != |InsertColumns| then Failure(WrongParameterCount)
    else if !ParamsFit(vs) then Failure(InvalidInput)
    else
      var row := RowOfParams(vs);
      if row.id in table then Failure(DuplicateKey) else Success(table[row.id := row])
  }

  // ---------------------------------------------------------------------
  // getOrderById
  // ---------------------------------------------------------------------

  /** A row whose enumeration columns hold names of the source's types. */
  predicate Decodable(row: Row) {
    && ParseType(row.orderType).Some?
    && ParseSide(row.side).Some?
    && ParseStatus(row.status).Some?
    && (row.chosenDex.Some? ==> ParseDex(row.chosenDex.value).Some?)
  }

  /** The row-to-order mapping of `getOrderById`. The driver returns a
      NUMERIC as its text, which is truthy unless the column is NULL, so
      `executedPrice` is absent exactly when the column is NULL. */
  function OrderOfRow(row: Row): Order
    requires Decodable(row)
  {
    Order(row.id, ParseType(row.orderType).value, ParseSide(row.side).value,
          row.tokenIn, row.tokenOut, row.amountIn, row.maxSlippageBps as real,
          ParseStatus(row.status).value,
          if row.chosenDex.Some? then Some(ParseDex(row.chosenDex.value).value) else None,
          if row.executedPrice.Some? then Some(row.executedPrice.value) else None,
          row.txHash, row.failureReason, row.createdAt, row.updatedAt)
  }

  /** The parameters of an order with a whole slippage fit their columns. */
  lemma ParamsFitWhenWhole(o: Order)
    requires IsWhole(o.maxSlippageBps)
    ensures ParamsFit(InsertParams(o))
  {
  }

  /** The row an order's parameters make reads back as that order. */
  lemma ParamsReadBack(o: Order)
    requires IsWhole(o.maxSlippageBps)
    ensures ParamsFit(InsertParams(o))
    ensures RowOfParams(InsertParams(o)).id == o.id
    ensures Decodable(RowOfParams(InsertParams(o))) && OrderOfRow(RowOfParams(InsertParams(o))) == o
  {
    ParamsFitWhenWhole(o);
    var row := RowOfParams(InsertParams(o));
    assert row.chosenDex == OptDex(o.chosenDex) && row.txHash == o.txHash;
    assert row.executedPrice == o.executedPrice && row.failureReason == o.failureReason;
    assert ParseSide(SideName(o.side)) == Some(o.side);
    assert ParseStatus(StatusName(o.status)) == Some(o.status);
    assert o.chosenDex.Some? ==> ParseDex(DexName(o.chosenDex.value)) == Some(o.chosenDex.value);
    assert row.maxSlippageBps as real == o.maxSlippageBps;
  }

  /** Inserting an order succeeds exactly when its id is new and its
      slippage fits the INTEGER column; the stored row then reads back as
      the same order, and no other row changes. */
  lemma InsertReadsBack(table: Table, o: Order)
    ensures InsertInto(table, InsertParams(o)).Success? <==> o.id !in table && IsWhole(o.maxSlippageBps)
    ensures InsertInto(table, InsertParams(o)).Success? ==>
              var t := InsertInto(table, InsertParams(o)).value;
              && t.Keys == table.Keys + {o.id}
              && (forall id :: id in table ==> t[id] == table[id])
              && Decodable(t[o.id]) && OrderOfRow(t[o.id]) == o
  {
    var vs := InsertParams(o);
    if IsWhole(o.maxSlippageBps) {
      ParamsReadBack(o);
      var row := RowOfParams(vs);
      if o.id !in table {
        assert InsertInto(table, vs) == Success(table[o.id := row]);
      }
    }
  }

  // ---------------------------------------------------------------------
  // updateOrderStatus
  // ---------------------------------------------------------------------

  /** The optional fields an update may also set. */
  datatype Patch = Patch(
    chosenDex: Option<Dex>,
    executedPrice: Option<real>,
    txHash: Option<string>,
    failureReason: Option<string>)

  const NoPatch: Patch := Patch(None, None, None, None)

  /** One `column = $k` item of a SET list. */
  datatype Clause = Clause(column: Column, param: nat)

  datatype UpdateStatement = UpdateStatement(clauses: seq<Clause>, values: seq<SqlValue>)

  predicate IsDigit(c: char) {
    '0' <= c <= '9'
  }

  /** The character of a decimal digit. */
  function DigitChar(d: nat): (c: char)
    requires d < 10
    ensures IsDigit(c)
  {
    ('0' as int + d) as char
  }

  /** The decimal text of a parameter number, as a template literal
      writes it. */
  function NatText(n: nat): (s: string)
    ensures |s| >= 1 && forall i :: 0 <= i < |s| ==> IsDigit(s[i])
    ensures n < 10 <==> |s| == 1
    decreases n
  {
    if n < 10 then [DigitChar(n)] else NatText(n / 10) + [DigitChar(n % 10)]
  }

  /** The number a string of decimal digits denotes. */
  function DecimalValue(s: string): nat
    decreases |s|
  {
    if s == [] then 0
    else
      var c := s[|s| - 1];
      DecimalValue(s[..|s| - 1]) * 10 + (if IsDigit(c) then c as int - '0' as int else 0)
  }

  /** Reading a parameter number's text gives the number back, so distinct
      parameters get distinct `$k` names. */
  lemma {:induction false} NatTextReadsBack(n: nat)
    ensures DecimalValue(NatText(n)) == n
    decreases n
  {
    if n >= 10 {
      NatTextReadsBack(n / 10);
      var s := NatText(n);
      assert s[..|s| - 1] == NatText(n / 10);
      assert DecimalValue(s) == DecimalValue(NatText(n / 10)) * 10 + n % 10;
    } else {
      assert NatText(n)[..0] == [];
    }
  }

  /** The text of a SET item, as `updateOrderStatus` writes it. */
  function ClauseText(c: Clause): string {
    ColumnName(c.column) + " = $" + NatText(c.param)
  }

  /** The SET items of a statement, in order. */
  function SetItems(st: UpdateStatement): (ts: seq<string>)
    ensures |ts| == |st.clauses|
    ensures forall i :: 0 <= i < |ts| ==> ts[i] == ClauseText(st.clauses[i])
  {
    seq(|st.clauses|, i requires 0 <= i < |st.clauses| => ClauseText(st.clauses[i]))
  }

  /** `Array.prototype.join`. */
  function Join(ts: seq<string>, sep: string): (r: string)
    ensures ts == [] ==> r == ""
    ensures |ts| == 1 ==> r == ts[0]
    decreases |ts|
  {
    if ts == [] then "" else if |ts| == 1 then ts[0] else ts[0] + sep + Join(ts[1..], sep)
  }

  /** The query text `updateOrderStatus` sends. */
  function UpdateText(st: UpdateStatement): string {
    "UPDATE orders SET " + Join(SetItems(st), ", ") + " WHERE id = $1"
  }

  /** The assignment of one optional field: none when the field is absent. */
  function Present(c: Column, v: Option<SqlValue>): seq<(Column, SqlValue)> {
    if v.Some? then [(c, v.value)] else []
  }

  /** The parameter a patch supplies for a column, if it defines that field. */
  function PatchValue(p: Patch, c: Column): Option<SqlValue> {
    match c
    case ChosenDex => if p.chosenDex.Some? then Some(SText(DexName(p.chosenDex.value))) else None
    case ExecutedPrice => if p.executedPrice.Some? then Some(SNum(p.executedPrice.value)) else None
    case TxHash => if p.txHash.Some? then Some(SText(p.txHash.value)) else None
    case FailureReason => if p.failureReason.Some? then Some(SText(p.failureReason.value)) else None
    case _ => None
  }

  /** The defined fields of a patch, in the order the source tests them:
      chosenDex, executedPrice, txHash, failureReason. */
  function PatchFields(p: Patch): (fs: seq<(Column, SqlValue)>)
    ensures |fs| <= 4
  {
    Present(ChosenDex, PatchValue(p, ChosenDex)) + Present(ExecutedPrice, PatchValue(p, ExecutedPrice)) +
    Present(TxHash, PatchValue(p, TxHash)) + Present(FailureReason, PatchValue(p, FailureReason))
  }

  /** Patch assignments that suit their nullable columns, in strictly
      increasing test order (so no column appears twice). */
  predicate WellOrderedFields(fs: seq<(Column, SqlValue)>) {
    && (forall i :: 0 <= i < |fs| ==> Nullable(fs[i].0) && Accepts(fs[i].0, fs[i].1))
    && (forall i, j :: 0 <= i < j < |fs| ==> FieldRank(fs[i].0) < FieldRank(fs[j].0))
  }

  /** Every assignment in `fs` has a rank below `k`. */
  predicate RanksBelow(fs: seq<(Column, SqlValue)>, k: nat) {
    forall i :: 0 <= i < |fs| ==> FieldRank(fs[i].0) < k
  }

  lemma AppendPresent(a: seq<(Column, SqlValue)>, c: Column, v: Option<SqlValue>, k: nat)
    requires WellOrderedFields(a) && RanksBelow(a, k)
    requires Nullable(c) && FieldRank(c) == k && (v.Some? ==> Accepts(c, v.value))
    ensures WellOrderedFields(a + Present(c, v)) && RanksBelow(a + Present(c, v), k + 1)
  {
    assert forall i | 0 <= i < |a| :: (a + Present(c, v))[i] == a[i];
  }

  /** The fields a patch assigns suit their columns and never repeat one. */
  lemma PatchFieldsWellOrdered(p: Patch)
    ensures WellOrderedFields(PatchFields(p))
  {
    var v1, v2, v3, v4 := PatchValue(p, ChosenDex), PatchValue(p, ExecutedPrice), PatchValue(p, TxHash), PatchValue(p, FailureReason);
    var f := Present(ChosenDex, v1);
    assert WellOrderedFields(f) && RanksBelow(f, 1);
    AppendPresent(f, ExecutedPrice, v2, 1);
    f := f + Present(ExecutedPrice, v2);
    AppendPresent(f, TxHash, v3, 2);
    f := f + Present(TxHash, v3);
    AppendPresent(f, FailureReason, v4, 3);
  }

  /** The position of a patchable column in the source's test order. */
  function FieldRank(c: Column): nat {
    match c
    case ChosenDex => 0
    case ExecutedPrice => 1
    case TxHash => 2
    case FailureReason => 3
    case _ => 4
  }

  /** The SET items of patch fields, numbered from `$4` on. */
  function NumberedClauses(fs: seq<(Column, SqlValue)>): seq<Clause> {
    seq(|fs|, i requires 0 <= i < |fs| => Clause(fs[i].0, i + 4))
  }

  function FieldValues(fs: seq<(Column, SqlValue)>): seq<SqlValue> {
    seq(|fs|, i requires 0 <= i < |fs| => fs[i].1)
  }

  lemma NumberedClausesSnoc(fs: seq<(Column, SqlValue)>, x: (Column, SqlValue))
    ensures NumberedClauses(fs + [x]) == NumberedClauses(fs) + [Clause(x.0, |fs| + 4)]
    ensures FieldValues(fs + [x]) == FieldValues(fs) + [x.1]
  {
    assert forall i | 0 <= i < |fs| :: (fs + [x])[i] == fs[i];
  }

  /** An update of status and updated_at that also assigns `fs`. */
  function StatementOf(orderId: string, status: OrderStatus, now: Timestamp, fs: seq<(Column, SqlValue)>): UpdateStatement {
    UpdateStatement(
      [Clause(Status, 2), Clause(UpdatedAt, 3)] + NumberedClauses(fs),
      [SText(orderId), SText(StatusName(status)), STime(now)] + FieldValues(fs))
  }

  /** The statement `updateOrderStatus` sends: status and updated_at first,
      then one clause per defined patch field. */
  function StatusUpdate(orderId: string, status: OrderStatus, patch: Patch, now: Timestamp): UpdateStatement {
    StatementOf(orderId, status, now, PatchFields(patch))
  }

  /** The lists built so far hold the status clauses and then the fields
      `fs`, and the next parameter is `$k` with `k` one past the last. */
  predicate BuiltSoFar(updates: seq<Clause>, values: seq<SqlValue>, paramIndex: nat,
                       orderId: string, status: OrderStatus, now: Timestamp, fs: seq<(Column, SqlValue)>)
  {
    && UpdateStatement(updates, values) == StatementOf(orderId, status, now, fs)
    && paramIndex == |fs| + 4
  }

  /** One `if (field !== undefined)` step of the builder keeps `BuiltSoFar`. */
  lemma BuildStep(updates: seq<Clause>, values: seq<SqlValue>, paramIndex: nat,
                  orderId: string, status: OrderStatus, now: Timestamp, fs: seq<(Column, SqlValue)>,
                  c: Column, v: Option<SqlValue>)
    requires BuiltSoFar(updates, values, paramIndex, orderId, status, now, fs)
    ensures v.None? ==> BuiltSoFar(updates, values, paramIndex, orderId, status, now, fs + Present(c, v))
    ensures v.Some? ==> BuiltSoFar(updates + [Clause(c, paramIndex)], values + [v.value], paramIndex + 1,
                                   orderId, status, now, fs + Present(c, v))
  {
    if v.Some? {
      NumberedClausesSnoc(fs, (c, v.value));
    } else {
      assert fs + Present(c, v) == fs;
    }
  }

  /** One `if (patch?.field !== undefined)` block of `updateOrderStatus`:
      push the SET item and the value, and advance the parameter index. */
  method PushIfDefined(updates: seq<Clause>, values: seq<SqlValue>, paramIndex: nat, c: Column, v: Option<SqlValue>)
    returns (updates': seq<Clause>, values': seq<SqlValue>, paramIndex': nat)
    ensures v.None? ==> updates' == updates && values' == values && paramIndex' == paramIndex
    ensures v.Some? ==> && updates' == updates + [Clause(c, paramIndex)]
                        && values' == values + [v.value]
                        && paramIndex' == paramIndex + 1
  {
    updates', values', paramIndex' := updates, values, paramIndex;
    if v.Some? {
      updates' := updates' + [Clause(c, paramIndex')];
      values' := values' + [v.value];
      paramIndex' := paramIndex' + 1;
    }
  }

  /** `updateOrderStatus`'s clause and parameter builder: the status
      clauses, then one block per optional field in the source's order. */
  method BuildStatusUpdate(orderId: string, status: OrderStatus, patch: Patch, now: Timestamp)
    returns (updates: seq<Clause>, values: seq<SqlValue>)
    ensures UpdateStatement(updates, values) == StatusUpdate(orderId, status, patch, now)
  {
    updates := [Clause(Status, 2), Clause(UpdatedAt, 3)];
    values := [SText(orderId), SText(StatusName(status)), STime(now)];
    var paramIndex := 4;
    ghost var fs: seq<(Column, SqlValue)> := [];

    BuildStep(updates, values, paramIndex, orderId, status, now, fs, ChosenDex, PatchValue(patch, ChosenDex));
    updates, values, paramIndex := PushIfDefined(updates, values, paramIndex, ChosenDex, PatchValue(patch, ChosenDex));
    assert fs + Present(ChosenDex, PatchValue(patch, ChosenDex)) == Present(ChosenDex, PatchValue(patch, ChosenDex));
    fs := Present(ChosenDex, PatchValue(patch, ChosenDex));

    BuildStep(updates, values, paramIndex, orderId, status, now, fs, ExecutedPrice, PatchValue(patch, ExecutedPrice));
    updates, values, paramIndex := PushIfDefined(updates, values, paramIndex, ExecutedPrice, PatchValue(patch, ExecutedPrice));
    fs := fs + Present(ExecutedPrice, PatchValue(patch, ExecutedPrice));

    BuildStep(updates, values, paramIndex, orderId, status, now, fs, TxHash, PatchValue(patch, TxHash));
    updates, values, paramIndex := PushIfDefined(updates, values, paramIndex, TxHash, PatchValue(patch, TxHash));
    fs := fs + Present(TxHash, PatchValue(patch, TxHash));

    BuildStep(updates, values, paramIndex, orderId, status, now, fs, FailureReason, PatchValue(patch, FailureReason));
    updates, values, paramIndex := PushIfDefined(updates, values, paramIndex, FailureReason, PatchValue(patch, FailureReason));
    fs := fs + Present(FailureReason, PatchValue(patch, FailureReason));
  }

  /** The parameter each clause names, when every `$k` exists and its
      value suits the column; PostgreSQL also refuses a column assigned twice. */
  predicate Bindable(st: UpdateStatement) {
    && (forall i | 0 <= i < |st.clauses| ::
          1 <= st.clauses[i].param <= |st.values| &&
          Accepts(st.clauses[i].column, st.values[st.clauses[i].param - 1]))
    && (forall i, j | 0 <= i < j < |st.clauses| :: st.clauses[i].column != st.clauses[j].column)
  }

  /** The assignments of a bindable statement, clause by clause. */
  function Assignments(st: UpdateStatement): (a: seq<(Column, SqlValue)>)
    requires Bindable(st)
    ensures |a| == |st.clauses|
    ensures forall i :: 0 <= i < |a| ==> Accepts(a[i].0, a[i].1)
  {
    seq(|st.clauses|, i requires 0 <= i < |st.clauses| =>
      (st.clauses[i].column, st.values[st.clauses[i].param - 1]))
  }

  function Assign(row: Row, a: seq<(Column, SqlValue)>): Row
    requires forall i :: 0 <= i < |a| ==> Accepts(a[i].0, a[i].1)
    decreases |a|
  {
    if a == [] then row else Assign(SetColumn(row, a[0].0, a[0].1), a[1..])
  }

  /** What PostgreSQL does with `UPDATE orders SET … WHERE id = $1`: the
      matching row, if any, receives the assignments; no match changes
      nothing. */
  function ExecUpdate(table: Table, st: UpdateStatement): Result<Table, SqlError> {
    if |st.values| == 0 || !st.values[0].SText? || !Bindable(st) then Failure(InvalidInput)
    else
      var id := st.values[0].text;
      if id in table then Success(table[id := Assign(table[id], Assignments(st))])
      else Success(table)
  }

  /** The intended effect of `updateOrderStatus(orderId, status, patch)` on
      one row: overwrite status and updated_at, and exactly the fields the
      patch defines. */
  function PatchRow(row: Row, status: OrderStatus, now: Timestamp, p: Patch): Row {
    row.(status := StatusName(status),
         updatedAt := now,
         chosenDex := if p.chosenDex.Some? then Some(DexName(p.chosenDex.value)) else row.chosenDex,
         executedPrice := if p.executedPrice.Some? then p.executedPrice else row.executedPrice,
         txHash := if p.txHash.Some? then p.txHash else row.txHash,
         failureReason := if p.failureReason.Some? then p.failureReason else row.failureReason)
  }

  lemma {:induction false} AssignAppend(row: Row, a: seq<(Column, SqlValue)>, b: seq<(Column, SqlValue)>)
    requires forall i :: 0 <= i < |a| ==> Accepts(a[i].0, a[i].1)
    requires forall i :: 0 <= i < |b| ==> Accepts(b[i].0, b[i].1)
    ensures forall i :: 0 <= i < |a + b| ==> Accepts((a + b)[i].0, (a + b)[i].1)
    ensures Assign(row, a + b) == Assign(Assign(row, a), b)
    decreases |a|
  {
    assert forall i :: 0 <= i < |a + b| ==> (a + b)[i] == if i < |a| then a[i] else b[i - |a|];
    if a != [] {
      assert (a + b)[0] == a[0];
      assert (a + b)[1..] == a[1..] + b;
      AssignAppend(SetColumn(row, a[0].0, a[0].1), a[1..], b);
    } else {
      assert a + b == b;
    }
  }

  lemma AssignPresent(row: Row, c: Column, v: Option<SqlValue>)
    requires v.Some? ==> Accepts(c, v.value)
    ensures forall i :: 0 <= i < |Present(c, v)| ==> Accepts(Present(c, v)[i].0, Present(c, v)[i].1)
    ensures Assign(row, Present(c, v)) == if v.Some? then SetColumn(row, c, v.value) else row
  {
    if v.Some? {
      assert Present(c, v)[1..] == [];
    }
  }

  /** The patch fields assigned one after another overwrite exactly the
      fields the patch defines. */
  lemma AssignPatchFields(row: Row, p: Patch)
    ensures Assign(row, PatchFields(p)) ==
            row.(chosenDex := if p.chosenDex.Some? then Some(DexName(p.chosenDex.value)) else row.chosenDex,
                 executedPrice := if p.executedPrice.Some? then p.executedPrice else row.executedPrice,
                 txHash := if p.txHash.Some? then p.txHash else row.txHash,
                 failureReason := if p.failureReason.Some? then p.failureReason else row.failureReason)
  {
    var v1, v2, v3, v4 := PatchValue(p, ChosenDex), PatchValue(p, ExecutedPrice), PatchValue(p, TxHash), PatchValue(p, FailureReason);
    var f1, f2, f3, f4 := Present(ChosenDex, v1), Present(ExecutedPrice, v2), Present(TxHash, v3), Present(FailureReason, v4);
    AssignPresent(row, ChosenDex, v1);
    var r1 := Assign(row, f1);
    AssignPresent(r1, ExecutedPrice, v2);
    var r2 := Assign(r1, f2);
    AssignPresent(r2, TxHash, v3);
    var r3 := Assign(r2, f3);
    AssignPresent(r3, FailureReason, v4);
    AssignAppend(row, f1, f2);
    AssignAppend(row, f1 + f2, f3);
    AssignAppend(row, f1 + f2 + f3, f4);
  }

  /** The k-th SET item of a status update names `$k+1`, and a patch
      clause's parameter is that field's value. */
  lemma StatementParams(orderId: string, status: OrderStatus, now: Timestamp, fs: seq<(Column, SqlValue)>)
    ensures var st := StatementOf(orderId, status, now, fs);
            && |st.clauses| == 2 + |fs| && |st.values| == 3 + |fs|
            && (forall i :: 0 <= i < |st.clauses| ==> st.clauses[i].param == i + 2)
            && (forall i :: 2 <= i < |st.clauses| ==> st.clauses[i].column == fs[i - 2].0 && st.values[i + 1] == fs[i - 2].1)
  {
    var st := StatementOf(orderId, status, now, fs);
    forall i | 2 <= i < |st.clauses| ensures st.clauses[i] == Clause(fs[i - 2].0, i + 2) && st.values[i + 1] == fs[i - 2].1 {
      assert st.clauses[i] == NumberedClauses(fs)[i - 2];
      assert st.values[i + 1] == FieldValues(fs)[i - 2];
    }
  }

  /** A status update carrying well-ordered patch fields binds. */
  lemma PatchStatementBinds(orderId: string, status: OrderStatus, now: Timestamp, fs: seq<(Column, SqlValue)>)
    requires WellOrderedFields(fs)
    ensures Bindable(StatementOf(orderId, status, now, fs))
  {
    var st := StatementOf(orderId, status, now, fs);
    var cs, vs := st.clauses, st.values;
    StatementParams(orderId, status, now, fs);
    forall i | 0 <= i < |cs|
      ensures 1 <= cs[i].param <= |vs| && Accepts(cs[i].column, vs[cs[i].param - 1])
    {
    }
    forall i, j | 0 <= i < j < |cs| ensures cs[i].column != cs[j].column {
      if 2 <= i {
        assert FieldRank(fs[i - 2].0) < FieldRank(fs[j - 2].0);
      } else if 2 <= j {
        assert Nullable(fs[j - 2].0);
      }
    }
  }

  /** The assignments of a bound status update are status, updated_at and
      then the fields in order. */
  lemma PatchStatementAssigns(orderId: string, status: OrderStatus, now: Timestamp, fs: seq<(Column, SqlValue)>)
    requires Bindable(StatementOf(orderId, status, now, fs))
    ensures Assignments(StatementOf(orderId, status, now, fs)) ==
            [(Status, SText(StatusName(status))), (UpdatedAt, STime(now))] + fs
  {
    StatementParams(orderId, status, now, fs);
    var a := Assignments(StatementOf(orderId, status, now, fs));
    var e := [(Status, SText(StatusName(status))), (UpdatedAt, STime(now))] + fs;
    forall i | 0 <= i < |a| ensures a[i] == e[i] {
      if 2 <= i {
        assert e[i] == fs[i - 2];
      }
    }
  }

  /** The statement is well formed whatever the patch: `$1` is the id,
      the k-th SET item names `$k+1`, every parameter suits its column,
      no column is assigned twice, and the assignments are status,
      updated_at and then the defined patch fields in order. */
  lemma StatusUpdateShape(orderId: string, status: OrderStatus, patch: Patch, now: Timestamp)
    ensures var st := StatusUpdate(orderId, status, patch, now);
            && |st.values| == 3 + |PatchFields(patch)| && |st.clauses| == |st.values| - 1
            && st.values[0] == SText(orderId)
            && (forall i :: 0 <= i < |st.clauses| ==> st.clauses[i].param == i + 2)
            && Bindable(st)
            && Assignments(st) == [(Status, SText(StatusName(status))), (UpdatedAt, STime(now))] + PatchFields(patch)
  {
    PatchFieldsWellOrdered(patch);
    PatchStatementBinds(orderId, status, now, PatchFields(patch));
    PatchStatementAssigns(orderId, status, now, PatchFields(patch));
    StatementParams(orderId, status, now, PatchFields(patch));
  }

  /** The SET list starts with `status = $2` and `updated_at = $3`; then
      each defined patch field is named by its column and numbered from
      `$4` on, in the order the source tests them. */
  lemma StatusUpdateText(orderId: string, status: OrderStatus, patch: Patch, now: Timestamp)
    ensures var ts := SetItems(StatusUpdate(orderId, status, patch, now));
            && |ts| == 2 + |PatchFields(patch)|
            && ts[0] == "status = $2" && ts[1] == "updated_at = $3"
            && forall i :: 2 <= i < |ts| ==> ts[i] == ColumnName(PatchFields(patch)[i - 2].0) + " = $" + NatText(i + 2)
  {
    StatementParams(orderId, status, now, PatchFields(patch));
    assert NatText(2) == "2" && NatText(3) == "3";
  }

  /** A bare status change (the worker's building and submitted writes)
      sends exactly this query. */
  lemma BareStatusUpdateText(orderId: string, status: OrderStatus, now: Timestamp)
    ensures UpdateText(StatusUpdate(orderId, status, NoPatch, now)) ==
            "UPDATE orders SET " + "status = $2" + ", " + "updated_at = $3" + " WHERE id = $1"
  {
    BareSetItems(orderId, status, now);
    JoinPair("status = $2", "updated_at = $3", ", ");
  }

  lemma BareSetItems(orderId: string, status: OrderStatus, now: Timestamp)
    ensures SetItems(StatusUpdate(orderId, status, NoPatch, now)) == ["status = $2", "updated_at = $3"]
  {
    assert |PatchFields(NoPatch)| == 0;
    StatusUpdateText(orderId, status, NoPatch, now);
  }

  lemma JoinPair(a: string, b: string, sep: string)
    ensures Join([a, b], sep) == a + sep + b
  {
    assert [a, b][1..] == [b];
  }

  /** The statement the builder produces, applied to the table, overwrites
      status, updated_at and exactly the defined patch fields of the row
      with that id; every other column, and every other row, is unchanged,
      and a missing id changes nothing. */
  lemma UpdateMeetsPatchSpec(table: Table, orderId: string, status: OrderStatus, patch: Patch, now: Timestamp)
    ensures ExecUpdate(table, StatusUpdate(orderId, status, patch, now)) ==
            Success(if orderId in table then table[orderId := PatchRow(table[orderId], status, now, patch)] else table)
  {
    PatchFieldsWellOrdered(patch);
    PatchStatementBinds(orderId, status, now, PatchFields(patch));
    PatchStatementAssigns(orderId, status, now, PatchFields(patch));
    if orderId in table {
      AssignStatusUpdate(table[orderId], status, now, patch);
    }
  }

  /** The assignments of a status update turn a row into its patched form. */
  lemma AssignStatusUpdate(row: Row, status: OrderStatus, now: Timestamp, patch: Patch)
    requires WellOrderedFields(PatchFields(patch))
    ensures forall i :: 0 <= i < |PatchFields(patch)| + 2 ==>
              var a := [(Status, SText(StatusName(status))), (UpdatedAt, STime(now))] + PatchFields(patch);
              Accepts(a[i].0, a[i].1)
    ensures Assign(row, [(Status, SText(StatusName(status))), (UpdatedAt, STime(now))] + PatchFields(patch)) ==
            PatchRow(row, status, now, patch)
  {
    AssignAppend(row, [(Status, SText(StatusName(status))), (UpdatedAt, STime(now))], PatchFields(patch));
    AssignPatchFields(row.(status := StatusName(status), updatedAt := now), patch);
  }

  /** Patching keeps a row readable: the status and venue it writes are
      names of the source's types. */
  lemma PatchKeepsDecodable(row: Row, status: OrderStatus, now: Timestamp, p: Patch)
    requires Decodable(row)
    ensures Decodable(PatchRow(row, status, now, p))
    ensures OrderOfRow(PatchRow(row, status, now, p)).status == status
  {
    assert ParseStatus(StatusName(status)) == Some(status);
    assert p.chosenDex.Some? ==> ParseDex(DexName(p.chosenDex.value)) == Some(p.chosenDex.value);
  }

  // ---------------------------------------------------------------------
  // The table as the pipeline sees it
  // ---------------------------------------------------------------------

  class OrderTable {
    var rows: Table

    /** Every row is stored under its own id and reads back as an order. */
    predicate Valid()
      reads this
    {
      forall id :: id in rows ==> rows[id].id == id && Decodable(rows[id])
    }

    constructor ()
      ensures Valid() && rows == map[]
    {
      rows := map[];
    }

    /** `insertOrder`. */
    method InsertOrder(order: Order) returns (outcome: Outcome<SqlError>)
      requires Valid()
      modifies this
      ensures Valid()
      ensures match InsertInto(old(rows), InsertParams(order))
              case Success(t) => rows == t && outcome == Pass
              case Failure(e) => rows == old(rows) && outcome == Fail(e)
    {
      InsertReadsBack(rows, order);
      var r := InsertInto(rows, InsertParams(order));
      if r.Success? {
        rows := r.value;
        outcome := Pass;
      } else {
        outcome := Fail(r.error);
      }
    }

    /** `updateOrderStatus`: build the statement, then run it. */
    method UpdateOrderStatus(orderId: string, status: OrderStatus, patch: Patch, now: Timestamp)
      requires Valid()
      modifies this
      ensures Valid()
      ensures rows == if orderId in old(rows)
                      then old(rows)[orderId := PatchRow(old(rows)[orderId], status, now, patch)]
                      else old(rows)
    {
      var updates, values := BuildStatusUpdate(orderId, status, patch, now);
      UpdateMeetsPatchSpec(rows, orderId, status, patch, now);
      if orderId in rows {
        PatchKeepsDecodable(rows[orderId], status, now, patch);
      }
      rows := ExecUpdate(rows, UpdateStatement(updates, values)).value;
    }

    /** `getOrderById`: no order exactly when no row has the id. */
    function GetOrderById(orderId: string): (o: Option<Order>)
      reads this
      requires Valid()
      ensures o.None? <==> orderId !in rows
      ensures o.Some? ==> o.value.id == orderId && o.value == OrderOfRow(rows[orderId])
    {
      if orderId in rows then Some(OrderOfRow(rows[orderId])) else None
    }
  }
}
