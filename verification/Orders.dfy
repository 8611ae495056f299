/** The exchange: orders trade in whole ticks, at exactly their price. */
module Orders {
  import opened Common
  import opened BigEndian
  import opened Ledger
  import opened Actions

  /** What every stored order satisfies. */
  predicate ValidOrder(o: OrderRecord) {
    && 0 < o.inTick && 0 < o.outTick && 0 < o.remaining
    && o.remaining % o.outTick == 0
    && o.inAsset != o.outAsset
  }

  // ---- Tick arithmetic ----

  lemma ExactQuotient(n: nat, d: nat)
    requires 0 < d && n % d == 0
    ensures n == d * (n / d)
  {
  }

  lemma MonotoneProduct(d: nat, m: nat, n: nat)
    requires m <= n
    ensures d * m <= d * n
  {
  }

  lemma StrictProduct(d: nat, m: nat, n: nat)
    requires 0 < d && m < n
    ensures d * m < d * n
  {
  }

  lemma Difference(d: nat, m: nat, n: nat)
    requires n <= m
    ensures d * m - d * n == d * (m - n) == (m - n) * d
  {
  }

  lemma DivideMultiple(n: nat, m: nat, d: nat)
    requires 0 < d && n == d * m
    ensures n / d == m && n % d == 0
  {
    var q := n / d;
    assert n == d * q + n % d;
    if q < m {
      MonotoneProduct(d, q + 1, m);
    } else if m < q {
      MonotoneProduct(d, m + 1, q);
    }
  }

  /** How many ticks a fill of `value` takes from an order: as many as offered, at most what is left. */
  function Ticks(o: OrderRecord, value: uint64): nat
    requires 0 < o.inTick && 0 < o.outTick
  {
    var offered, left := value / o.inTick, o.remaining / o.outTick;
    if offered <= left then offered else left
  }

  lemma InputOverTicks(o: OrderRecord, over: uint64, k: nat)
    requires 0 < o.outTick && over == o.outTick * k && o.inTick * k <= MAX_UINT64
    ensures InputOver(o, over) == o.inTick * k
  {
    DivideMultiple(over, k, o.outTick);
    assert k * o.inTick == o.inTick * k;
  }

  lemma OversizedFill(o: OrderRecord, value: uint64, output: uint64, refund: uint64)
    requires 0 < o.outTick && o.remaining < output
    requires refund == InputOver(o, output - o.remaining) && refund <= value
    ensures FillAmounts(o, value, output) == OrderResult(value - refund, o.remaining, 0)
  {
  }

  /** A fill that asks for `k` ticks too many is clipped by exactly those ticks. */
  lemma ClippedFill(o: OrderRecord, value: uint64, output: uint64, k: nat, paid: uint64)
    requires 0 < o.outTick && o.remaining < output
    requires output == o.remaining + o.outTick * k && value == paid + o.inTick * k
    ensures FillAmounts(o, value, output) == OrderResult(paid, o.remaining, 0)
  {
    InputOverTicks(o, output - o.remaining, k);
    OversizedFill(o, value, output, value - paid);
  }

  /** A fill offering no more ticks than the order has takes exactly what it offers. */
  lemma WholeFill(o: OrderRecord, value: uint64, q: nat, n: nat)
    requires 0 < o.outTick && q <= n && o.remaining == o.outTick * n
    ensures o.outTick * q <= o.remaining
    ensures FillAmounts(o, value, o.outTick * q) == OrderResult(value, o.outTick * q, o.remaining - o.outTick * q)
  {
  }

  lemma PositiveProduct(d: nat, m: nat)
    requires 0 < d && 0 < m
    ensures 0 < d * m
  {
  }

  /** A fill of `value` passes the arithmetic checks of an order. */
  predicate Fits(o: OrderRecord, value: nat) {
    && 0 < o.inTick && 0 < o.outTick && 0 < value <= MAX_UINT64 && value % o.inTick == 0
    && o.outTick * (value / o.inTick) <= MAX_UINT64
  }

  function Amounts(o: OrderRecord, value: uint64): OrderResult
    requires Fits(o, value)
  {
    FillAmounts(o, value, o.outTick * (value / o.inTick))
  }

  lemma QuoteAmounts(a: Action, o: OrderRecord)
    requires a.FillOrder? && Quote(a, o).Accept?
    ensures Fits(o, a.value) && Quote(a, o).value == Amounts(o, a.value)
  {
  }

  /** The amounts of a fill, clipped or not, are a whole positive number of ticks; nothing wraps. */
  lemma FillInTicks(o: OrderRecord, value: uint64)
    requires ValidOrder(o) && Fits(o, value)
    ensures 0 < Ticks(o, value)
    ensures 0 < o.inTick * Ticks(o, value) <= value && 0 < o.outTick * Ticks(o, value) <= o.remaining
    ensures Amounts(o, value)
         == OrderResult(o.inTick * Ticks(o, value), o.outTick * Ticks(o, value),
                        o.remaining - o.outTick * Ticks(o, value))
  {
    var q, n := value / o.inTick, o.remaining / o.outTick;
    ExactQuotient(value, o.inTick);
    ExactQuotient(o.remaining, o.outTick);
    PositiveProduct(o.inTick, Ticks(o, value));
    PositiveProduct(o.outTick, Ticks(o, value));
    if n < q {
      StrictProduct(o.outTick, n, q);
      Difference(o.outTick, q, n);
      Difference(o.inTick, q, n);
      ClippedFill(o, value, o.outTick * q, q - n, o.inTick * n);
      MonotoneProduct(o.inTick, n, q);
    } else {
      WholeFill(o, value, q, n);
    }
  }

  /** What a fill leaves behind is still a whole number of ticks. */
  lemma RemainingInTicks(o: OrderRecord, value: uint64)
    requires ValidOrder(o) && Fits(o, value)
    ensures Amounts(o, value).remaining % o.outTick == 0
    ensures Amounts(o, value).remaining / o.outTick == o.remaining / o.outTick - Ticks(o, value)
  {
    FillInTicks(o, value);
    ExactQuotient(o.remaining, o.outTick);
    var left := o.remaining / o.outTick - Ticks(o, value);
    Difference(o.outTick, o.remaining / o.outTick, Ticks(o, value));
    DivideMultiple(o.remaining - o.outTick * Ticks(o, value), left, o.outTick);
  }

  lemma PriceOfTicks(o: OrderRecord, f: nat)
    ensures (o.inTick * f) * o.outTick == (o.outTick * f) * o.inTick
  {
  }

  // ---- The result of a fill ----

  lemma OrderResultRoundTrip(r: OrderResult)
    ensures UnmarshalOrderResult(MarshalOrderResult(r))
         == if r.paid == 0 || r.received == 0 then None else Some(r)
  {
    var b := MarshalOrderResult(r);
    assert b[..8] == Uint64Bytes(r.paid);
    assert b[8..16] == Uint64Bytes(r.received);
    assert b[16..24] == Uint64Bytes(r.remaining);
    Uint64RoundTrip(r.paid);
    Uint64RoundTrip(r.received);
    Uint64RoundTrip(r.remaining);
  }

  /** What a successful fill of a valid order reports and does to the order. */
  ghost predicate ExactFill(c: Context, a: Action, s: Store, o: OrderRecord, r: OrderResult)
    requires a.FillOrder?
  {
    var t := FillOrderSpec(c, a, s).store;
    && r.paid * o.outTick == r.received * o.inTick
    && 0 < r.paid <= a.value
    && 0 < r.received <= o.remaining
    && r.remaining == o.remaining - r.received
    && (OrderKey(a.order) !in t <==> r.remaining == 0)
    && (r.remaining != 0 ==>
         var rest := o.(remaining := r.remaining); GetOrder(t, a.order) == Some(rest) && ValidOrder(rest))
  }

  /** The amounts traded are at the price of the order, and what is left is again a valid order or nothing. */
  lemma AmountsAtPrice(o: OrderRecord, value: uint64)
    requires ValidOrder(o) && Fits(o, value)
    ensures var r := Amounts(o, value);
      && r.paid * o.outTick == r.received * o.inTick
      && 0 < r.paid <= value && 0 < r.received <= o.remaining && r.remaining == o.remaining - r.received
      && (r.remaining != 0 ==> ValidOrder(o.(remaining := r.remaining)))
  {
    FillInTicks(o, value);
    RemainingInTicks(o, value);
    PriceOfTicks(o, Ticks(o, value));
  }

  /** A successful fill trades at exactly the order's price, and the result it publishes decodes. */
  lemma FillAtExactPrice(c: Context, a: Action, s: Store, o: OrderRecord)
    requires a.FillOrder? && GetOrder(s, a.order) == Some(o) && ValidOrder(o)
    requires FillOrderSpec(c, a, s).Ok?
    ensures UnmarshalOrderResult(FillOrderSpec(c, a, s).output).Some?
    ensures ExactFill(c, a, s, o, UnmarshalOrderResult(FillOrderSpec(c, a, s).output).value)
  {
    QuoteAmounts(a, o);
    AmountsAtPrice(o, a.value);
    OrderResultRoundTrip(Quote(a, o).value);
  }

  lemma QuoteNeverFree(a: Action, o: OrderRecord)
    requires a.FillOrder? && ValidOrder(o)
    ensures Quote(a, o) != Abort && Quote(a, o) != Refuse(InsufficientInput)
      && Quote(a, o) != Refuse(InsufficientOutput)
  {
    if Fits(o, a.value) { FillInTicks(o, a.value); }
  }

  /** On a valid order the rejections for a free trade and the division by zero cannot happen. */
  lemma FillNeverFree(c: Context, a: Action, s: Store)
    requires a.FillOrder?
    requires OrderKey(a.order) in s ==> ValidOrder(s[OrderKey(a.order)].order)
    ensures !FillOrderSpec(c, a, s).Panic?
    ensures FillOrderSpec(c, a, s).Err? ==> FillOrderSpec(c, a, s).failure !in {InsufficientInput, InsufficientOutput}
  {
    var o := GetOrder(s, a.order);
    if o.Some? {
      QuoteNeverFree(a, o.value);
      if Quote(a, o.value).Accept? { SettleFailures(c.actor, a.order, o.value, Quote(a, o.value).value, s); }
    }
  }

  lemma SettleFailures(actor: PublicKey, order: Id, o: OrderRecord, r: OrderResult, s: Store)
    ensures Settle(actor, order, o, r, s).Ok? || Settle(actor, order, o, r, s).Err?
    ensures Settle(actor, order, o, r, s).Err? ==> Settle(actor, order, o, r, s).failure == InvalidBalance
  {
  }
}
