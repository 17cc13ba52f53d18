/**
 * ucel/crates/ucel-symbol-core/src/market_meta.rs: the trading rules of one
 * market (price tick, quantity step, quantity and notional limits), their
 * validation, and the rounding of prices and quantities onto the tick and
 * step grids.  A `rust_decimal::Decimal` holds at most 28 significant
 * digits and rounds a quotient or product that needs more; the model reads
 * decimals as exact reals, so it agrees with the source wherever no such
 * rounding happens.  `normalize` changes only the scale, never the value,
 * and is the identity.
 */
module MarketMeta {
  import opened Wrappers
  import opened Json
  import opened Rounding

  type Decimal = real

  const SCHEMA_VERSION: nat := 1

  datatype Exchange = Bitbank
  datatype MarketType = Spot

  datatype MarketMetaId = MarketMetaId(exchange: Exchange, marketType: MarketType, rawSymbol: string)

  datatype TickStepRounding = Down | Up | Nearest
  datatype OrderSide = Buy | Sell

  datatype MarketMetaError = InvalidMeta(reason: string) | InvalidValue(reason: string) | Constraint(reason: string)

  /** InstrumentMeta is a JSON object; its members compare as a map. */
  datatype Meta = Meta(
    id: MarketMetaId, base: Option<string>, quote: Option<string>,
    tickSize: Decimal, stepSize: Decimal,
    minQty: Option<Decimal>, maxQty: Option<Decimal>, minNotional: Option<Decimal>,
    pricePrecision: Option<nat>, qtyPrecision: Option<nat>, contractSize: Option<Decimal>,
    meta: map<string, Json>, schemaVersion: nat)

  /** MarketMeta::new: no optional limits, the current schema version. */
  function NewMeta(id: MarketMetaId, tickSize: Decimal, stepSize: Decimal): (m: Meta)
    ensures m.id == id && m.tickSize == tickSize && m.stepSize == stepSize && m.schemaVersion == SCHEMA_VERSION
    ensures m.minQty.None? && m.maxQty.None? && m.minNotional.None? && m.contractSize.None?
  {
    Meta(id, None, None, tickSize, stepSize, None, None, None, None, None, None, map[], SCHEMA_VERSION)
  }

  // ---------------------------------------------------------------------
  // Grids
  // ---------------------------------------------------------------------

  /** The k-th point of the grid with spacing step. */
  function Multiple(k: int, step: Decimal): Decimal { k as real * step }

  /**
   * is_multiple_of: the remainder of value by step is zero.  A zero step has
   * no multiples.
   */
  function IsMultipleOf(value: Decimal, step: Decimal): (b: bool)
    ensures b <==> step != 0.0 && exists k: int :: value == Multiple(k, step)
  {
    if step == 0.0 then false
    else
      var q := value / step;
      if q.Floor as real == q then
        assert value == Multiple(q.Floor, step);
        true
      else
        assert forall k: int :: value == Multiple(k, step) ==> q == k as real;
        false
  }

  /** `round_dp_with_strategy(0, …)` with the strategy each rounding mode selects. */
  function RoundWith(q: real, rounding: TickStepRounding): int
  {
    match rounding
    case Down => Trunc(q)
    case Up => Ceil(q)
    case Nearest => RoundHalfAway(q)
  }

  lemma MulLe(a: real, b: real, s: real)
    requires a <= b && s > 0.0
    ensures a * s <= b * s
  {
  }

  lemma MulLt(a: real, b: real, s: real)
    requires a < b && s > 0.0
    ensures a * s < b * s
  {
  }

  /**
   * quantize: the multiple of step that value rounds to.  For a non-negative
   * value and a positive step, Down gives the largest multiple not above the
   * value, Up the least multiple not below it, and Nearest one within half a
   * step.
   */
  function Quantize(value: Decimal, step: Decimal, rounding: TickStepRounding): (r: Decimal)
    requires step != 0.0
    ensures IsMultipleOf(r, step)
    ensures value >= 0.0 && step > 0.0 && rounding == Down ==> r <= value < r + step
    ensures value >= 0.0 && step > 0.0 && rounding == Up ==> r - step < value <= r
    ensures step > 0.0 && rounding == Nearest ==> r - step / 2.0 <= value <= r + step / 2.0
  {
    var qi := RoundWith(value / step, rounding);
    QuantizeBounds(value, step, rounding);
    assert IsMultipleOf(Multiple(qi, step), step);
    Multiple(qi, step)
  }

  lemma QuantizeBounds(value: Decimal, step: Decimal, rounding: TickStepRounding)
    requires step != 0.0
    ensures var r := Multiple(RoundWith(value / step, rounding), step);
      && (value >= 0.0 && step > 0.0 && rounding == Down ==> r <= value < r + step)
      && (value >= 0.0 && step > 0.0 && rounding == Up ==> r - step < value <= r)
      && (step > 0.0 && rounding == Nearest ==> r - step / 2.0 <= value <= r + step / 2.0)
  {
    if step > 0.0 {
      var q := value / step;
      if rounding == Down && value >= 0.0 {
        QuantizeDown(value, step);
      } else if rounding == Up {
        QuantizeUp(value, step);
      } else if rounding == Nearest {
        QuantizeNearest(value, step);
      }
    }
  }

  lemma QuantizeDown(value: Decimal, step: Decimal)
    requires value >= 0.0 && step > 0.0
    ensures Multiple(Trunc(value / step), step) <= value < Multiple(Trunc(value / step), step) + step
  {
    var q := value / step;
    assert value == q * step;
    if q < 0.0 {
      MulLt(q, 0.0, step);
    }
    var qi := Trunc(q) as real;
    assert Multiple(Trunc(q), step) == qi * step;
    assert qi <= q < qi + 1.0;
    MulLe(qi, q, step);
    MulLt(q, qi + 1.0, step);
    assert (qi + 1.0) * step == qi * step + step;
    assert value < qi * step + step;
  }

  lemma QuantizeUp(value: Decimal, step: Decimal)
    requires step > 0.0
    ensures Multiple(Ceil(value / step), step) - step < value <= Multiple(Ceil(value / step), step)
  {
    var q := value / step;
    assert value == q * step;
    var qi := Ceil(q) as real;
    assert qi - 1.0 < q <= qi;
    MulLe(q, qi, step);
    MulLt(qi - 1.0, q, step);
    assert (qi - 1.0) * step == qi * step - step;
  }

  lemma QuantizeNearest(value: Decimal, step: Decimal)
    requires step > 0.0
    ensures Multiple(RoundHalfAway(value / step), step) - step / 2.0 <= value
    ensures value <= Multiple(RoundHalfAway(value / step), step) + step / 2.0
  {
    assert (value / step) * step == value;
    NearestOfQuotient(value, value / step, step);
  }

  lemma NearestOfQuotient(value: Decimal, q: real, step: Decimal)
    requires step > 0.0 && q * step == value
    ensures Multiple(RoundHalfAway(q), step) - step / 2.0 <= value
    ensures value <= Multiple(RoundHalfAway(q), step) + step / 2.0
  {
    var k := RoundHalfAway(q);
    ScaleBand(value, q, k, step);
  }

  /** A quotient within half of k scales to a value within half a step of k steps. */
  lemma ScaleBand(value: Decimal, q: real, k: int, step: real)
    requires k as real - 0.5 <= q <= k as real + 0.5 && step > 0.0 && q * step == value
    ensures Multiple(k, step) - step / 2.0 <= value
    ensures value <= Multiple(k, step) + step / 2.0
  {
    MulLe(k as real - 0.5, q, step);
    MulLe(q, k as real + 0.5, step);
  }

  /** A value already on the grid is left where it is, whatever the rounding. */
  lemma QuantizeAligned(value: Decimal, step: Decimal, rounding: TickStepRounding)
    requires step != 0.0 && IsMultipleOf(value, step)
    ensures Quantize(value, step, rounding) == value
  {
    var k: int :| value == Multiple(k, step);
    assert value / step == k as real;
  }

  /** Quantizing twice is quantizing once. */
  lemma QuantizeIdempotent(value: Decimal, step: Decimal, rounding: TickStepRounding)
    requires step != 0.0
    ensures Quantize(Quantize(value, step, rounding), step, rounding) == Quantize(value, step, rounding)
  {
    QuantizeAligned(Quantize(value, step, rounding), step, rounding);
  }

  // ---------------------------------------------------------------------
  // validate_meta
  // ---------------------------------------------------------------------

  /** The rules validate_meta checks, all at once. */
  ghost predicate MetaValid(m: Meta)
  {
    && m.schemaVersion == SCHEMA_VERSION
    && m.tickSize > 0.0 && m.stepSize > 0.0
    && (m.minQty.Some? ==> m.minQty.value >= 0.0 && (m.minQty.value > 0.0 ==> IsMultipleOf(m.minQty.value, m.stepSize)))
    && (m.maxQty.Some? ==> m.maxQty.value >= 0.0 && (m.maxQty.value > 0.0 ==> IsMultipleOf(m.maxQty.value, m.stepSize)))
    && (m.minQty.Some? && m.maxQty.Some? ==> m.minQty.value <= m.maxQty.value)
    && (m.minNotional.Some? ==> m.minNotional.value >= 0.0)
    && (m.contractSize.Some? ==> m.contractSize.value > 0.0)
  }

  function CheckQtyLimit(q: Option<Decimal>, step: Decimal, negative: string, misaligned: string): (r: Result<(), MarketMetaError>)
    ensures r.Ok? <==> (q.Some? ==> q.value >= 0.0 && (q.value > 0.0 ==> IsMultipleOf(q.value, step)))
    ensures q.Some? && q.value < 0.0 ==> r == Err(InvalidMeta(negative))
    ensures q.Some? && q.value > 0.0 && !IsMultipleOf(q.value, step) ==> r == Err(InvalidMeta(misaligned))
  {
    if q.None? then Ok(())
    else if q.value < 0.0 then Err(InvalidMeta(negative))
    else if q.value > 0.0 && !IsMultipleOf(q.value, step) then Err(InvalidMeta(misaligned))
    else Ok(())
  }

  /**
   * validate_meta: the schema version, then a positive tick and step, then
   * the quantity limits, their order, the minimum notional and the contract
   * size; the first rule broken names the error.
   */
  function ValidateMeta(m: Meta): (r: Result<(), MarketMetaError>)
    ensures r.Ok? <==> MetaValid(m)
    ensures r.Err? ==> r.error.InvalidMeta?
    ensures m.schemaVersion != SCHEMA_VERSION ==> r == Err(InvalidMeta("schema_version_mismatch"))
    ensures m.schemaVersion == SCHEMA_VERSION && m.tickSize <= 0.0 ==> r == Err(InvalidMeta("tick_size_must_be_positive"))
    ensures m.schemaVersion == SCHEMA_VERSION && m.tickSize > 0.0 && m.stepSize <= 0.0 ==>
      r == Err(InvalidMeta("step_size_must_be_positive"))
  {
    if m.schemaVersion != SCHEMA_VERSION then Err(InvalidMeta("schema_version_mismatch"))
    else if m.tickSize <= 0.0 then Err(InvalidMeta("tick_size_must_be_positive"))
    else if m.stepSize <= 0.0 then Err(InvalidMeta("step_size_must_be_positive"))
    else
      var _ :- CheckQtyLimit(m.minQty, m.stepSize, "min_qty_must_be_non_negative", "min_qty_not_multiple_of_step");
      var _ :- CheckQtyLimit(m.maxQty, m.stepSize, "max_qty_must_be_non_negative", "max_qty_not_multiple_of_step");
      if m.minQty.Some? && m.maxQty.Some? && m.minQty.value > m.maxQty.value then
        Err(InvalidMeta("min_qty_greater_than_max_qty"))
      else if m.minNotional.Some? && m.minNotional.value < 0.0 then
        Err(InvalidMeta("min_notional_must_be_non_negative"))
      else if m.contractSize.Some? && m.contractSize.value <= 0.0 then
        Err(InvalidMeta("contract_size_must_be_positive_if_present"))
      else Ok(())
  }

  // ---------------------------------------------------------------------
  // Ticks and steps
  // ---------------------------------------------------------------------

  function EnsureNonNegative(v: Decimal, code: string): (r: Result<(), MarketMetaError>)
    ensures r.Ok? <==> v >= 0.0
    ensures r.Err? ==> r.error == InvalidValue(code)
  {
    if v < 0.0 then Err(InvalidValue(code)) else Ok(())
  }

  function EnsurePositive(v: Decimal, code: string): (r: Result<(), MarketMetaError>)
    ensures r.Ok? <==> v > 0.0
    ensures r.Err? ==> r.error == InvalidValue(code)
  {
    if v <= 0.0 then Err(InvalidValue(code)) else Ok(())
  }

  /** apply_tick: a valid market and a non-negative price, rounded onto the tick grid. */
  function ApplyTick(m: Meta, price: Decimal, rounding: TickStepRounding): (r: Result<Decimal, MarketMetaError>)
    ensures r.Ok? <==> MetaValid(m) && price >= 0.0
    ensures r.Ok? ==> r.value == Quantize(price, m.tickSize, rounding) && IsMultipleOf(r.value, m.tickSize)
    ensures MetaValid(m) && price < 0.0 ==> r == Err(InvalidValue("price_must_be_non_negative"))
  {
    var _ :- ValidateMeta(m);
    var _ :- EnsureNonNegative(price, "price_must_be_non_negative");
    Ok(Quantize(price, m.tickSize, rounding))
  }

  /** apply_step: a valid market and a non-negative quantity, rounded onto the step grid. */
  function ApplyStep(m: Meta, qty: Decimal, rounding: TickStepRounding): (r: Result<Decimal, MarketMetaError>)
    ensures r.Ok? <==> MetaValid(m) && qty >= 0.0
    ensures r.Ok? ==> r.value == Quantize(qty, m.stepSize, rounding) && IsMultipleOf(r.value, m.stepSize)
    ensures MetaValid(m) && qty < 0.0 ==> r == Err(InvalidValue("qty_must_be_non_negative"))
  {
    var _ :- ValidateMeta(m);
    var _ :- EnsureNonNegative(qty, "qty_must_be_non_negative");
    Ok(Quantize(qty, m.stepSize, rounding))
  }

  /**
   * apply_tick_for_side: a buyer's price rounds down and a seller's up, so
   * neither pays more or receives less than asked.
   */
  function ApplyTickForSide(m: Meta, price: Decimal, side: OrderSide): (r: Result<Decimal, MarketMetaError>)
    ensures r == ApplyTick(m, price, if side == Buy then Down else Up)
    ensures r.Ok? && side == Buy ==> r.value <= price < r.value + m.tickSize
    ensures r.Ok? && side == Sell ==> r.value - m.tickSize < price <= r.value
  {
    match side
    case Buy => ApplyTick(m, price, Down)
    case Sell => ApplyTick(m, price, Up)
  }

  /** apply_step_safe: quantities always round down, never above what was asked. */
  function ApplyStepSafe(m: Meta, qty: Decimal): (r: Result<Decimal, MarketMetaError>)
    ensures r == ApplyStep(m, qty, Down)
    ensures r.Ok? ==> r.value <= qty < r.value + m.stepSize
  {
    ApplyStep(m, qty, Down)
  }

  // ---------------------------------------------------------------------
  // Orders
  // ---------------------------------------------------------------------

  function Notional(m: Meta, price: Decimal, qty: Decimal): Decimal
  {
    price * qty * (if m.contractSize.Some? then m.contractSize.value else 1.0)
  }

  /** compute_notional: price × quantity × contract size (one when absent), for a valid market. */
  function ComputeNotional(m: Meta, price: Decimal, qty: Decimal): (r: Result<Decimal, MarketMetaError>)
    ensures r.Ok? <==> MetaValid(m) && price >= 0.0 && qty >= 0.0
    ensures r.Ok? ==> r.value == Notional(m, price, qty)
  {
    var _ :- ValidateMeta(m);
    var _ :- EnsureNonNegative(price, "price_must_be_non_negative");
    var _ :- EnsureNonNegative(qty, "qty_must_be_non_negative");
    Ok(Notional(m, price, qty))
  }

  /** check_min_notional: only a market with a minimum notional checks anything. */
  function CheckMinNotional(m: Meta, price: Decimal, qty: Decimal): (r: Result<(), MarketMetaError>)
    ensures m.minNotional.None? ==> r.Ok?
    ensures m.minNotional.Some? ==>
      (r.Ok? <==> ComputeNotional(m, price, qty).Ok? && Notional(m, price, qty) >= m.minNotional.value)
    ensures m.minNotional.Some? && ComputeNotional(m, price, qty).Ok? && Notional(m, price, qty) < m.minNotional.value ==>
      r == Err(Constraint("min_notional_not_satisfied"))
  {
    if m.minNotional.None? then Ok(())
    else
      var notional :- ComputeNotional(m, price, qty);
      if notional < m.minNotional.value then Err(Constraint("min_notional_not_satisfied")) else Ok(())
  }

  /** The rules an order must meet, all at once. */
  ghost predicate OrderValid(m: Meta, price: Decimal, qty: Decimal)
  {
    && MetaValid(m)
    && price > 0.0 && qty > 0.0
    && IsMultipleOf(price, m.tickSize) && IsMultipleOf(qty, m.stepSize)
    && (m.minQty.Some? ==> qty >= m.minQty.value)
    && (m.maxQty.Some? ==> qty <= m.maxQty.value)
    && (m.minNotional.Some? ==> Notional(m, price, qty) >= m.minNotional.value)
  }

  /**
   * validate_order: a valid market, a positive price and quantity on their
   * grids, within the quantity limits, and at least the minimum notional.
   */
  function ValidateOrder(m: Meta, price: Decimal, qty: Decimal): (r: Result<(), MarketMetaError>)
    ensures r.Ok? <==> OrderValid(m, price, qty)
    ensures MetaValid(m) && price > 0.0 && qty > 0.0 && !IsMultipleOf(price, m.tickSize) ==>
      r == Err(Constraint("price_not_tick_aligned"))
    ensures MetaValid(m) && price > 0.0 && qty > 0.0 && IsMultipleOf(price, m.tickSize) && !IsMultipleOf(qty, m.stepSize) ==>
      r == Err(Constraint("qty_not_step_aligned"))
  {
    var _ :- ValidateMeta(m);
    var _ :- EnsurePositive(price, "price_must_be_positive");
    var _ :- EnsurePositive(qty, "qty_must_be_positive");
    if !IsMultipleOf(price, m.tickSize) then Err(Constraint("price_not_tick_aligned"))
    else if !IsMultipleOf(qty, m.stepSize) then Err(Constraint("qty_not_step_aligned"))
    else if m.minQty.Some? && qty < m.minQty.value then Err(Constraint("qty_below_min_qty"))
    else if m.maxQty.Some? && qty > m.maxQty.value then Err(Constraint("qty_above_max_qty"))
    else CheckMinNotional(m, price, qty)
  }

  /**
   * normalize_order: the price rounded for the side, the quantity rounded
   * down, and the rounded order validated.
   */
  function NormalizeOrder(m: Meta, price: Decimal, qty: Decimal, side: OrderSide): (r: Result<(Decimal, Decimal), MarketMetaError>)
    ensures r.Ok? ==> ApplyTickForSide(m, price, side) == Ok(r.value.0) && ApplyStepSafe(m, qty) == Ok(r.value.1)
    ensures r.Ok? ==> OrderValid(m, r.value.0, r.value.1)
  {
    var p :- ApplyTickForSide(m, price, side);
    var q :- ApplyStepSafe(m, qty);
    var _ :- ValidateOrder(m, p, q);
    Ok((p, q))
  }

  /**
   * A normalized order validates unchanged and normalizes to itself: it is
   * on both grids, so rounding it again leaves it where it is.
   */
  lemma NormalizeOrderFixed(m: Meta, price: Decimal, qty: Decimal, side: OrderSide)
    requires NormalizeOrder(m, price, qty, side).Ok?
    ensures var (p, q) := NormalizeOrder(m, price, qty, side).value;
      ValidateOrder(m, p, q).Ok? && NormalizeOrder(m, p, q, side) == Ok((p, q))
  {
    var (p, q) := NormalizeOrder(m, price, qty, side).value;
    QuantizeAligned(p, m.tickSize, if side == Buy then Down else Up);
    QuantizeAligned(q, m.stepSize, Down);
  }

  // ---------------------------------------------------------------------
  // The source's tests
  // ---------------------------------------------------------------------

  /** The market of the tests: tick 1, step 0.0001, minimum quantity 0.0001, minimum notional 500. */
  function TestMarket(): Meta
  {
    NewMeta(MarketMetaId(Bitbank, Spot, "BTC/JPY"), 1.0, 0.0001).(minQty := Some(0.0001), minNotional := Some(500.0))
  }

  /** tick_step_quantize_works_and_is_deterministic. */
  lemma QuantizeExample()
    ensures ValidateMeta(TestMarket()).Ok?
    ensures ApplyTick(TestMarket(), 123.9, Down) == Ok(123.0)
    ensures ApplyTick(TestMarket(), 123.9, Up) == Ok(124.0)
    ensures ApplyTick(TestMarket(), 123.9, Nearest) == Ok(124.0)
    ensures ApplyStep(TestMarket(), 0.123456, Down) == Ok(0.1234)
    ensures ApplyStep(TestMarket(), 0.123456, Up) == Ok(0.1235)
  {
    var m := TestMarket();
    assert IsMultipleOf(0.0001, 0.0001) by { assert 0.0001 == Multiple(1, 0.0001); }
    assert (123.9 / 1.0).Floor == 123;
    assert (-123.9).Floor == -124;
    assert (123.9 + 0.5).Floor == 124;
    assert 0.123456 / 0.0001 == 1234.56;
    assert (1234.56).Floor == 1234;
    assert (-1234.56).Floor == -1235;
  }

  /** validate_order_rejects_misalignment_and_min_notional. */
  lemma OrderExamples()
    ensures ValidateOrder(TestMarket(), 10.5, 1.0) == Err(Constraint("price_not_tick_aligned"))
    ensures ValidateOrder(TestMarket(), 10.0, 0.00011) == Err(Constraint("qty_not_step_aligned"))
    ensures ValidateOrder(TestMarket(), 100.0, 0.0001) == Err(Constraint("min_notional_not_satisfied"))
    ensures NormalizeOrder(TestMarket(), 100.9, 0.00019, Buy).Err?
  {
    var m := TestMarket();
    assert ValidateMeta(m).Ok? by {
      assert 0.0001 == Multiple(1, 0.0001);
    }
    assert !IsMultipleOf(10.5, 1.0) by {
      assert (10.5 / 1.0).Floor as real != 10.5 / 1.0;
    }
    assert IsMultipleOf(1.0, 0.0001) by { assert 1.0 == Multiple(10000, 0.0001); }
    assert IsMultipleOf(10.0, 1.0) by { assert 10.0 == Multiple(10, 1.0); }
    assert !IsMultipleOf(0.00011, 0.0001) by {
      assert 0.00011 / 0.0001 == 1.1;
    }
    assert IsMultipleOf(100.0, 1.0) by { assert 100.0 == Multiple(100, 1.0); }
    assert Notional(m, 100.0, 0.0001) == 0.01;
    assert ApplyTickForSide(m, 100.9, Buy) == Ok(100.0) by {
      assert (100.9 / 1.0).Floor == 100;
    }
    assert ApplyStepSafe(m, 0.00019) == Ok(0.0001) by {
      assert 0.00019 / 0.0001 == 1.9;
      assert (1.9).Floor == 1;
    }
  }
}
