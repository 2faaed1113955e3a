/** The three ways to pay that a quote offers (`checkout-quote.service.ts`, `computeCheckoutQuote`), in minor units.
    Rules are taken as parsed: amounts are natural numbers. */
module CheckoutQuote {
  import opened Base

  const BPS := 10_000

  datatype Bounds = Bounds(min: Option<nat>, max: Option<nat>, waiveAbove: Option<nat>)

  datatype Charge = Flat(value: nat, bounds: Bounds) | Percent(bps: nat, bounds: Bounds)

  datatype Rules = Rules(
    codEnabled: bool, codMin: nat, codMax: Option<nat>, codFee: Charge, blockedPincodes: set<string>,
    partialEnabled: bool, partialMin: nat, advance: Charge, waiveCodFee: bool,
    prepaidDiscount: Charge,
    riskyPincodes: set<string>, forceAdvance: bool)

  datatype Item = Item(quantity: nat, price: nat)

  datatype PayOption = PayOption(available: bool, payNow: nat, payOnDelivery: nat, codFee: nat, discount: nat,
      total: nat)

  datatype Mode = Prepaid | PartialCod | FullCod

  datatype Options = Options(prepaid: PayOption, partialCod: PayOption, fullCod: PayOption)

  function OptionFor(options: Options, mode: Mode): PayOption {
    match mode
    case Prepaid => options.prepaid
    case PartialCod => options.partialCod
    case FullCod => options.fullCod
  }

  /** First up to the minimum, then down to the maximum: the maximum wins. */
  function Clamp(value: nat, min: Option<nat>, max: Option<nat>): (r: nat)
    ensures max.Some? ==> r <= max.value
    ensures min.Some? && (max.None? || min.value <= max.value) ==> r >= min.value
    ensures (min.Some? ==> min.value <= value) && (max.Some? ==> value <= max.value) ==> r == value
  {
    var raised := if min.Some? && value < min.value then min.value else value;
    if max.Some? && raised > max.value then max.value else raised
  }

  function CalculateCharge(rule: Charge, base: nat): Result<nat> {
    match rule
    case Flat(value, b) => Ok(Clamp(value, b.min, b.max))
    case Percent(bps, b) =>
      if bps > BPS then Err(HttpError(400, "INVALID_BPS")) else Ok(Clamp(base * bps / BPS, b.min, b.max))
  }

  function ItemsTotal(items: seq<Item>): nat {
    if items == [] then 0 else ItemsTotal(items[..|items| - 1]) + items[|items| - 1].quantity * items[|items| - 1].price
  }

  function Compute(items: seq<Item>, pincode: string, rules: Rules): Result<Options> {
    var total := ItemsTotal(items);
    var discount := if total > 0 then CalculateCharge(rules.prepaidDiscount, total) else Ok(0);
    var fee := CalculateCharge(rules.codFee, total);
    var advance := CalculateCharge(rules.advance, total);
    if discount.Err? then Err(discount.error)
    else if fee.Err? then Err(fee.error)
    else if advance.Err? then Err(advance.error)
    else
      var prepaidDiscount := Clamp(discount.value, None, Some(total));
      var waive := rules.codFee.bounds.waiveAbove;
      var codFee := if waive.Some? && total >= waive.value then 0 else fee.value;
      var codOpen :=
        && total > 0 && rules.codEnabled && total >= rules.codMin
        && (rules.codMax.Some? ==> total <= rules.codMax.value)
        && pincode !in rules.blockedPincodes;
      var payFirst := Clamp(advance.value, None, Some(total));
      var partialFee := if rules.waiveCodFee then 0 else codFee;
      Ok(Options(
        PayOption(total > 0, total - prepaidDiscount, 0, 0, prepaidDiscount, total - prepaidDiscount),
        PayOption(codOpen && rules.partialEnabled && total >= rules.partialMin,
                  payFirst, total - payFirst + partialFee, partialFee, 0, total + partialFee),
        PayOption(codOpen && !(pincode in rules.riskyPincodes && rules.forceAdvance),
                  0, total + codFee, codFee, 0, total + codFee)))
  }

  /** What an option must satisfy for an order made from it to balance: it is split into now and on delivery, and
      full cash on delivery asks for nothing now. */
  predicate Sound(mode: Mode, o: PayOption) {
    o.total == o.payNow + o.payOnDelivery && (mode == FullCod ==> o.payNow == 0)
  }

  /** Every option of every quote is split exactly, charges the items plus its fee less its discount, never
      discounts below zero or asks for more than the items in advance, and collects nothing where its mode does not. */
  lemma QuoteSplitsExactly(items: seq<Item>, pincode: string, rules: Rules, mode: Mode)
    requires Compute(items, pincode, rules).Ok?
    ensures var o, t := OptionFor(Compute(items, pincode, rules).value, mode), ItemsTotal(items);
      && Sound(mode, o)
      && o.total == t + o.codFee - o.discount
      && o.payNow <= t
      && (mode == Prepaid ==> o.payOnDelivery == 0 && o.codFee == 0 && o.total <= t)
      && (mode != Prepaid ==> o.discount == 0 && o.total >= t)
      && (o.available ==> t > 0)
  {
  }

  /** Quoting fails exactly when a percentage that is used exceeds the whole (the discount's is not read for an empty
      cart); and partial COD is never dearer than full COD. */
  lemma QuoteFailsIffBps(items: seq<Item>, pincode: string, rules: Rules)
    ensures Compute(items, pincode, rules).Err? <==>
      || (ItemsTotal(items) > 0 && rules.prepaidDiscount.Percent? && rules.prepaidDiscount.bps > BPS)
      || (rules.codFee.Percent? && rules.codFee.bps > BPS)
      || (rules.advance.Percent? && rules.advance.bps > BPS)
    ensures var quote := Compute(items, pincode, rules); quote.Err? ==> quote.error == HttpError(400, "INVALID_BPS")
    ensures Compute(items, pincode, rules).Ok? ==>
      var o := Compute(items, pincode, rules).value; o.partialCod.total <= o.fullCod.total
  {
  }

  // ---- the rules a quote follows

  /** `raw` is what a rule charges on an amount before its bounds: its value, or the whole minor units of its
      percentage. */
  predicate Raw(rule: Charge, base: nat, raw: nat) {
    match rule
    case Flat(value, _) => raw == value
    case Percent(bps, _) => raw * 10_000 <= base * bps < (raw + 1) * 10_000
  }

  /** `c` is the charge on the amount: raised to the minimum, then lowered to the maximum. */
  ghost predicate Charges(rule: Charge, base: nat, c: nat) {
    exists raw: nat :: Raw(rule, base, raw) && c == Lowered(rule.bounds.max, Raised(rule.bounds.min, raw))
  }

  function Raised(min: Option<nat>, raw: nat): nat { if min == None then raw else Max(min.value, raw) }

  function Lowered(max: Option<nat>, raised: nat): nat { if max == None then raised else Min(max.value, raised) }

  lemma CalculatedCharges(rule: Charge, base: nat)
    requires CalculateCharge(rule, base).Ok?
    ensures Charges(rule, base, CalculateCharge(rule, base).value)
  {
    var raw: nat := if rule.Flat? then rule.value else base * rule.bps / 10_000;
    assert Raw(rule, base, raw);
  }

  /** The amounts of a quote: the discount, the fee and the advance are what their rules charge on the items;
      discount and advance never exceed the items, the fee is waived from the cart value that waives it, and for
      partial COD if that is the rule. */
  lemma QuoteFollowsRules(items: seq<Item>, pincode: string, rules: Rules)
    returns (discount: nat, fee: nat, advance: nat)
    requires Compute(items, pincode, rules).Ok?
    ensures var o, t := Compute(items, pincode, rules).value, ItemsTotal(items);
      && (t > 0 ==> Charges(rules.prepaidDiscount, t, discount))
      && Charges(rules.codFee, t, fee) && Charges(rules.advance, t, advance)
      && o.prepaid.discount == (if t > 0 then Min(discount, t) else 0)
      && o.prepaid.payNow == o.prepaid.total == t - o.prepaid.discount
      && o.fullCod.codFee ==
           (if rules.codFee.bounds.waiveAbove.Some? && rules.codFee.bounds.waiveAbove.value <= t then 0 else fee)
      && o.fullCod.payNow == 0 && o.fullCod.payOnDelivery == t + o.fullCod.codFee
      && o.partialCod.codFee == (if rules.waiveCodFee then 0 else o.fullCod.codFee)
      && o.partialCod.payNow == Min(advance, t)
      && o.partialCod.payOnDelivery == t - o.partialCod.payNow + o.partialCod.codFee
  {
    var t := ItemsTotal(items);
    discount, fee, advance := 0, CalculateCharge(rules.codFee, t).value, CalculateCharge(rules.advance, t).value;
    CalculatedCharges(rules.codFee, t);
    CalculatedCharges(rules.advance, t);
    if t > 0 {
      discount := CalculateCharge(rules.prepaidDiscount, t).value;
      CalculatedCharges(rules.prepaidDiscount, t);
    }
  }

  /** The shop serves cash on delivery for the cart and the place. */
  predicate CodServed(total: nat, pincode: string, rules: Rules) {
    && rules.codEnabled && rules.codMin <= total && (rules.codMax == None || total <= rules.codMax.value)
    && pincode !in rules.blockedPincodes
  }

  /** Which modes a quote offers: any for a cart that is not empty; cash on delivery where it is served, in full
      unless the place is risky and an advance is forced, and in part if that is enabled and the cart is large
      enough. */
  lemma ModesAreOfferedIff(items: seq<Item>, pincode: string, rules: Rules)
    requires Compute(items, pincode, rules).Ok?
    ensures var o, t := Compute(items, pincode, rules).value, ItemsTotal(items);
      && (o.prepaid.available <==> t > 0)
      && (o.fullCod.available <==>
            && t > 0 && CodServed(t, pincode, rules)
            && (pincode in rules.riskyPincodes ==> !rules.forceAdvance))
      && (o.partialCod.available <==>
            && t > 0 && CodServed(t, pincode, rules)
            && rules.partialEnabled && rules.partialMin <= t)
  {
  }

  /** A cart is worth what its parts are worth, and an item its price as often as it is taken. */
  lemma {:induction false} CartAddsUp(a: seq<Item>, b: seq<Item>, item: Item)
    ensures ItemsTotal(a + b) == ItemsTotal(a) + ItemsTotal(b)
    ensures ItemsTotal([item]) == item.quantity * item.price && ItemsTotal([]) == 0
    decreases |b|
  {
    assert [item][..0] == [];
    if b == [] {
      assert a + b == a;
    } else {
      var whole := a + b;
      CartAddsUp(a, b[..|b| - 1], item);
      assert whole[..|whole| - 1] == a + b[..|b| - 1] && whole[|whole| - 1] == b[|b| - 1];
    }
  }
}
