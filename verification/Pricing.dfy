/** packages/core/src/pricing.ts. */
module Pricing {
  import opened Schema
  import opened Money

  datatype Breakdown = Breakdown(unitPriceCents: nat, subtotalCents: nat, promoDiscountCents: nat, totalCents: nat)

  predicate PromoApplies(promo: Promo, planId: Id, now: int) {
    && promo.isActive
    && (promo.expiresAt.Some? ==> promo.expiresAt.value >= now)
    && (promo.maxUses.Some? ==> promo.usedCount < promo.maxUses.value)
    && (promo.plan.Some? ==> promo.plan.value == planId)
    && (promo.kind.Percent? ==> 0 <= promo.value <= 100)
    && (promo.kind.Fixed? ==> promo.value >= 0)
  }

  function Discounted(cents: nat, promo: Promo): (r: nat)
    requires promo.kind.Percent? ==> 0 <= promo.value <= 100
    requires promo.kind.Fixed? ==> promo.value >= 0
    ensures r <= cents
  {
    match promo.kind
    case Percent => PercentDiscountWithinHalfCent(cents, promo.value); ApplyPercentDiscount(cents, promo.value).value
    case Fixed => ApplyFixedDiscount(cents, promo.value).value
  }

  function ComputeOrderTotal(plan: Plan, planId: Id, qty: int, promo: Option<Promo>, now: int): Result<Breakdown> {
    if qty < 1 then Err(OutOfRange)
    else
      var unit :- if plan.discountPercent > 0 then ApplyPercentDiscount(plan.priceCents, plan.discountPercent)
                  else Ok(plan.priceCents);
      var subtotal :- MultiplyCents(unit, qty);
      match promo
      case None => Ok(Breakdown(unit, subtotal, 0, subtotal))
      case Some(p) =>
        if !PromoApplies(p, planId, now) then Err(PromoInvalid)
        else
          var discount := subtotal - Discounted(subtotal, p);
          Ok(Breakdown(unit, subtotal, discount, if subtotal - discount > 0 then subtotal - discount else 0))
  }

  /** `cents` is this many hundredths of a cent, rounded to the nearest cent. */
  predicate IsNearest(cents: int, hundredths: int) {
    -50 <= 100 * cents - hundredths < 50
  }

  /** The plan's own discount, if it has one. */
  function OwnPercent(plan: Plan): int {
    if plan.discountPercent > 0 then plan.discountPercent else 0
  }

  /** Why an order cannot be priced: by its plan and quantity, and only then by its promo, which is good while
      it is active, not past its date, not used up, for this plan or any, and of a value that makes sense.
      `unit` is the plan's price less the plan's own discount, to the nearest cent. */
  lemma OrderTotalIff(plan: Plan, planId: Id, qty: int, promo: Option<Promo>, now: int, unit: int)
    requires IsNearest(unit, plan.priceCents * (100 - OwnPercent(plan)))
    ensures var r := ComputeOrderTotal(plan, planId, qty, promo, now);
            var priced := qty >= 1 && plan.priceCents >= 0 && plan.discountPercent <= 100 && unit * qty <= MAX_SAFE_INTEGER;
            && (r == Err(OutOfRange) <==> !priced)
            && (r == Err(PromoInvalid) <==>
                  && priced && promo.Some?
                  && var p := promo.value;
                     || !p.isActive || (p.expiresAt.Some? && p.expiresAt.value < now)
                     || (p.maxUses.Some? && p.usedCount >= p.maxUses.value) || (p.plan.Some? && p.plan.value != planId)
                     || p.value < 0 || (p.kind.Percent? && p.value > 100))
            && (r.Err? ==> r.error.OutOfRange? || r.error.PromoInvalid?)
            && (r.Ok? ==> r.value.unitPriceCents == unit)
  {
    hide RoundHalfUpDiv, Discounted;
    if plan.discountPercent <= 0 {
    } else if plan.discountPercent <= 100 && plan.priceCents >= 0 {
      PercentDiscountWithinHalfCent(plan.priceCents, plan.discountPercent);
      assert ApplyPercentDiscount(plan.priceCents, plan.discountPercent) == Ok(unit);
    }
  }

  /** A computed order is priced between nothing and its subtotal, the parts add up, the unit price is the
      plan's less its own discount and a percent promo takes its percentage, each exact to half a cent. */
  lemma OrderTotalBounds(plan: Plan, planId: Id, qty: int, promo: Option<Promo>, now: int)
    requires ComputeOrderTotal(plan, planId, qty, promo, now).Ok?
    ensures var b := ComputeOrderTotal(plan, planId, qty, promo, now).value;
            && 0 <= b.totalCents <= b.subtotalCents <= MAX_SAFE_INTEGER
            && b.totalCents == b.subtotalCents - b.promoDiscountCents
            && 0 <= b.unitPriceCents <= plan.priceCents
            && IsNearest(b.unitPriceCents, plan.priceCents * (100 - OwnPercent(plan)))
            && b.subtotalCents == b.unitPriceCents * qty
            && (promo.None? ==> b.promoDiscountCents == 0)
            && (promo.Some? && promo.value.kind.Percent? ==> IsNearest(b.totalCents, b.subtotalCents * (100 - promo.value.value)))
            && (promo.Some? && promo.value.kind.Fixed? ==>
                  b.promoDiscountCents == if promo.value.value < b.subtotalCents then promo.value.value else b.subtotalCents)
  {
    var b := ComputeOrderTotal(plan, planId, qty, promo, now).value;
    if plan.discountPercent > 0 {
      PercentDiscountWithinHalfCent(plan.priceCents, plan.discountPercent);
    }
    if promo.Some? && promo.value.kind.Percent? {
      PercentDiscountWithinHalfCent(b.subtotalCents, promo.value.value);
    }
  }

  /** Dearer plan, more units or a smaller discount never lower the price asked without a promo. */
  lemma OrderTotalMonotone(plan: Plan, plan': Plan, planId: Id, qty: int, qty': int, now: int)
    requires plan.priceCents <= plan'.priceCents && plan.discountPercent >= plan'.discountPercent >= 0 && qty <= qty'
    requires ComputeOrderTotal(plan, planId, qty, None, now).Ok?
    requires ComputeOrderTotal(plan', planId, qty', None, now).Ok?
    ensures ComputeOrderTotal(plan, planId, qty, None, now).value.totalCents
         <= ComputeOrderTotal(plan', planId, qty', None, now).value.totalCents
  {
    hide RoundHalfUpDiv;
    var unit := ComputeOrderTotal(plan, planId, qty, None, now).value.unitPriceCents;
    var unit' := ComputeOrderTotal(plan', planId, qty', None, now).value.unitPriceCents;
    if plan.discountPercent > 0 {
      PercentDiscountMonotone(plan.priceCents, plan'.priceCents, plan.discountPercent, plan'.discountPercent);
      PercentDiscountWithinHalfCent(plan'.priceCents, plan'.discountPercent);
    }
    ProductMonotone(unit, unit', qty, qty');
  }

  lemma ProductMonotone(a: nat, b: nat, n: nat, m: nat)
    requires a <= b && n <= m
    ensures a * n <= b * m
  {
    assert b * m - a * n == (b - a) * m + a * (m - n);
  }
}
