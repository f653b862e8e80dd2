/**
 * The quotation's money: the totals summary derived from a quotation
 * (`calculateTotals`), the rule that keeps the stored base amount equal to
 * the sum of the event costs, and the amount of a payment milestone.
 */
module Calculations {
  import opened Types

  /** The derived figures the editor, the summary panel and the printable preview show. */
  datatype CalculatedTotals = CalculatedTotals(
    packageAfterDiscount: real,
    gstAmount: real,
    grandTotal: real,
    totalPaid: real,
    balanceDue: real,
    totalEventCost: real)

  // ---------------------------------------------------------------------------
  // Sums
  // ---------------------------------------------------------------------------

  /** The sum of a sequence of amounts, added from the left as `reduce` does. */
  function Sum(xs: seq<real>): real {
    if |xs| == 0 then 0.0 else Sum(xs[..|xs| - 1]) + xs[|xs| - 1]
  }

  /** The sum of a concatenation is the sum of the parts. */
  lemma {:induction false} SumAppend(a: seq<real>, b: seq<real>)
    ensures Sum(a + b) == Sum(a) + Sum(b)
  {
    if |b| == 0 {
      assert a + b == a;
    } else {
      SumAppend(a, b[..|b| - 1]);
      assert (a + b)[..|a + b| - 1] == a + b[..|b| - 1];
    }
  }

  /** Amounts that are all non-negative have a non-negative sum. */
  lemma {:induction false} SumNonNegativeIf(xs: seq<real>)
    ensures (forall i :: 0 <= i < |xs| ==> xs[i] >= 0.0) ==> Sum(xs) >= 0.0
  {
    if |xs| > 0 {
      SumNonNegativeIf(xs[..|xs| - 1]);
    }
  }

  /** Each event's cost as the calculator reads it: a non-numeric cost counts as 0. */
  function EventCosts(events: seq<EventItem>): seq<real> {
    seq(|events|, i requires 0 <= i < |events| => OrZero(events[i].approxCost))
  }

  /** Each add-on's price as the calculator reads it: a non-numeric price counts as 0. */
  function AddOnPrices(addOns: seq<AddOn>): seq<real> {
    seq(|addOns|, i requires 0 <= i < |addOns| => OrZero(addOns[i].price))
  }

  /**
   * The total of the event costs; this is what drives the base amount. No
   * events total 0, and with no negative numeric cost the total is not negative.
   */
  function TotalEventCost(events: seq<EventItem>): (total: real)
    ensures |events| == 0 ==> total == 0.0
    ensures (forall i :: 0 <= i < |events| ==> OrZero(events[i].approxCost) >= 0.0) ==> total >= 0.0
  {
    SumNonNegativeIf(EventCosts(events));
    Sum(EventCosts(events))
  }

  /** The total of the add-on prices: 0 for none, and not negative when no numeric price is. */
  function TotalAddOns(addOns: seq<AddOn>): (total: real)
    ensures |addOns| == 0 ==> total == 0.0
    ensures (forall i :: 0 <= i < |addOns| ==> OrZero(addOns[i].price) >= 0.0) ==> total >= 0.0
  {
    SumNonNegativeIf(AddOnPrices(addOns));
    Sum(AddOnPrices(addOns))
  }

  /** Adding an event adds its coerced cost to the total; nothing else moves. */
  lemma EventCostAppend(events: seq<EventItem>, e: EventItem)
    ensures TotalEventCost(events + [e]) == TotalEventCost(events) + OrZero(e.approxCost)
  {
    assert EventCosts(events + [e]) == EventCosts(events) + [OrZero(e.approxCost)];
    SumAppend(EventCosts(events), [OrZero(e.approxCost)]);
  }

  /** The total of event costs splits over a concatenation of event lists. */
  lemma EventCostConcat(a: seq<EventItem>, b: seq<EventItem>)
    ensures TotalEventCost(a + b) == TotalEventCost(a) + TotalEventCost(b)
  {
    assert EventCosts(a + b) == EventCosts(a) + EventCosts(b);
    SumAppend(EventCosts(a), EventCosts(b));
  }

  /** Replacing one event moves the total by the difference of the two coerced costs. */
  lemma EventCostUpdate(events: seq<EventItem>, idx: nat, e: EventItem)
    requires idx < |events|
    ensures TotalEventCost(events[idx := e])
         == TotalEventCost(events) - OrZero(events[idx].approxCost) + OrZero(e.approxCost)
  {
    var c, x := EventCosts(events), OrZero(e.approxCost);
    assert c == c[..idx] + [c[idx]] + c[idx + 1..];
    assert EventCosts(events[idx := e]) == c[..idx] + [x] + c[idx + 1..];
    SumAppend(c[..idx] + [c[idx]], c[idx + 1..]);
    SumAppend(c[..idx], [c[idx]]);
    SumAppend(c[..idx] + [x], c[idx + 1..]);
    SumAppend(c[..idx], [x]);
  }

  // ---------------------------------------------------------------------------
  // Payments received
  // ---------------------------------------------------------------------------

  /** `paymentMilestones.filter(m => m.isPaid)`. */
  function PaidMilestones(ms: seq<PaymentMilestone>): (r: seq<PaymentMilestone>)
    ensures |r| <= |ms|
    ensures forall i :: 0 <= i < |r| ==> r[i].isPaid && r[i] in ms
    ensures forall i :: 0 <= i < |ms| && ms[i].isPaid ==> ms[i] in r
  {
    if |ms| == 0 then []
    else
      var last := ms[|ms| - 1];
      PaidMilestones(ms[..|ms| - 1]) + (if last.isPaid then [last] else [])
  }

  function Amounts(ms: seq<PaymentMilestone>): seq<real> {
    seq(|ms|, i requires 0 <= i < |ms| => ms[i].amount)
  }

  /** Reference definition: every milestone contributes its amount when paid and 0 otherwise. */
  function PaidContributions(ms: seq<PaymentMilestone>): seq<real> {
    seq(|ms|, i requires 0 <= i < |ms| => if ms[i].isPaid then ms[i].amount else 0.0)
  }

  /** The filtered sum equals the reference sum in which unpaid milestones contribute 0. */
  lemma {:induction false} PaidFilterSum(ms: seq<PaymentMilestone>)
    ensures Sum(Amounts(PaidMilestones(ms))) == Sum(PaidContributions(ms))
  {
    if |ms| > 0 {
      var init, last := ms[..|ms| - 1], ms[|ms| - 1];
      PaidFilterSum(init);
      var tail := if last.isPaid then [last] else [];
      assert Amounts(PaidMilestones(init) + tail) == Amounts(PaidMilestones(init)) + Amounts(tail);
      SumAppend(Amounts(PaidMilestones(init)), Amounts(tail));
      assert PaidContributions(ms)[..|ms| - 1] == PaidContributions(init);
    }
  }

  /**
   * The total received: the amounts of the paid milestones, with no coercion
   * of `amount`. It is the sum in which each milestone contributes its
   * amount when paid and 0 otherwise.
   */
  function TotalPaid(ms: seq<PaymentMilestone>): (total: real)
    ensures total == Sum(PaidContributions(ms))
  {
    PaidFilterSum(ms);
    Sum(Amounts(PaidMilestones(ms)))
  }

  /**
   * Unpaid milestones never affect the total received: two schedules that
   * agree on which milestones are paid and on the amounts of the paid ones
   * have the same total, whatever their unpaid milestones hold.
   */
  lemma UnpaidMilestonesDoNotCount(ms: seq<PaymentMilestone>, ms': seq<PaymentMilestone>)
    requires |ms| == |ms'|
    requires forall i :: 0 <= i < |ms| ==> ms[i].isPaid == ms'[i].isPaid
    requires forall i :: 0 <= i < |ms| && ms[i].isPaid ==> ms[i].amount == ms'[i].amount
    ensures TotalPaid(ms) == TotalPaid(ms')
  {
    assert PaidContributions(ms) == PaidContributions(ms');
  }

  /** Inserting an unpaid milestone anywhere leaves the total received unchanged. */
  lemma InsertUnpaidMilestone(ms: seq<PaymentMilestone>, k: nat, m: PaymentMilestone)
    requires k <= |ms| && !m.isPaid
    ensures TotalPaid(ms[..k] + [m] + ms[k..]) == TotalPaid(ms)
  {
    var ms' := ms[..k] + [m] + ms[k..];
    assert PaidContributions(ms') == PaidContributions(ms[..k]) + [0.0] + PaidContributions(ms[k..]);
    assert PaidContributions(ms) == PaidContributions(ms[..k]) + PaidContributions(ms[k..]);
    SumAppend(PaidContributions(ms[..k]) + [0.0], PaidContributions(ms[k..]));
    SumAppend(PaidContributions(ms[..k]), [0.0]);
    SumAppend(PaidContributions(ms[..k]), PaidContributions(ms[k..]));
  }

  // ---------------------------------------------------------------------------
  // The totals calculator
  // ---------------------------------------------------------------------------

  /**
   * `calculateTotals`: the package after discount is built from the STORED
   * base amount (not from the event costs), GST is charged on it plus the
   * add-ons, and nothing is clamped at zero.
   */
  function CalculateTotals(q: QuotationData): (t: CalculatedTotals)
    ensures t.totalEventCost == TotalEventCost(q.events)
    ensures t.packageAfterDiscount == q.financials.baseAmount - q.financials.discount
    ensures t.grandTotal
         == (q.financials.baseAmount - q.financials.discount + TotalAddOns(q.addOns))
            * (1.0 + q.financials.gstRate / 100.0)
    ensures t.grandTotal == t.packageAfterDiscount + TotalAddOns(q.addOns) + t.gstAmount
    ensures t.totalPaid == TotalPaid(q.financials.paymentMilestones)
    ensures t.balanceDue + t.totalPaid == t.grandTotal
  {
    var totalEventCost := TotalEventCost(q.events);
    var totalAddOns := TotalAddOns(q.addOns);
    var packageAfterDiscount := q.financials.baseAmount - q.financials.discount;
    var taxableAmount := packageAfterDiscount + totalAddOns;
    var gstAmount := (taxableAmount * q.financials.gstRate) / 100.0;
    var grandTotal := taxableAmount + gstAmount;
    var totalPaid := TotalPaid(q.financials.paymentMilestones);
    var balanceDue := grandTotal - totalPaid;
    CalculatedTotals(packageAfterDiscount, gstAmount, grandTotal, totalPaid, balanceDue, totalEventCost)
  }

  /**
   * A discount larger than the base amount plus the add-ons gives a negative
   * grand total (no clamping), and the balance due is then below minus the
   * amount received.
   */
  lemma ExcessDiscountIsNotClamped(q: QuotationData)
    requires q.financials.discount > q.financials.baseAmount + TotalAddOns(q.addOns)
    requires q.financials.gstRate > -100.0
    ensures CalculateTotals(q).grandTotal < 0.0
    ensures CalculateTotals(q).balanceDue < -CalculateTotals(q).totalPaid
  {
    var t := CalculateTotals(q);
    var taxable := q.financials.baseAmount - q.financials.discount + TotalAddOns(q.addOns);
    var factor := 1.0 + q.financials.gstRate / 100.0;
    assert taxable < 0.0 && factor > 0.0;
    assert t.grandTotal == taxable * factor;
  }

  /** The grand total and balance are independent of the event list: they read the stored base amount. */
  lemma GrandTotalReadsStoredBase(q: QuotationData, events: seq<EventItem>)
    ensures CalculateTotals(q.(events := events)).grandTotal == CalculateTotals(q).grandTotal
    ensures CalculateTotals(q.(events := events)).balanceDue == CalculateTotals(q).balanceDue
  {
  }

  /**
   * The payment schedule only enters the totals through the amount received:
   * replacing it leaves everything but `totalPaid` and `balanceDue` as it was.
   */
  lemma TotalsIgnoreSchedule(q: QuotationData, ms: seq<PaymentMilestone>)
    ensures var t, t' := CalculateTotals(q), CalculateTotals(q.(financials := q.financials.(paymentMilestones := ms)));
      && t'.grandTotal == t.grandTotal && t'.gstAmount == t.gstAmount
      && t'.packageAfterDiscount == t.packageAfterDiscount && t'.totalEventCost == t.totalEventCost
      && t'.totalPaid == TotalPaid(ms)
  {
    var q' := q.(financials := q.financials.(paymentMilestones := ms));
    assert q'.financials.baseAmount == q.financials.baseAmount;
    assert q'.financials.discount == q.financials.discount;
    assert q'.financials.gstRate == q.financials.gstRate;
    assert q'.addOns == q.addOns && q'.events == q.events;
  }

  // ---------------------------------------------------------------------------
  // Base-amount synchronisation
  // ---------------------------------------------------------------------------

  /** The stored base amount agrees with the event costs. */
  predicate BaseSynced(q: QuotationData) {
    q.financials.baseAmount == TotalEventCost(q.events)
  }

  /**
   * The base-amount rule: write the total of the event costs into
   * `financials.baseAmount` when it differs from the stored value.
   */
  function SyncedBase(q: QuotationData): (r: QuotationData)
    ensures BaseSynced(r)
    ensures r.client == q.client && r.events == q.events && r.addOns == q.addOns && r.meta == q.meta
    ensures r.financials == q.financials.(baseAmount := r.financials.baseAmount)
    ensures BaseSynced(q) ==> r == q
  {
    var totalEventCost := TotalEventCost(q.events);
    if totalEventCost != q.financials.baseAmount then
      q.(financials := q.financials.(baseAmount := totalEventCost))
    else
      q
  }

  /** Synchronising twice is synchronising once. */
  lemma SyncIdempotent(q: QuotationData)
    ensures SyncedBase(SyncedBase(q)) == SyncedBase(q)
  {
  }

  /** Once synchronised, the package after discount is the event total minus the discount. */
  lemma SyncedPackagePrice(q: QuotationData)
    ensures CalculateTotals(SyncedBase(q)).packageAfterDiscount
         == TotalEventCost(q.events) - q.financials.discount
    ensures CalculateTotals(SyncedBase(q)).totalEventCost == SyncedBase(q).financials.baseAmount
  {
  }

  // ---------------------------------------------------------------------------
  // Payment milestones
  // ---------------------------------------------------------------------------

  /**
   * The amount a milestone gets when its value is edited: that percentage of
   * the grand total, or the value itself for a fixed milestone.
   */
  function MilestoneAmount(kind: MilestoneKind, value: real, grandTotal: real): (amount: real)
    ensures kind == Percentage ==> amount * 100.0 == grandTotal * value
    ensures kind == Fixed ==> amount == value
  {
    if kind == Percentage then (grandTotal * value) / 100.0 else value
  }

  /** The values of a list of milestones. */
  function Values(ms: seq<PaymentMilestone>): seq<real> {
    seq(|ms|, i requires 0 <= i < |ms| => ms[i].value)
  }

  /** Every milestone is a percentage milestone whose amount was computed against `grandTotal`. */
  predicate AllPercentOf(ms: seq<PaymentMilestone>, grandTotal: real) {
    forall i :: 0 <= i < |ms| ==>
      ms[i].kind == Percentage && ms[i].amount == MilestoneAmount(Percentage, ms[i].value, grandTotal)
  }

  /**
   * Percentage milestones all computed against the same grand total have
   * amounts adding up to that share of it; with percentages summing to 100
   * the schedule covers the grand total exactly.
   */
  lemma {:induction false} PercentScheduleCoversTotal(ms: seq<PaymentMilestone>, grandTotal: real)
    requires AllPercentOf(ms, grandTotal)
    ensures Sum(Amounts(ms)) * 100.0 == grandTotal * Sum(Values(ms))
  {
    if |ms| > 0 {
      var init := ms[..|ms| - 1];
      PercentScheduleCoversTotal(init, grandTotal);
      assert Amounts(ms)[..|ms| - 1] == Amounts(init);
      assert Values(ms)[..|ms| - 1] == Values(init);
    }
  }
}
