/**
 * The billing engine of the calculator: validation of the meter readings, the two-slab
 * NESCO tariff, the blended average rate and the split of a bill between the owner
 * (main meter minus sub meter) and the tenant (sub meter).
 *
 * Every quantity is an exact `real`; the form inputs reach the engine already parsed.
 */
module Billing {

  /** One meter and one payer, or a main meter with a tenant's sub meter. */
  datatype Mode = Single | Dual

  /** The parsed form values the engine reads. */
  datatype BillInputs = BillInputs(
    mode: Mode,
    mainPrev: real, mainCurr: real,
    subPrev: real, subCurr: real,
    demandCharge: real, vatRate: real)

  /** Every figure the calculator shows for one computation. */
  datatype BillResult = BillResult(
    totalUnits: real,
    subUnits: real,
    ownUnits: real,
    averageRate: real,
    subTotalBill: real,
    ownTotalBill: real,
    subEnergyCost: real,
    ownEnergyCost: real,
    halfDemand: real,
    halfVat: real,
    totalEnergyCost: real)

  /** The three "Invalid Reading" notifications, in the order they are checked. */
  datatype BillError = MainReadingDecreased | SubReadingDecreased | SubExceedsMain

  /** A computed bill or the first validation failure. */
  datatype Outcome = Computed(bill: BillResult) | Rejected(error: BillError)

  /** Units billed at the first slab rate. */
  const FirstSlabUnits: real := 75.0
  /** Price per unit of the first 75 units. */
  const FirstSlabRate: real := 5.26
  /** Price per unit of every unit beyond the first 75. */
  const SecondSlabRate: real := 7.20

  /** Progressive energy cost: the first slab at its rate, the rest at the second rate. */
  function EnergyCost(units: real): (c: real)
    ensures 0.0 <= units ==> FirstSlabRate * units <= c <= SecondSlabRate * units
  {
    if units <= FirstSlabUnits then units * FirstSlabRate
    else FirstSlabUnits * FirstSlabRate + (units - FirstSlabUnits) * SecondSlabRate
  }

  /** Blended price per unit; zero consumption gives a zero rate instead of a division. */
  function AverageRate(units: real, cost: real): (r: real)
    ensures units > 0.0 ==> r * units == cost
    ensures units <= 0.0 ==> r == 0.0
  {
    if units > 0.0 then cost / units else 0.0
  }

  /** VAT charged on the energy cost plus the demand charge, at a percentage rate. */
  function VatAmount(energyCost: real, demandCharge: real, vatRate: real): real
  {
    (energyCost + demandCharge) * vatRate / 100.0
  }

  /** The figures of a bill whose readings have passed validation. */
  function Bill(mode: Mode, totalUnits: real, subUnits: real, demandCharge: real, vatRate: real): BillResult
  {
    var totalEnergyCost := EnergyCost(totalUnits);
    var averageRate := AverageRate(totalUnits, totalEnergyCost);
    var ownUnits := totalUnits - subUnits;
    var vat := VatAmount(totalEnergyCost, demandCharge, vatRate);
    var halfDemand := if mode == Single then demandCharge else demandCharge / 2.0;
    var halfVat := if mode == Single then vat else vat / 2.0;
    BillResult(
      totalUnits, subUnits, ownUnits, averageRate,
      if mode == Single then 0.0 else subUnits * averageRate + halfDemand + halfVat,
      if mode == Single then totalEnergyCost + demandCharge + vat
      else ownUnits * averageRate + halfDemand + halfVat,
      subUnits * averageRate, ownUnits * averageRate,
      halfDemand, halfVat, totalEnergyCost)
  }

  /**
   * The engine: validation in a fixed order (main meter, sub meter, sub not above main),
   * the first failure winning, then the bill.
   */
  function ComputeBill(inputs: BillInputs): (o: Outcome)
    ensures o == Rejected(MainReadingDecreased) <==> inputs.mainCurr < inputs.mainPrev
    ensures o == Rejected(SubReadingDecreased) <==>
      inputs.mainPrev <= inputs.mainCurr && inputs.mode == Dual && inputs.subCurr < inputs.subPrev
    ensures o == Rejected(SubExceedsMain) <==>
      inputs.mainPrev <= inputs.mainCurr && inputs.mode == Dual && inputs.subPrev <= inputs.subCurr &&
      inputs.subCurr - inputs.subPrev > inputs.mainCurr - inputs.mainPrev
    ensures o.Computed? ==> o.bill.totalUnits == inputs.mainCurr - inputs.mainPrev
    ensures o.Computed? ==> o.bill.totalEnergyCost == EnergyCost(o.bill.totalUnits)
    ensures o.Computed? ==> o.bill.averageRate == AverageRate(o.bill.totalUnits, o.bill.totalEnergyCost)
  {
    if inputs.mainCurr < inputs.mainPrev then Rejected(MainReadingDecreased)
    else
      var totalUnits := inputs.mainCurr - inputs.mainPrev;
      if inputs.mode == Dual && inputs.subCurr < inputs.subPrev then Rejected(SubReadingDecreased)
      else
        var subUnits := if inputs.mode == Dual then inputs.subCurr - inputs.subPrev else 0.0;
        if inputs.mode == Dual && subUnits > totalUnits then Rejected(SubExceedsMain)
        else Computed(Bill(inputs.mode, totalUnits, subUnits, inputs.demandCharge, inputs.vatRate))
  }

  /** Units of a computed bill are non-negative and split exactly between the two parties. */
  lemma UnitsPartition(inputs: BillInputs)
    requires ComputeBill(inputs).Computed?
    ensures var r := ComputeBill(inputs).bill;
      0.0 <= r.subUnits <= r.totalUnits &&
      r.subUnits + r.ownUnits == r.totalUnits &&
      (inputs.mode == Single ==> r.subUnits == 0.0 && r.ownUnits == r.totalUnits) &&
      (inputs.mode == Dual ==> r.subUnits == inputs.subCurr - inputs.subPrev)
  {
  }

  /** The two slabs meet at 75 units: 394.5, and the 76th unit costs 7.20 more. */
  lemma SlabBoundary()
    ensures EnergyCost(FirstSlabUnits) == 394.5
    ensures EnergyCost(FirstSlabUnits + 1.0) == 401.7
  {
  }

  /**
   * The tariff is progressive: every extra unit costs between the two slab rates, so the
   * energy cost never decreases as consumption grows.
   */
  lemma MarginalCostBetweenSlabRates(a: real, b: real)
    requires a <= b
    ensures FirstSlabRate * (b - a) <= EnergyCost(b) - EnergyCost(a) <= SecondSlabRate * (b - a)
    ensures EnergyCost(a) <= EnergyCost(b)
  {
  }

  /** Zero consumption gives a zero energy cost, a zero rate and zero energy shares. */
  lemma ZeroConsumption(inputs: BillInputs)
    requires inputs.mainCurr == inputs.mainPrev
    requires ComputeBill(inputs).Computed?
    ensures var r := ComputeBill(inputs).bill;
      r.totalEnergyCost == 0.0 && r.averageRate == 0.0 &&
      r.subEnergyCost == 0.0 && r.ownEnergyCost == 0.0
  {
  }

  /** The blended rate lies between the two slab rates whenever something was consumed. */
  lemma {:induction false} AverageRateBetweenSlabRates(units: real)
    requires units > 0.0
    ensures FirstSlabRate <= AverageRate(units, EnergyCost(units)) <= SecondSlabRate
  {
    var cost := EnergyCost(units);
    MarginalCostBetweenSlabRates(0.0, units);
    assert FirstSlabRate * units <= cost <= SecondSlabRate * units;
    DivisionBounds(cost, units, FirstSlabRate, SecondSlabRate);
  }

  /** lo * d <= n <= hi * d gives lo <= n / d <= hi for a positive d. */
  lemma DivisionBounds(n: real, d: real, lo: real, hi: real)
    requires d > 0.0 && lo * d <= n <= hi * d
    ensures lo <= n / d <= hi
  {
    assert n / d * d == n;
  }

  /** Blended-rate shares add up to the whole energy cost, also for zero consumption. */
  lemma {:induction false} SharesCoverEnergyCost(units: real, subUnits: real)
    requires units >= 0.0
    ensures var rate := AverageRate(units, EnergyCost(units));
      subUnits * rate + (units - subUnits) * rate == EnergyCost(units)
      && units * rate == EnergyCost(units)
  {
    var cost := EnergyCost(units);
    var rate := AverageRate(units, cost);
    if units > 0.0 {
      assert units * (cost / units) == cost;
      assert subUnits * rate + (units - subUnits) * rate == units * rate;
    } else {
      assert cost == 0.0 && rate == 0.0;
    }
  }

  /** How the figures of a computed bill relate to each other and to the form. */
  lemma {:induction false} BillFigures(inputs: BillInputs, r: BillResult)
    requires ComputeBill(inputs) == Computed(r)
    ensures var vat := VatAmount(r.totalEnergyCost, inputs.demandCharge, inputs.vatRate);
      r.subEnergyCost == r.subUnits * r.averageRate &&
      r.ownEnergyCost == r.ownUnits * r.averageRate &&
      r.totalUnits * r.averageRate == r.totalEnergyCost &&
      r.halfDemand == (if inputs.mode == Single then inputs.demandCharge else inputs.demandCharge / 2.0) &&
      r.halfVat == (if inputs.mode == Single then vat else vat / 2.0)
  {
    SharesCoverEnergyCost(r.totalUnits, r.subUnits);
  }

  /** Owner's and tenant's energy costs add up exactly to the total energy cost. */
  lemma {:induction false} EnergySplitExact(inputs: BillInputs)
    requires ComputeBill(inputs).Computed?
    ensures var r := ComputeBill(inputs).bill;
      r.ownEnergyCost + r.subEnergyCost == r.totalEnergyCost
  {
    var r := ComputeBill(inputs).bill;
    SharesCoverEnergyCost(r.totalUnits, r.subUnits);
  }

  /** Single mode charges the sole payer the whole demand charge and the whole VAT. */
  lemma {:induction false} SingleModeCharges(inputs: BillInputs)
    requires inputs.mode == Single && ComputeBill(inputs).Computed?
    ensures var r := ComputeBill(inputs).bill;
      var vat := VatAmount(r.totalEnergyCost, inputs.demandCharge, inputs.vatRate);
      r.halfDemand == inputs.demandCharge && r.halfVat == vat &&
      r.subUnits == 0.0 && r.subEnergyCost == 0.0 && r.subTotalBill == 0.0 &&
      r.ownEnergyCost == r.totalEnergyCost &&
      r.ownTotalBill == r.totalEnergyCost + inputs.demandCharge + vat
  {
    var r := ComputeBill(inputs).bill;
    SharesCoverEnergyCost(r.totalUnits, 0.0);
  }

  /**
   * Dual mode halves the demand charge and the VAT between the two parties and splits the
   * energy cost by consumption; the two bills add up to the whole bill.
   */
  lemma {:induction false} DualModeSplit(inputs: BillInputs)
    requires inputs.mode == Dual && ComputeBill(inputs).Computed?
    ensures var r := ComputeBill(inputs).bill;
      var vat := VatAmount(r.totalEnergyCost, inputs.demandCharge, inputs.vatRate);
      r.halfDemand == inputs.demandCharge / 2.0 && r.halfVat == vat / 2.0 &&
      r.ownTotalBill == r.ownEnergyCost + r.halfDemand + r.halfVat &&
      r.subTotalBill == r.subEnergyCost + r.halfDemand + r.halfVat &&
      r.ownTotalBill + r.subTotalBill == r.totalEnergyCost + inputs.demandCharge + vat
  {
    EnergySplitExact(inputs);
  }

  /** In either mode nothing is lost or added: the two bills make up the whole bill. */
  lemma {:induction false} WholeBillCharged(inputs: BillInputs)
    requires ComputeBill(inputs).Computed?
    ensures var r := ComputeBill(inputs).bill;
      r.ownTotalBill + r.subTotalBill ==
        r.totalEnergyCost + inputs.demandCharge + VatAmount(r.totalEnergyCost, inputs.demandCharge, inputs.vatRate)
  {
    if inputs.mode == Single {
      SingleModeCharges(inputs);
    } else {
      DualModeSplit(inputs);
    }
  }

  /** The dual-mode bill for 100 main units, 30 sub units, demand 42 and 5% VAT. */
  lemma DualModeWorkedExample()
    ensures ComputeBill(BillInputs(Dual, 0.0, 100.0, 0.0, 30.0, 42.0, 5.0)) ==
      Computed(BillResult(100.0, 30.0, 70.0, 5.745, 208.7625, 438.5625,
                          172.35, 402.15, 21.0, 15.4125, 574.5))
  {
  }
}
