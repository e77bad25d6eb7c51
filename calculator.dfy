/**
 * The calculator component: its form state, the "Calculate" handler that runs the billing
 * engine step by step, the "Save" handler that maps the shown result to a history record,
 * and the history-selection handler that restores the form and rebuilds the shown result
 * from a stored record without recomputing it.
 *
 * The form fields hold the already-parsed numbers (an empty or non-numeric field reads as 0).
 */
module CalculatorComponent {
  import opened Wrappers
  import opened Billing
  import opened HistoryStore

  /** The save data built from the current form and the shown result. */
  function ToSaveData(form: BillInputs, r: BillResult): SaveBillData
  {
    SaveBillData(
      form.mode, form.mainPrev, form.mainCurr, form.subPrev, form.subCurr,
      r.totalUnits, r.subUnits, r.ownUnits, r.averageRate,
      form.demandCharge, form.vatRate,
      r.ownTotalBill, r.subTotalBill,
      if form.mode == Single then r.ownTotalBill else r.ownTotalBill + r.subTotalBill)
  }

  /** The form a selected record restores. */
  function InputsOf(rec: BillHistoryRecord): BillInputs
  {
    BillInputs(rec.mode, rec.mainPrevReading, rec.mainCurrReading, rec.subPrevReading,
               rec.subCurrReading, rec.demandCharge, rec.vatRate)
  }

  /**
   * The result a selected record redisplays: the energy cost is re-derived as units times
   * average rate, and demand and VAT are re-halved by the record's mode.
   */
  function Rebuild(rec: BillHistoryRecord): BillResult
  {
    var totalEnergyCost := rec.totalUnits * rec.averageRate;
    var vat := (totalEnergyCost + rec.demandCharge) * rec.vatRate / 100.0;
    BillResult(
      rec.totalUnits, rec.subUnits, rec.ownUnits, rec.averageRate,
      rec.tenantBill, rec.ownerBill,
      rec.subUnits * rec.averageRate, rec.ownUnits * rec.averageRate,
      if rec.mode == Single then rec.demandCharge else rec.demandCharge / 2.0,
      if rec.mode == Single then vat else vat / 2.0,
      totalEnergyCost)
  }

  /** The saved total is the whole bill in both modes: owner's plus tenant's share. */
  lemma {:induction false} SavedTotalIsWholeBill(form: BillInputs, r: BillResult)
    requires ComputeBill(form) == Computed(r)
    ensures var d := ToSaveData(form, r);
      d.ownerBill == r.ownTotalBill && d.tenantBill == r.subTotalBill &&
      d.totalBill == r.ownTotalBill + r.subTotalBill &&
      d.totalBill == r.totalEnergyCost + form.demandCharge +
                     VatAmount(r.totalEnergyCost, form.demandCharge, form.vatRate)
  {
    WholeBillCharged(form);
    if form.mode == Single {
      SingleModeCharges(form);
    }
  }

  /**
   * Saving a computed result and selecting the record later restores the same form and
   * every figure of the original result, which is also what recalculating that form gives.
   */
  lemma {:induction false} SelectRestoresSaved(form: BillInputs, r: BillResult, id: string, createdAt: int)
    requires ComputeBill(form) == Computed(r)
    ensures var rec := NewRecord(ToSaveData(form, r), id, createdAt);
      InputsOf(rec) == form && Rebuild(rec) == r &&
      ComputeBill(InputsOf(rec)) == Computed(Rebuild(rec))
  {
    var rec := NewRecord(ToSaveData(form, r), id, createdAt);
    BillFigures(form, r);
    RebuildFromFigures(rec, r, VatAmount(r.totalEnergyCost, form.demandCharge, form.vatRate));
    assert InputsOf(rec) == form;
  }

  /** A record holding a result's figures rebuilds it once the energy cost and charges agree. */
  lemma RebuildFromFigures(rec: BillHistoryRecord, r: BillResult, vat: real)
    requires rec.totalUnits == r.totalUnits && rec.subUnits == r.subUnits
    requires rec.ownUnits == r.ownUnits && rec.averageRate == r.averageRate
    requires rec.ownerBill == r.ownTotalBill && rec.tenantBill == r.subTotalBill
    requires r.subEnergyCost == r.subUnits * r.averageRate
    requires r.ownEnergyCost == r.ownUnits * r.averageRate
    requires r.totalUnits * r.averageRate == r.totalEnergyCost
    requires vat == VatAmount(r.totalEnergyCost, rec.demandCharge, rec.vatRate)
    requires r.halfDemand == if rec.mode == Single then rec.demandCharge else rec.demandCharge / 2.0
    requires r.halfVat == if rec.mode == Single then vat else vat / 2.0
    ensures Rebuild(rec) == r
  {
  }

  /**
   * Editing the demand charge after calculating does not clear the shown result, so a save
   * then pairs the old figures with the new charge and the rebuilt result differs.
   */
  lemma EditedFormBreaksRoundTrip(form: BillInputs, r: BillResult, d: real, id: string, createdAt: int)
    requires ComputeBill(form) == Computed(r) && d != form.demandCharge
    ensures Rebuild(NewRecord(ToSaveData(form.(demandCharge := d), r), id, createdAt)) != r
  {
  }

  /** The calculator's form fields, its shown result and the history hook it uses. */
  class Calculator {
    var mode: Mode
    var mainPrev: real
    var mainCurr: real
    var subPrev: real
    var subCurr: real
    var demandCharge: real
    var vatRate: real
    var result: Option<BillResult>
    const store: BillHistoryStore

    /** The form as the engine reads it. */
    function Inputs(): BillInputs
      reads this
    {
      BillInputs(mode, mainPrev, mainCurr, subPrev, subCurr, demandCharge, vatRate)
    }

    /** Single mode, empty readings, demand charge 42, VAT 5 percent, nothing shown. */
    constructor (store: BillHistoryStore)
      ensures this.store == store
      ensures Inputs() == BillInputs(Single, 0.0, 0.0, 0.0, 0.0, 42.0, 5.0)
      ensures result == None
    {
      this.store := store;
      mode := Single;
      mainPrev, mainCurr, subPrev, subCurr := 0.0, 0.0, 0.0, 0.0;
      demandCharge, vatRate := 42.0, 5.0;
      result := None;
    }

    /**
     * Validates the readings and computes the bill. On a validation failure the outcome
     * names it and the shown result stays as it was; otherwise the new bill is shown.
     */
    method CalculateBill() returns (outcome: Outcome)
      modifies this`result
      ensures outcome == ComputeBill(Inputs())
      ensures result == if outcome.Computed? then Some(outcome.bill) else old(result)
    {
      var mP, mC := mainPrev, mainCurr;
      var demand, vatPercent := demandCharge, vatRate;
      if mC < mP {
        return Rejected(MainReadingDecreased);
      }
      var totalUnits := mC - mP;
      var subUnits := 0.0;
      var ownUnits := totalUnits;
      if mode == Dual {
        var sP, sC := subPrev, subCurr;
        if sC < sP {
          return Rejected(SubReadingDecreased);
        }
        subUnits := sC - sP;
        if subUnits > totalUnits {
          return Rejected(SubExceedsMain);
        }
        ownUnits := totalUnits - subUnits;
      }

      var totalEnergyCost := 0.0;
      if totalUnits <= FirstSlabUnits {
        totalEnergyCost := totalUnits * FirstSlabRate;
      } else {
        var firstSlab := FirstSlabUnits * FirstSlabRate;
        var remaining := totalUnits - FirstSlabUnits;
        var secondSlab := remaining * SecondSlabRate;
        totalEnergyCost := firstSlab + secondSlab;
      }
      assert totalEnergyCost == EnergyCost(totalUnits);

      var averageRate := if totalUnits > 0.0 then totalEnergyCost / totalUnits else 0.0;
      var subEnergyCost := subUnits * averageRate;
      var ownEnergyCost := ownUnits * averageRate;
      assert averageRate == AverageRate(totalUnits, totalEnergyCost);

      var totalTaxable := totalEnergyCost + demand;
      var totalVatAmount := totalTaxable * vatPercent / 100.0;
      assert totalVatAmount == VatAmount(totalEnergyCost, demand, vatPercent);

      var halfDemand := demand;
      var halfVat := totalVatAmount;
      var subTotalBill := 0.0;
      var ownTotalBill := totalEnergyCost + demand + totalVatAmount;
      if mode == Dual {
        halfDemand := demand / 2.0;
        halfVat := totalVatAmount / 2.0;
        subTotalBill := subEnergyCost + halfDemand + halfVat;
        ownTotalBill := ownEnergyCost + halfDemand + halfVat;
      }

      var bill := BillResult(totalUnits, subUnits, ownUnits, averageRate, subTotalBill,
                             ownTotalBill, subEnergyCost, ownEnergyCost, halfDemand, halfVat,
                             totalEnergyCost);
      assert bill == Bill(mode, totalUnits, subUnits, demand, vatPercent);
      result := Some(bill);
      outcome := Computed(bill);
    }

    /**
     * Saves the shown result with the current form through the history hook; without a
     * shown result nothing happens.
     */
    method HandleSaveBill(id: string, createdAt: int, writeFails: bool)
      modifies store
      ensures result.None? ==> store.history == old(store.history) && store.stored == old(store.stored)
      ensures result.Some? && !old(store.stored).Unreadable? && !writeFails ==>
        store.history == PrependCapped(NewRecord(ToSaveData(Inputs(), result.value), id, createdAt),
                                       StoredRecords(old(store.stored))) &&
        store.stored == Entry(store.history)
      ensures result.Some? && (old(store.stored).Unreadable? || writeFails) ==>
        store.history == old(store.history) && store.stored == old(store.stored)
      ensures store.loading == old(store.loading)
    {
      if result.None? {
        return;
      }
      var _ := store.SaveBill(ToSaveData(Inputs(), result.value), id, createdAt, writeFails);
    }

    /** Restores the form from a record and shows the result rebuilt from it. */
    method HandleSelectHistory(rec: BillHistoryRecord)
      modifies this
      ensures Inputs() == InputsOf(rec)
      ensures result == Some(Rebuild(rec))
    {
      mode := rec.mode;
      mainPrev := rec.mainPrevReading;
      mainCurr := rec.mainCurrReading;
      subPrev := rec.subPrevReading;
      subCurr := rec.subCurrReading;
      demandCharge := rec.demandCharge;
      vatRate := rec.vatRate;
      result := Some(Rebuild(rec));
    }
  }
}
