# Electricity unit calculator — billing engine and bill history

A Dafny model of the two parts of the calculator that hold its logic.

- **The billing engine** of `src/components/Calculator.tsx`. It checks meter readings in a fixed
  order: main meter first, then the sub meter, then that the sub meter's units do not exceed the
  main meter's. It then prices the units with the two-slab NESCO tariff: 5.26 per unit for the first
  75 units and 7.20 per unit after that. From this it derives a blended average rate, with a zero
  rate for zero units. In dual mode it splits the energy cost between owner and tenant by units and
  halves the demand charge and the VAT. In single mode one payer bears everything.
- **The calculator's handlers.** "Save" turns the shown result and the current form into a history
  record. Selecting a history entry restores the form and rebuilds the shown result from the
  record's stored figures without recomputing it.
- **The bill history hook** of `src/hooks/useBillHistory.ts`. It keeps an in-memory `history` list
  mirrored in local storage under one key, newest first and capped at 50 records. Its operations
  are load (sort by creation time, newest first), save (prepend to the *stored* list, keep 50,
  write back), delete (filter the *in-memory* list by id, write it over the stored one) and clear.

Files:

- `wrappers.dfy`: module `Wrappers`, the `Option` datatype.
- `billing.dfy`: module `Billing`, the engine as the pure specification function `ComputeBill`
  over `real`, and the lemmas about it.
- `history.dfy`: module `HistoryStore`, the record types, the list functions (`PrependCapped`,
  `Without`, the stable sort `NewestFirst`) and the class `BillHistoryStore`. The class has fields
  `history`, `loading` and `stored`. The last one stands for the local-storage entry: absent,
  readable, or unreadable.
- `calculator.dfy`: module `CalculatorComponent`, the class `Calculator`. Its form fields, shown
  `result` and history store are updated by `CalculateBill`, `HandleSaveBill` and
  `HandleSelectHistory`. `CalculateBill` follows the source step by step and is proved equal to
  `ComputeBill`. The module also holds the save mapping, the rebuild and the round-trip lemma.

Every quantity is an exact `real`, so `75 * 5.26` is exactly 394.5. The clock, the id generator
and storage failures are arguments of the operations that use them. Creation times are integers.

Save and delete really do differ in which copy they start from, as the code is written. Save reads
the stored list back before prepending. Delete filters the in-memory list and overwrites storage
with the result. `SaveBill` and `DeleteBill` state this in their contracts. Only load sorts. A save
prepends to the stored list in its stored order, so the list stays newest first when the stored
list was and the new record is no older than any stored one (`SaveKeepsNewestFirst`). A delete
keeps a newest-first list newest first (`DeleteKeepsNewestFirst`).

The save-then-select round trip (`SelectRestoresSaved`) needs the form to be unchanged since the
result was calculated. The source clears the shown result when the mode changes. It does not clear
it when a reading, the demand charge or the VAT rate is edited. A save after such an edit stores
the old figures with the new inputs, and `EditedFormBreaksRoundTrip` shows that any change of
the demand charge then makes the rebuilt result differ.

## Model

| member | source | states |
|---|---|---|
| `Billing.ComputeBill` | src/components/Calculator.tsx:40-134 | Each validation error happens exactly when its check is the first to fail, in the order main meter, sub meter, sub units above main units. The sub checks apply only in dual mode. A computed bill's total units are main current minus main previous, its energy cost is the slab tariff `EnergyCost` of those units, and its average rate is `AverageRate` of units and cost. |
| `Billing.EnergyCost` | src/components/Calculator.tsx:88-95 | The two-slab tariff. For non-negative units the cost lies between 5.26 and 7.20 per unit. Its boundary, continuity and monotonicity are stated by `SlabBoundary` and `MarginalCostBetweenSlabRates`. |
| `Billing.AverageRate` | src/components/Calculator.tsx:97 | For positive units the rate times the units gives back the cost; for zero units the rate is 0, with no division. Its bounds are stated by `AverageRateBetweenSlabRates`. |
| `Billing.VatAmount` | src/components/Calculator.tsx:101-102 | VAT on energy cost plus demand charge at a percentage rate. Its role in the bill is stated by `SingleModeCharges`, `DualModeSplit` and `WholeBillCharged`. |
| `Billing.Bill` | src/components/Calculator.tsx:97-114 | The figures of a validated bill. Their properties are stated by `BillFigures`, `EnergySplitExact`, `SingleModeCharges`, `DualModeSplit` and `WholeBillCharged`. |
| `Billing.UnitsPartition` | src/components/Calculator.tsx:55-84 | On success, 0 <= subUnits <= totalUnits and subUnits + ownUnits == totalUnits. Single mode has subUnits == 0 and ownUnits == totalUnits. Dual mode has subUnits == sub current minus sub previous. |
| `Billing.SlabBoundary` | src/components/Calculator.tsx:88-95 | At 75 units the first slab gives 394.5, and the 76th unit adds 7.20 (401.7). Continuity and monotonicity across the boundary follow from `MarginalCostBetweenSlabRates`. |
| `Billing.MarginalCostBetweenSlabRates` | src/components/Calculator.tsx:88-95 | Raising consumption from a to b adds between 5.26·(b−a) and 7.20·(b−a) to the cost. So the cost never decreases. |
| `Billing.ZeroConsumption` | src/components/Calculator.tsx:97-99 | Zero units give zero energy cost, a zero average rate and zero energy shares, with no division. |
| `Billing.AverageRateBetweenSlabRates` | src/components/Calculator.tsx:97 | For positive consumption the blended rate lies between 5.26 and 7.20. |
| `Billing.SharesCoverEnergyCost` | src/components/Calculator.tsx:97-99 | Unit shares priced at the blended rate add up to the slab energy cost, including for zero units. |
| `Billing.BillFigures` | src/components/Calculator.tsx:97-114 | On a computed bill, units times average rate gives back the total energy cost. Each energy share is its units times the rate. Demand and VAT are halved only in dual mode. |
| `Billing.EnergySplitExact` | src/components/Calculator.tsx:97-99 | ownEnergyCost + subEnergyCost == totalEnergyCost exactly. |
| `Billing.SingleModeCharges` | src/components/Calculator.tsx:101-107 | Single mode: halfDemand is the whole demand charge and halfVat the whole VAT on energy plus demand. Tenant units, energy and bill are 0. The owner pays energy, demand and VAT. |
| `Billing.DualModeSplit` | src/components/Calculator.tsx:109-114 | Dual mode: halfDemand == demand/2 and halfVat == VAT/2. Each party pays its energy share plus the two halves. The two bills sum to energy plus demand plus VAT. |
| `Billing.WholeBillCharged` | src/components/Calculator.tsx:101-114 | In both modes, owner bill plus tenant bill equals energy cost plus demand charge plus VAT. |
| `Billing.DualModeWorkedExample` | src/components/Calculator.tsx:40-134 | Dual mode with 100 main units, 30 sub units, demand 42 and 5% VAT gives the exact figures 574.5, 5.745, 172.35, 402.15, 21, 15.4125, 438.5625 and 208.7625. |
| `CalculatorComponent.Calculator.constructor` | src/components/Calculator.tsx:30-37 | The form starts in single mode with empty readings, demand charge 42 and VAT 5, and no result is shown. |
| `CalculatorComponent.Calculator.CalculateBill` | src/components/Calculator.tsx:40-134 | The step-by-step handler returns exactly `ComputeBill` of the form. On success it shows the bill. On any validation error the shown result is left as it was. |
| `CalculatorComponent.ToSaveData` | src/components/Calculator.tsx:147-162 | The save mapping. Its totals are stated by `SavedTotalIsWholeBill`, and its round trip through the rebuild by `SelectRestoresSaved`. |
| `CalculatorComponent.InputsOf` | src/components/Calculator.tsx:166-172 | The form restored from a record. `SelectRestoresSaved` states that it gives back the form a saved record was made from. |
| `CalculatorComponent.Rebuild` | src/components/Calculator.tsx:174-190 | The result rebuilt from a record. `SelectRestoresSaved` states that it gives back every field of the saved result, and `EditedFormBreaksRoundTrip` that it does not when the demand charge was edited before saving. |
| `CalculatorComponent.SavedTotalIsWholeBill` | src/components/Calculator.tsx:147-162 | The save record's owner bill and tenant bill are the result's two totals. Its total bill is their sum in both modes, since the tenant's share is 0 in single mode, and equals energy plus demand plus VAT. |
| `CalculatorComponent.SelectRestoresSaved` | src/components/Calculator.tsx:144-190 | Saving a computed result and later selecting its record restores the same form and every field of the original result. Recalculating the restored form gives that same result. |
| `CalculatorComponent.EditedFormBreaksRoundTrip` | src/components/Calculator.tsx:147-162 | For every computed result and every demand charge different from the one it was computed with, saving with the edited charge and selecting the record rebuilds a result different from the one shown at save time. |
| `CalculatorComponent.Calculator.HandleSaveBill` | src/components/Calculator.tsx:144-163 | With no shown result, the store is untouched. Otherwise the store receives the save record of the current form and result, with the save's success and failure behaviour. |
| `CalculatorComponent.Calculator.HandleSelectHistory` | src/components/Calculator.tsx:165-193 | The form becomes the record's mode, readings, demand charge and VAT rate. The shown result becomes the one rebuilt from the record. |
| `HistoryStore.NewRecord` | src/hooks/useBillHistory.ts:67-84 | The new record carries every save-data field verbatim (its `DataOf` is the data), the given id and the given creation time. |
| `HistoryStore.PrependCapped` | src/hooks/useBillHistory.ts:86-89 | The written list has length min(stored + 1, 50). Element 0 is the new record and the rest is a prefix of the stored list, in stored order. |
| `HistoryStore.SaveEvictsOldest` | src/hooks/useBillHistory.ts:89 | Saving onto 50 stored records drops exactly the last (oldest) one. |
| `HistoryStore.SaveAllKeepsNewest` | src/hooks/useBillHistory.ts:86-92 | A run of saves keeps the most recent saves, newest first, followed by the older stored records, cut to 50. So 51 saves from empty leave the last 50. |
| `HistoryStore.Without` | src/hooks/useBillHistory.ts:112 | A record is in the filtered list exactly when it was in the list and its id differs from the deleted id. The list never grows. |
| `HistoryStore.WithoutConcat` | src/hooks/useBillHistory.ts:112 | Filtering distributes over concatenation, so the remaining records keep their relative order. |
| `HistoryStore.SaveKeepsNewestFirst` | src/hooks/useBillHistory.ts:86-89 | Prepending a record no older than any stored record to a newest-first stored list, and cutting to 50, gives a newest-first list. |
| `HistoryStore.DeleteKeepsNewestFirst` | src/hooks/useBillHistory.ts:112 | Filtering a newest-first list by id leaves it newest first. |
| `HistoryStore.WithoutAbsentId` | src/hooks/useBillHistory.ts:110-120 | Deleting an id that no record carries leaves the list unchanged. |
| `HistoryStore.Insert` | src/hooks/useBillHistory.ts:53 | Inserting a record into a list adds exactly that record to its multiset. |
| `HistoryStore.InsertKeepsOrder` | src/hooks/useBillHistory.ts:53 | Inserting into a newest-first list keeps it newest first. |
| `HistoryStore.NewestFirst` | src/hooks/useBillHistory.ts:53 | The loaded list is sorted by creation time, descending, and is a permutation of the stored list. |
| `HistoryStore.InsertStable` | src/hooks/useBillHistory.ts:53 | Insertion places a record before the records that share its creation time. |
| `HistoryStore.NewestFirstStable` | src/hooks/useBillHistory.ts:53 | The sort is stable: for each creation time, the records with that time keep their stored order. |
| `HistoryStore.BillHistoryStore.constructor` | src/hooks/useBillHistory.ts:43-47 | Mounting starts from an empty list with `loading` set, then runs the mount-time load. `history` ends sorted from storage when an entry exists, and empty otherwise. `loading` ends false. |
| `HistoryStore.BillHistoryStore.LoadHistory` | src/hooks/useBillHistory.ts:47-59 | A readable entry replaces `history` with its newest-first sort. A missing or unreadable entry leaves `history` unchanged. `loading` is false afterwards. |
| `HistoryStore.BillHistoryStore.SaveBill` | src/hooks/useBillHistory.ts:61-108 | Success happens exactly when the entry is readable and the write does not fail. On success, history and storage both become the new record prepended to the previously stored list (not the in-memory one), capped at 50. On failure nothing changes. |
| `HistoryStore.BillHistoryStore.DeleteBill` | src/hooks/useBillHistory.ts:110-129 | Success happens exactly when the write does not fail, and an absent id is not an error. On success, history and storage both become the previous in-memory history without that id. On failure nothing changes. |
| `HistoryStore.BillHistoryStore.ClearHistory` | src/hooks/useBillHistory.ts:131-143 | On success the storage entry is removed and `history` is empty. If the removal throws, nothing changes. |

## Left out

- Number parsing (`parseFloat(x) || 0`) is not modelled. The form fields hold already-parsed
  numbers. Restoring a field from a record through `String(...)` is taken to give back the same
  number.
- Floating point is not modelled. All figures are exact reals, so the model has no IEEE rounding
  (`75 * 5.26` is exactly 394.5 here).
- Display rounding (`Math.round`, `toFixed`), toasts and `console.error` are presentation and
  notification only. The toast of a failed calculation is the returned `Outcome`.
- JSX rendering is not modelled. Neither are the UI toggles: the mode buttons (which also clear
  the shown result), `reset`, the input setters and `showHistory`.
- `exportPDF` is not modelled. It is a layout built with the jsPDF library.
- Id generation (`crypto.randomUUID` / `Math.random`) and the clock are not modelled. The id and
  the creation time are arguments of `SaveBill`, and the creation time is an integer. The source
  never checks ids for uniqueness, and the model assumes nothing about it either.
- Timestamps that do not parse as dates are not modelled. Their comparator value in the source is
  NaN.
- `localStorage` and JSON are not modelled. They are abstracted as the `StorageSlot` field. A read
  that throws, or a non-empty entry that is not a parseable array, is `Unreadable`. An empty-string
  entry is `NoEntry`: load skips it and save starts from the empty list, as for a missing entry. A write or removal that
  throws is the operation's `writeFails` / `removeFails` argument. The serialisation itself is not
  modelled.
- React's state batching, effect timing and re-renders are not modelled. State updates take
  effect at once, and the mount-time `useEffect` load is part of the store's constructor. The
  hook's `refetch` is `LoadHistory`.
- `HistoryStore.BillHistoryStore.SaveBill`: an entry that parses to a JSON string rather than an
  array is treated as `Unreadable`, so the model reports a failed save. The source spreads the
  string's characters into the new list and reports success; its later load then fails on the sort.
