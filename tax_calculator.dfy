/**
 * The tax-position calculator: folds the transactions into a running total of
 * sales tax accrued minus tax paid, with indexed amendments overriding the
 * cost and tax rate of the line items they target, and rounds once at the end.
 */
module TaxCalculator {
  import opened Results
  import opened TaxTypes
  import opened AmendmentIndex

  // ---------------------------------------------------------------------
  // Specification of one calculation, step by step as the service folds.
  // ---------------------------------------------------------------------

  /** The range check the service applies to an item's ORIGINAL cost and tax rate. */
  predicate InRange(item: Item)
  {
    !(item.cost < 0.0 || item.taxRate < 0.0 || item.taxRate > 1.0)
  }

  /** The (cost, taxRate) pair of the amendment indexed for the item, if any. */
  function Override(idx: Index, invoiceId: string, itemId: string): Option<(real, real)>
  {
    match Lookup(idx, invoiceId, itemId)
    case Some(a) => Some((a.cost, a.taxRate))
    case None => None
  }

  /** The tax one line item adds: the amendment's cost * taxRate when one is indexed, its own otherwise. */
  function ItemTax(idx: Index, invoiceId: string, item: Item): real
  {
    match Override(idx, invoiceId, item.itemId)
    case Some((cost, taxRate)) => cost * taxRate
    case None => item.cost * item.taxRate
  }

  /** Add the items of one sale to `acc`, in order, stopping at the first item out of range. */
  function ApplyItems(acc: real, invoiceId: string, items: seq<Item>, idx: Index): Result<real, CalcError>
    decreases |items|
  {
    if items == [] then Ok(acc)
    else if !InRange(items[0]) then Err(InvalidItem(items[0].itemId))
    else ApplyItems(acc + ItemTax(idx, invoiceId, items[0]), invoiceId, items[1..], idx)
  }

  /** One step of the fold: a sale adds its items, a payment subtracts its amount. */
  function ApplyTransaction(acc: real, tx: Transaction, idx: Index): Result<real, CalcError>
  {
    match tx
    case Sale(_, invoiceId, items) => ApplyItems(acc, invoiceId, items, idx)
    case TaxPayment(_, amount) => if amount < 0.0 then Err(InvalidPayment) else Ok(acc - amount)
  }

  /** The fold over all transactions, starting from `acc`; the first error aborts it. */
  function ApplyAll(acc: real, txs: seq<Transaction>, idx: Index): Result<real, CalcError>
    decreases |txs|
  {
    if txs == [] then Ok(acc)
    else match ApplyTransaction(acc, txs[0], idx)
      case Err(e) => Err(e)
      case Ok(next) => ApplyAll(next, txs[1..], idx)
  }

  /** JavaScript's Math.round: the nearest integer, halves rounded toward +infinity. */
  function RoundHalfUp(x: real): (r: int)
    ensures x - 0.5 < r as real <= x + 0.5
  {
    (x + 0.5).Floor
  }

  /** What one calculation returns: the rounded total, or the error that aborted it. */
  function Calculation(txs: seq<Transaction>, ams: seq<SaleAmendment>): Result<int, CalcError>
  {
    match ApplyAll(0.0, txs, BuildIndex(ams))
    case Ok(total) => Ok(RoundHalfUp(total))
    case Err(e) => Err(e)
  }

  // ---------------------------------------------------------------------
  // The service's algorithm: a map built in a loop, then nested loops over
  // a mutable accumulator with early exits.
  // ---------------------------------------------------------------------

  /** The amendment index built at the start of `TaxCalculatorService.calculate`: one pass over `amendments`, later entries overwriting earlier ones. */
  method IndexAmendments(amendments: seq<SaleAmendment>) returns (amendmentMap: Index)
    ensures amendmentMap == BuildIndex(amendments)
  {
    amendmentMap := map[];
    for i := 0 to |amendments|
      invariant amendmentMap == BuildIndex(amendments[..i])
    {
      var amendment := amendments[i];
      var key := amendment.invoiceId;
      if key !in amendmentMap {
        amendmentMap := amendmentMap[key := map[]];
      }
      amendmentMap := amendmentMap[key := amendmentMap[key][amendment.itemId := amendment]];
      assert amendments[..i + 1][..i] == amendments[..i];
    }
    assert amendments[..|amendments|] == amendments;
  }

  /** The tax position of `transactions` under `amendments`, or the error it throws. */
  method Calculate(transactions: seq<Transaction>, amendments: seq<SaleAmendment>) returns (r: Result<int, CalcError>)
    ensures r == Calculation(transactions, amendments)
  {
    var amendmentMap := IndexAmendments(amendments);
    ghost var idx := amendmentMap;

    var totalTax := 0.0;
    for i := 0 to |transactions|
      invariant ApplyAll(totalTax, transactions[i..], idx) == ApplyAll(0.0, transactions, idx)
    {
      var transaction := transactions[i];
      assert transactions[i..][1..] == transactions[i + 1..];
      match transaction {
        case Sale(_, invoiceId, items) =>
          ghost var entry := totalTax;
          for j := 0 to |items|
            invariant ApplyItems(totalTax, invoiceId, items[j..], idx) == ApplyItems(entry, invoiceId, items, idx)
          {
            var item := items[j];
            assert items[j..][0] == item && items[j..][1..] == items[j + 1..];
            if item.cost < 0.0 || item.taxRate < 0.0 || item.taxRate > 1.0 {
              return Err(InvalidItem(item.itemId));
            }
            if invoiceId in amendmentMap && item.itemId in amendmentMap[invoiceId] {
              var amendment := amendmentMap[invoiceId][item.itemId];
              assert ItemTax(idx, invoiceId, item) == amendment.cost * amendment.taxRate;
              totalTax := totalTax + amendment.cost * amendment.taxRate;
            } else {
              assert ItemTax(idx, invoiceId, item) == item.cost * item.taxRate;
              totalTax := totalTax + item.cost * item.taxRate;
            }
          }
        case TaxPayment(_, amount) =>
          if amount < 0.0 {
            return Err(InvalidPayment);
          }
          totalTax := totalTax - amount;
      }
    }
    r := Ok(RoundHalfUp(totalTax));
  }

  // ---------------------------------------------------------------------
  // A closed form of the calculation: which error it raises, and otherwise
  // the sum of all item taxes minus the sum of all payments.
  // ---------------------------------------------------------------------

  /** The first item of `items` whose original values are out of range, as an error. */
  function ItemsViolation(items: seq<Item>): Option<CalcError>
    decreases |items|
  {
    if items == [] then None
    else if !InRange(items[0]) then Some(InvalidItem(items[0].itemId))
    else ItemsViolation(items[1..])
  }

  /** The error one transaction raises on its own, if any. */
  function Violation(tx: Transaction): Option<CalcError>
  {
    match tx
    case Sale(_, _, items) => ItemsViolation(items)
    case TaxPayment(_, amount) => if amount < 0.0 then Some(InvalidPayment) else None
  }

  /** The error of the first transaction that raises one. */
  function FirstViolation(txs: seq<Transaction>): Option<CalcError>
    decreases |txs|
  {
    if txs == [] then None
    else if Violation(txs[0]).Some? then Violation(txs[0])
    else FirstViolation(txs[1..])
  }

  /** The sum of the item taxes of one sale. */
  function ItemsTax(idx: Index, invoiceId: string, items: seq<Item>): real
    decreases |items|
  {
    if items == [] then 0.0 else ItemTax(idx, invoiceId, items[0]) + ItemsTax(idx, invoiceId, items[1..])
  }

  /** The sum of the item taxes of every sale in `txs`. */
  function SalesTax(txs: seq<Transaction>, idx: Index): real
    decreases |txs|
  {
    if txs == [] then 0.0
    else (match txs[0]
          case Sale(_, invoiceId, items) => ItemsTax(idx, invoiceId, items)
          case TaxPayment(_, _) => 0.0) + SalesTax(txs[1..], idx)
  }

  /** The sum of the amounts of every tax payment in `txs`. */
  function Payments(txs: seq<Transaction>): real
    decreases |txs|
  {
    if txs == [] then 0.0
    else (match txs[0]
          case Sale(_, _, _) => 0.0
          case TaxPayment(_, amount) => amount) + Payments(txs[1..])
  }

  /** The sum of cost * taxRate over every sale item, using the items' own values. */
  function OwnSalesTax(txs: seq<Transaction>): real
    decreases |txs|
  {
    if txs == [] then 0.0
    else (match txs[0]
          case Sale(_, _, items) => OwnItemsTax(items)
          case TaxPayment(_, _) => 0.0) + OwnSalesTax(txs[1..])
  }

  function OwnItemsTax(items: seq<Item>): real
    decreases |items|
  {
    if items == [] then 0.0 else items[0].cost * items[0].taxRate + OwnItemsTax(items[1..])
  }

  lemma {:induction false} ApplyItemsClosedForm(acc: real, invoiceId: string, items: seq<Item>, idx: Index)
    ensures ApplyItems(acc, invoiceId, items, idx) ==
            match ItemsViolation(items)
            case Some(e) => Err(e)
            case None => Ok(acc + ItemsTax(idx, invoiceId, items))
    decreases |items|
  {
    if items != [] && InRange(items[0]) {
      ApplyItemsClosedForm(acc + ItemTax(idx, invoiceId, items[0]), invoiceId, items[1..], idx);
    }
  }

  /**
   * The fold raises exactly the first violation in input order, and otherwise
   * adds every item tax and subtracts every payment.
   */
  lemma {:induction false} ApplyAllClosedForm(acc: real, txs: seq<Transaction>, idx: Index)
    ensures ApplyAll(acc, txs, idx) ==
            match FirstViolation(txs)
            case Some(e) => Err(e)
            case None => Ok(acc + SalesTax(txs, idx) - Payments(txs))
    decreases |txs|
  {
    if txs != [] {
      match txs[0] {
        case Sale(_, invoiceId, items) =>
          ApplyItemsClosedForm(acc, invoiceId, items, idx);
          if ItemsViolation(items).None? {
            ApplyAllClosedForm(acc + ItemsTax(idx, invoiceId, items), txs[1..], idx);
          }
        case TaxPayment(_, amount) =>
          if amount >= 0.0 {
            ApplyAllClosedForm(acc - amount, txs[1..], idx);
          }
      }
    }
  }

  /**
   * The result of a calculation: the first out-of-range item or payment in
   * input order aborts it; otherwise it is the grand total of item taxes minus
   * payments, rounded once.
   */
  lemma CalculationClosedForm(txs: seq<Transaction>, ams: seq<SaleAmendment>)
    ensures Calculation(txs, ams) ==
            match FirstViolation(txs)
            case Some(e) => Err(e)
            case None => Ok(RoundHalfUp(SalesTax(txs, BuildIndex(ams)) - Payments(txs)))
  {
    ApplyAllClosedForm(0.0, txs, BuildIndex(ams));
  }

  /** With no transactions the position is 0, whatever the amendments. */
  lemma EmptyTransactions(ams: seq<SaleAmendment>)
    ensures Calculation([], ams) == Ok(0)
  {
  }

  lemma {:induction false} NoOverrideOwnItemsTax(invoiceId: string, items: seq<Item>)
    ensures ItemsTax(map[], invoiceId, items) == OwnItemsTax(items)
    decreases |items|
  {
    if items != [] {
      NoOverrideOwnItemsTax(invoiceId, items[1..]);
    }
  }

  lemma {:induction false} NoOverrideOwnSalesTax(txs: seq<Transaction>)
    ensures SalesTax(txs, map[]) == OwnSalesTax(txs)
    decreases |txs|
  {
    if txs != [] {
      if txs[0].Sale? {
        NoOverrideOwnItemsTax(txs[0].invoiceId, txs[0].items);
      }
      NoOverrideOwnSalesTax(txs[1..]);
    }
  }

  /**
   * Without amendments and with every value in range, the position is the sum
   * of cost * taxRate over all items minus the sum of payments, rounded once.
   */
  lemma NoAmendments(txs: seq<Transaction>)
    requires FirstViolation(txs).None?
    ensures Calculation(txs, []) == Ok(RoundHalfUp(OwnSalesTax(txs) - Payments(txs)))
  {
    CalculationClosedForm(txs, []);
    NoOverrideOwnSalesTax(txs);
  }

  /**
   * Whether a calculation fails, and with which error, depends only on the
   * original transactions: an out-of-range item fails even when amended, and
   * amendment values are never checked.
   */
  lemma ErrorsIgnoreAmendments(txs: seq<Transaction>, ams1: seq<SaleAmendment>, ams2: seq<SaleAmendment>)
    ensures Calculation(txs, ams1).Err? == Calculation(txs, ams2).Err?
    ensures Calculation(txs, ams1).Err? ==> Calculation(txs, ams1) == Calculation(txs, ams2)
  {
    CalculationClosedForm(txs, ams1);
    CalculationClosedForm(txs, ams2);
  }

  // ---------------------------------------------------------------------
  // Amendments act only through the (cost, taxRate) they supply to the keys
  // the sales mention.
  // ---------------------------------------------------------------------

  /** The (invoiceId, itemId) keys of the line items of one sale. */
  function ItemKeys(invoiceId: string, items: seq<Item>): set<(string, string)>
  {
    set item | item in items :: (invoiceId, item.itemId)
  }

  /** The (invoiceId, itemId) keys of every sale line item in `txs`. */
  function SaleKeys(txs: seq<Transaction>): set<(string, string)>
    decreases |txs|
  {
    if txs == [] then {}
    else (match txs[0]
          case Sale(_, invoiceId, items) => ItemKeys(invoiceId, items)
          case TaxPayment(_, _) => {}) + SaleKeys(txs[1..])
  }

  /** Two indexes supply the same (cost, taxRate) to every key in `keys`. */
  predicate AgreeOn(idx1: Index, idx2: Index, keys: set<(string, string)>)
  {
    forall key :: key in keys ==> Override(idx1, key.0, key.1) == Override(idx2, key.0, key.1)
  }

  lemma {:induction false} ApplyItemsAgree(acc: real, invoiceId: string, items: seq<Item>, idx1: Index, idx2: Index)
    requires AgreeOn(idx1, idx2, ItemKeys(invoiceId, items))
    ensures ApplyItems(acc, invoiceId, items, idx1) == ApplyItems(acc, invoiceId, items, idx2)
    decreases |items|
  {
    if items != [] {
      assert (invoiceId, items[0].itemId) in ItemKeys(invoiceId, items);
      assert ItemKeys(invoiceId, items[1..]) <= ItemKeys(invoiceId, items);
      ApplyItemsAgree(acc + ItemTax(idx1, invoiceId, items[0]), invoiceId, items[1..], idx1, idx2);
    }
  }

  /** The fold reads the index only at the keys the sales mention. */
  lemma {:induction false} ApplyAllAgree(acc: real, txs: seq<Transaction>, idx1: Index, idx2: Index)
    requires AgreeOn(idx1, idx2, SaleKeys(txs))
    ensures ApplyAll(acc, txs, idx1) == ApplyAll(acc, txs, idx2)
    decreases |txs|
  {
    if txs != [] {
      if txs[0].Sale? {
        ApplyItemsAgree(acc, txs[0].invoiceId, txs[0].items, idx1, idx2);
      }
      match ApplyTransaction(acc, txs[0], idx1) {
        case Err(_) =>
        case Ok(next) => ApplyAllAgree(next, txs[1..], idx1, idx2);
      }
    }
  }

  /**
   * An amendment whose (invoiceId, itemId) matches no sale item leaves the
   * result unchanged, wherever it stands in the amendment list.
   */
  lemma UnmatchedAmendmentInert(txs: seq<Transaction>, ams1: seq<SaleAmendment>, a: SaleAmendment, ams2: seq<SaleAmendment>)
    requires (a.invoiceId, a.itemId) !in SaleKeys(txs)
    ensures Calculation(txs, ams1 + [a] + ams2) == Calculation(txs, ams1 + ams2)
  {
    forall key | key in SaleKeys(txs)
      ensures Override(BuildIndex(ams1 + [a] + ams2), key.0, key.1) == Override(BuildIndex(ams1 + ams2), key.0, key.1)
    {
      OtherKeyInert(ams1, a, ams2, key.0, key.1);
    }
    ApplyAllAgree(0.0, txs, BuildIndex(ams1 + [a] + ams2), BuildIndex(ams1 + ams2));
  }

  /** An amendment's date is never consulted: changing it leaves the result unchanged. */
  lemma AmendmentDateIgnored(txs: seq<Transaction>, ams1: seq<SaleAmendment>, a: SaleAmendment, ams2: seq<SaleAmendment>, date: string)
    ensures Calculation(txs, ams1 + [a] + ams2) == Calculation(txs, ams1 + [a.(date := date)] + ams2)
  {
    forall key | key in SaleKeys(txs)
      ensures Override(BuildIndex(ams1 + [a] + ams2), key.0, key.1) == Override(BuildIndex(ams1 + [a.(date := date)] + ams2), key.0, key.1)
    {
      DateIgnored(ams1, a, ams2, date, key.0, key.1);
    }
    ApplyAllAgree(0.0, txs, BuildIndex(ams1 + [a] + ams2), BuildIndex(ams1 + [a.(date := date)] + ams2));
  }

  /** A transaction with its date blanked out: the only part the calculation reads. */
  function Undated(tx: Transaction): Transaction
  {
    match tx
    case Sale(_, invoiceId, items) => Sale("", invoiceId, items)
    case TaxPayment(_, amount) => TaxPayment("", amount)
  }

  lemma {:induction false} ApplyAllUndated(acc: real, txs1: seq<Transaction>, txs2: seq<Transaction>, idx: Index)
    requires |txs1| == |txs2|
    requires forall k :: 0 <= k < |txs1| ==> Undated(txs1[k]) == Undated(txs2[k])
    ensures ApplyAll(acc, txs1, idx) == ApplyAll(acc, txs2, idx)
    decreases |txs1|
  {
    if txs1 != [] {
      assert Undated(txs1[0]) == Undated(txs2[0]);
      assert ApplyTransaction(acc, txs1[0], idx) == ApplyTransaction(acc, txs2[0], idx);
      match ApplyTransaction(acc, txs1[0], idx) {
        case Err(_) =>
        case Ok(next) =>
          assert forall k :: 0 <= k < |txs1| - 1 ==> txs1[1..][k] == txs1[k + 1] && txs2[1..][k] == txs2[k + 1];
          ApplyAllUndated(next, txs1[1..], txs2[1..], idx);
      }
    }
  }

  /**
   * Transaction dates are never consulted: two transaction lists that differ
   * only in dates have the same tax position, so amendments apply whatever the
   * date of the sale they target.
   */
  lemma TransactionDatesIgnored(txs1: seq<Transaction>, txs2: seq<Transaction>, ams: seq<SaleAmendment>)
    requires |txs1| == |txs2|
    requires forall k :: 0 <= k < |txs1| ==> Undated(txs1[k]) == Undated(txs2[k])
    ensures Calculation(txs1, ams) == Calculation(txs2, ams)
  {
    ApplyAllUndated(0.0, txs1, txs2, BuildIndex(ams));
  }

  /**
   * The item an effective amendment targets contributes exactly the
   * amendment's cost * taxRate, with no blend of its original values; an item
   * without one contributes its own.
   */
  lemma AmendedItemTax(ams: seq<SaleAmendment>, invoiceId: string, item: Item)
    ensures ItemTax(BuildIndex(ams), invoiceId, item) ==
            match LastAmendment(ams, invoiceId, item.itemId)
            case Some(a) => a.cost * a.taxRate
            case None => item.cost * item.taxRate
  {
  }

  // ---------------------------------------------------------------------
  // The service's own examples.
  // ---------------------------------------------------------------------

  /** The service's examples without amendments: 100 * 0.2 gives 20, and 0.01 * 0.2 = 0.002 rounds to 0. */
  lemma OwnValueExamples()
    ensures Calculation([Sale("2024-01-01T00:00:00Z", "INV1", [Item("ITEM1", 100.0, 0.2)])], []) == Ok(20)
    ensures Calculation([Sale("2024-01-01T00:00:00Z", "INV1", [Item("ITEM1", 0.01, 0.2)])], []) == Ok(0)
  {
  }

  /**
   * The service's amendment examples: 150 * 0.15 = 22.5 rounds to 23, and of
   * two amendments for the same item the later one (200 * 0.1) decides.
   */
  lemma AmendedExamples()
    ensures Calculation([Sale("2024-01-01T00:00:00Z", "INV1", [Item("ITEM1", 100.0, 0.2)])],
                        [SaleAmendment("2024-01-02T00:00:00Z", "INV1", "ITEM1", 150.0, 0.15)]) == Ok(23)
    ensures Calculation([Sale("2024-01-01T00:00:00Z", "INV1", [Item("ITEM1", 100.0, 0.2)])],
                        [SaleAmendment("2024-01-02T00:00:00Z", "INV1", "ITEM1", 150.0, 0.15),
                         SaleAmendment("2024-01-03T00:00:00Z", "INV1", "ITEM1", 200.0, 0.1)]) == Ok(20)
  {
    var sale := [Sale("2024-01-01T00:00:00Z", "INV1", [Item("ITEM1", 100.0, 0.2)])];
    var a1 := SaleAmendment("2024-01-02T00:00:00Z", "INV1", "ITEM1", 150.0, 0.15);
    var a2 := SaleAmendment("2024-01-03T00:00:00Z", "INV1", "ITEM1", 200.0, 0.1);
    assert Lookup(BuildIndex([a1]), "INV1", "ITEM1") == Some(a1) by { LatestWins([], a1); }
    assert Lookup(BuildIndex([a1, a2]), "INV1", "ITEM1") == Some(a2) by {
      LatestWins([a1], a2);
      assert [a1] + [a2] == [a1, a2];
    }
    CalculationClosedForm(sale, [a1]);
    CalculationClosedForm(sale, [a1, a2]);
  }

  /**
   * The service's amendment examples with several items: in one sale only the
   * amended item changes (22.5 + 5 = 27.5 rounds to 28), and an amendment dated
   * between two sales still applies to the earlier one (22.5 + 40 = 62.5 rounds to 63).
   */
  lemma MixedAmendmentExamples()
    ensures Calculation([Sale("2024-01-01T00:00:00Z", "INV1", [Item("ITEM1", 100.0, 0.2), Item("ITEM2", 50.0, 0.1)])],
                        [SaleAmendment("2024-01-02T00:00:00Z", "INV1", "ITEM1", 150.0, 0.15)]) == Ok(28)
    ensures Calculation([Sale("2024-01-01T00:00:00Z", "INV1", [Item("ITEM1", 100.0, 0.2)]),
                         Sale("2024-01-03T00:00:00Z", "INV2", [Item("ITEM2", 200.0, 0.2)])],
                        [SaleAmendment("2024-01-02T00:00:00Z", "INV1", "ITEM1", 150.0, 0.15)]) == Ok(63)
  {
    var a := SaleAmendment("2024-01-02T00:00:00Z", "INV1", "ITEM1", 150.0, 0.15);
    assert Lookup(BuildIndex([a]), "INV1", "ITEM1") == Some(a) by { LatestWins([], a); }
    assert Lookup(BuildIndex([a]), "INV1", "ITEM2") == None;
    assert Lookup(BuildIndex([a]), "INV2", "ITEM2") == None;
    CalculationClosedForm([Sale("2024-01-01T00:00:00Z", "INV1", [Item("ITEM1", 100.0, 0.2), Item("ITEM2", 50.0, 0.1)])], [a]);
    CalculationClosedForm([Sale("2024-01-01T00:00:00Z", "INV1", [Item("ITEM1", 100.0, 0.2)]),
                           Sale("2024-01-03T00:00:00Z", "INV2", [Item("ITEM2", 200.0, 0.2)])], [a]);
  }

  /**
   * The service's error examples: a negative payment, and an item with a
   * negative original cost. The service's own example has no amendment; one
   * is added here to show that the range check reads the original values.
   */
  lemma ErrorExamples()
    ensures Calculation([Sale("2024-01-01T00:00:00Z", "INV1", [Item("ITEM1", -100.0, 0.2)])],
                        [SaleAmendment("2024-01-02T00:00:00Z", "INV1", "ITEM1", 150.0, 0.15)]) == Err(InvalidItem("ITEM1"))
    ensures Calculation([TaxPayment("2024-01-01T00:00:00Z", -100.0)], []) == Err(InvalidPayment)
  {
  }
}
