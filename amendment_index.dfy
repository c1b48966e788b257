/**
 * The two-level amendment index the calculator builds before folding the
 * transactions: invoiceId -> itemId -> amendment, filled in input order so
 * that a later amendment for the same key overwrites an earlier one.
 */
module AmendmentIndex {
  import opened Results
  import opened TaxTypes

  type Index = map<string, map<string, SaleAmendment>>

  /** The amendment indexed under (invoiceId, itemId), if any. */
  function Lookup(idx: Index, invoiceId: string, itemId: string): Option<SaleAmendment>
  {
    if invoiceId in idx && itemId in idx[invoiceId] then Some(idx[invoiceId][itemId]) else None
  }

  /**
   * Index one amendment: create the invoice's inner map when it is missing,
   * then set the item's entry, overwriting any earlier one.
   */
  function Insert(idx: Index, a: SaleAmendment): (r: Index)
    ensures forall invoiceId, itemId ::
      Lookup(r, invoiceId, itemId) == if Targets(a, invoiceId, itemId) then Some(a) else Lookup(idx, invoiceId, itemId)
  {
    var inner := if a.invoiceId in idx then idx[a.invoiceId] else map[];
    idx[a.invoiceId := inner[a.itemId := a]]
  }

  /** The index after inserting every amendment of `ams`, first to last. */
  function BuildIndex(ams: seq<SaleAmendment>): (r: Index)
    ensures forall invoiceId, itemId :: Lookup(r, invoiceId, itemId) == LastAmendment(ams, invoiceId, itemId)
    decreases |ams|
  {
    if ams == [] then map[] else Insert(BuildIndex(ams[..|ams| - 1]), ams[|ams| - 1])
  }

  /**
   * The position of the last amendment of `ams` that targets (invoiceId, itemId),
   * or -1 when none does.
   */
  function LastIndex(ams: seq<SaleAmendment>, invoiceId: string, itemId: string): (r: int)
    ensures -1 <= r < |ams|
    ensures r >= 0 ==> Targets(ams[r], invoiceId, itemId)
    ensures forall j :: r < j < |ams| ==> !Targets(ams[j], invoiceId, itemId)
    decreases |ams|
  {
    if ams == [] then -1
    else if Targets(ams[|ams| - 1], invoiceId, itemId) then |ams| - 1
    else LastIndex(ams[..|ams| - 1], invoiceId, itemId)
  }

  /** The effective amendment for (invoiceId, itemId): the last one in input order. */
  function LastAmendment(ams: seq<SaleAmendment>, invoiceId: string, itemId: string): Option<SaleAmendment>
  {
    var k := LastIndex(ams, invoiceId, itemId);
    if k < 0 then None else Some(ams[k])
  }

  /** An amendment for the same key appended at the end wins over every earlier one. */
  lemma LatestWins(ams: seq<SaleAmendment>, a: SaleAmendment)
    ensures Lookup(BuildIndex(ams + [a]), a.invoiceId, a.itemId) == Some(a)
  {
  }

  /**
   * Inserting an amendment for another key anywhere in the list changes no
   * effective amendment.
   */
  lemma {:induction false} OtherKeyInert(ams1: seq<SaleAmendment>, a: SaleAmendment, ams2: seq<SaleAmendment>, invoiceId: string, itemId: string)
    requires !Targets(a, invoiceId, itemId)
    ensures LastAmendment(ams1 + [a] + ams2, invoiceId, itemId) == LastAmendment(ams1 + ams2, invoiceId, itemId)
    decreases |ams2|
  {
    var s, t := ams1 + [a] + ams2, ams1 + ams2;
    if ams2 == [] {
      assert s[..|s| - 1] == ams1 && t == ams1;
    } else {
      var last := ams2[|ams2| - 1];
      var prefix := ams2[..|ams2| - 1];
      assert s[|s| - 1] == last && t[|t| - 1] == last;
      assert s[..|s| - 1] == ams1 + [a] + prefix;
      assert t[..|t| - 1] == ams1 + prefix;
      if !Targets(last, invoiceId, itemId) {
        OtherKeyInert(ams1, a, prefix, invoiceId, itemId);
      }
    }
  }

  /**
   * Changing the date of one amendment changes no effective cost or tax rate:
   * the index is keyed by (invoiceId, itemId) only, and dates are never compared.
   */
  lemma {:induction false} DateIgnored(ams1: seq<SaleAmendment>, a: SaleAmendment, ams2: seq<SaleAmendment>, date: string, invoiceId: string, itemId: string)
    ensures var before := LastAmendment(ams1 + [a] + ams2, invoiceId, itemId);
            var after := LastAmendment(ams1 + [a.(date := date)] + ams2, invoiceId, itemId);
            before.Some? == after.Some? &&
            (before.Some? ==> before.value.(date := date) == after.value.(date := date))
    decreases |ams2|
  {
    var b := a.(date := date);
    var s, t := ams1 + [a] + ams2, ams1 + [b] + ams2;
    if ams2 == [] {
      assert s[..|s| - 1] == ams1 && t[..|t| - 1] == ams1;
    } else {
      var last := ams2[|ams2| - 1];
      var prefix := ams2[..|ams2| - 1];
      assert s[|s| - 1] == last && t[|t| - 1] == last;
      assert s[..|s| - 1] == ams1 + [a] + prefix;
      assert t[..|t| - 1] == ams1 + [b] + prefix;
      if !Targets(last, invoiceId, itemId) {
        DateIgnored(ams1, a, prefix, date, invoiceId, itemId);
      }
    }
  }

  /**
   * When the amendments arrive in ascending date order (the order the store
   * returns them in), the effective amendment for a key is dated no earlier
   * than any other amendment for that key; `atOrBefore` is the timestamp order.
   */
  lemma LatestByDate(ams: seq<SaleAmendment>, atOrBefore: (string, string) -> bool, invoiceId: string, itemId: string)
    requires forall i, j :: 0 <= i < j < |ams| ==> atOrBefore(ams[i].date, ams[j].date)
    ensures LastAmendment(ams, invoiceId, itemId).Some? <==> exists k :: 0 <= k < |ams| && Targets(ams[k], invoiceId, itemId)
    ensures LastAmendment(ams, invoiceId, itemId).Some? ==>
              forall k :: 0 <= k < |ams| && Targets(ams[k], invoiceId, itemId) ==>
                ams[k] == LastAmendment(ams, invoiceId, itemId).value ||
                atOrBefore(ams[k].date, LastAmendment(ams, invoiceId, itemId).value.date)
  {
  }
}
