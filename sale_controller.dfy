/**
 * Amendment of one sale line item (PATCH /sale): presence checks on five
 * fields, a date-format check, then the projection of the body onto those
 * five fields is stored.
 */
module SaleController {
  import opened Results
  import opened JsValues

  const InvalidAmendment := "Invalid amendment payload"
  const InvalidDate := "Invalid date format. Must be ISO 8601"

  /** The fields an amendment is made of, in the order the handler copies them. */
  const AmendmentFields: seq<string> := ["date", "invoiceId", "itemId", "cost", "taxRate"]

  /**
   * The presence check: date, invoiceId and itemId must be truthy; cost and
   * taxRate need only be defined, so 0, negative or out-of-range numbers pass.
   */
  predicate Complete(body: JsValue)
  {
    && Truthy(Field(body, "date"))
    && Truthy(Field(body, "invoiceId"))
    && Truthy(Field(body, "itemId"))
    && Field(body, "cost") != Undefined
    && Field(body, "taxRate") != Undefined
  }

  /** The object literal the handler builds: the five fields of the body, nothing else. */
  function Project(body: JsValue): (r: JsValue)
    ensures r.Obj? && r.fields.Keys == set k | k in AmendmentFields
    ensures forall k :: k in AmendmentFields ==> Field(r, k) == Field(body, k)
  {
    Obj(map[
      "date" := Field(body, "date"),
      "invoiceId" := Field(body, "invoiceId"),
      "itemId" := Field(body, "itemId"),
      "cost" := Field(body, "cost"),
      "taxRate" := Field(body, "taxRate")])
  }

  /**
   * The handler. A null or absent body makes the first property read throw,
   * which the catch answers with 500. `dateParses` stands for `!isNaN(Date.parse(date))`, which
   * this model does not interpret; `storeSucceeds` says whether the store call
   * returns or throws.
   */
  function AmendSale(body: JsValue, dateParses: JsValue -> bool, storeSucceeds: bool): (r: Outcome)
    ensures !Readable(body) ==> r == ThrewBeforeStore
    ensures r.stored.Some? <==> Readable(body) && Complete(body) && dateParses(Field(body, "date"))
    ensures r.stored.Some? ==> r.stored.value == Project(body)
    ensures r.response.status == 202 <==> r.stored.Some? && storeSucceeds
    ensures r.response.status == 500 <==> !Readable(body) || (r.stored.Some? && !storeSucceeds)
    ensures r.response.status == 500 ==> r.response.error == Some(InternalError)
    ensures Readable(body) && !Complete(body) ==> r == Outcome(None, Response(400, Some(InvalidAmendment)))
    ensures Complete(body) && !dateParses(Field(body, "date")) ==> r == Outcome(None, Response(400, Some(InvalidDate)))
  {
    if !Readable(body) then
      ThrewBeforeStore
    else if !Complete(body) then
      BadRequest(InvalidAmendment)
    else if !dateParses(Field(body, "date")) then
      BadRequest(InvalidDate)
    else
      StoreAndRespond(Project(body), storeSucceeds)
  }

  /**
   * The stored amendment holds exactly the five amendment fields, each copied
   * unchanged and none of them undefined; any other field of the body is dropped.
   */
  lemma StoredAmendmentShape(body: JsValue, dateParses: JsValue -> bool, storeSucceeds: bool)
    ensures var r := AmendSale(body, dateParses, storeSucceeds);
            r.stored.Some? ==>
              && r.stored.value.fields.Keys == {"date", "invoiceId", "itemId", "cost", "taxRate"}
              && (forall k :: k in r.stored.value.fields ==> r.stored.value.fields[k] == Field(body, k) && r.stored.value.fields[k] != Undefined)
  {
    var r := AmendSale(body, dateParses, storeSucceeds);
    if r.stored.Some? {
      var p := Project(body);
      assert p.fields.Keys == {"date", "invoiceId", "itemId", "cost", "taxRate"} by {
        assert forall k :: k in AmendmentFields <==> k in {"date", "invoiceId", "itemId", "cost", "taxRate"};
      }
      forall k | k in p.fields
        ensures p.fields[k] == Field(body, k) && p.fields[k] != Undefined
      {
        assert Field(p, k) == p.fields[k];
      }
    }
  }

  /**
   * No numeric range check happens here: replacing a defined cost and tax rate
   * by any other defined values (a negative cost, a rate above 1) changes
   * neither whether the amendment is stored nor the response.
   */
  lemma NumbersNotChecked(fields: map<string, JsValue>, cost: JsValue, taxRate: JsValue, dateParses: JsValue -> bool, storeSucceeds: bool)
    requires Field(Obj(fields), "cost") != Undefined && Field(Obj(fields), "taxRate") != Undefined
    requires cost != Undefined && taxRate != Undefined
    ensures var r1 := AmendSale(Obj(fields), dateParses, storeSucceeds);
            var r2 := AmendSale(Obj(fields["cost" := cost]["taxRate" := taxRate]), dateParses, storeSucceeds);
            r1.response == r2.response && r1.stored.Some? == r2.stored.Some?
  {
    var body2 := Obj(fields["cost" := cost]["taxRate" := taxRate]);
    assert Field(body2, "date") == Field(Obj(fields), "date");
    assert Field(body2, "invoiceId") == Field(Obj(fields), "invoiceId");
    assert Field(body2, "itemId") == Field(Obj(fields), "itemId");
  }
}
