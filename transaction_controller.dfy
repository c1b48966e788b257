/**
 * Ingestion of one financial event (POST /transactions): ordered presence
 * checks on the JSON body, then the body is stored as it is.
 */
module TransactionController {
  import opened Results
  import opened JsValues

  const InvalidTransaction := "Invalid transaction payload"
  const InvalidSales := "Invalid sales event payload"
  const InvalidTaxPayment := "Invalid tax payment event payload"

  /**
   * The declarative shape the checks accept: a truthy eventType and date; a
   * SALES event also needs a truthy invoiceId and items; a TAX_PAYMENT event
   * needs an amount that is not undefined. Any other eventType passes.
   */
  predicate Acceptable(body: JsValue)
  {
    && Truthy(Field(body, "eventType"))
    && Truthy(Field(body, "date"))
    && (Field(body, "eventType") == Str("SALES") ==> Truthy(Field(body, "invoiceId")) && Truthy(Field(body, "items")))
    && (Field(body, "eventType") == Str("TAX_PAYMENT") ==> Field(body, "amount") != Undefined)
  }

  /**
   * The handler: a null or absent body makes the first property read throw,
   * which the catch answers with 500; each failed check answers 400 with its
   * message and returns early; otherwise the body goes to the store, which
   * answers 202 or, when it throws, 500.
   */
  function IngestTransaction(body: JsValue, storeSucceeds: bool): (r: Outcome)
    ensures !Readable(body) ==> r == ThrewBeforeStore
    ensures r.stored.Some? <==> Readable(body) && Acceptable(body)
    ensures r.stored.Some? ==> r.stored.value == body
    ensures r.response.status == 202 <==> Readable(body) && Acceptable(body) && storeSucceeds
    ensures r.response.status == 500 <==> !Readable(body) || (Acceptable(body) && !storeSucceeds)
    ensures r.response.status == 500 ==> r.response.error == Some(InternalError)
    ensures r.response.status == 400 <==> Readable(body) && !Acceptable(body)
    ensures r.response.status == 400 ==>
              r.response.error in {Some(InvalidTransaction), Some(InvalidSales), Some(InvalidTaxPayment)}
  {
    if !Readable(body) then
      ThrewBeforeStore
    else
      var eventType := Field(body, "eventType");
      if !Truthy(eventType) || !Truthy(Field(body, "date")) then
        BadRequest(InvalidTransaction)
      else if eventType == Str("SALES") && (!Truthy(Field(body, "invoiceId")) || !Truthy(Field(body, "items"))) then
        BadRequest(InvalidSales)
      else if eventType == Str("TAX_PAYMENT") && Field(body, "amount") == Undefined then
        BadRequest(InvalidTaxPayment)
      else
        StoreAndRespond(body, storeSucceeds)
  }

  /**
   * A falsy eventType or date is reported as "Invalid transaction payload"
   * before any check specific to the event type, and the store is not called.
   */
  lemma MissingHeaderFirst(body: JsValue, storeSucceeds: bool)
    requires Readable(body)
    requires !Truthy(Field(body, "eventType")) || !Truthy(Field(body, "date"))
    ensures IngestTransaction(body, storeSucceeds) == Outcome(None, Response(400, Some(InvalidTransaction)))
  {
  }

  /**
   * A SALES event with truthy eventType and date is rejected with "Invalid
   * sales event payload" exactly when its invoiceId or items is falsy; an
   * empty items array is truthy and passes.
   */
  lemma SalesPresence(body: JsValue, storeSucceeds: bool)
    requires Field(body, "eventType") == Str("SALES") && Truthy(Field(body, "date"))
    ensures IngestTransaction(body, storeSucceeds).response.error == Some(InvalidSales)
            <==> !Truthy(Field(body, "invoiceId")) || !Truthy(Field(body, "items"))
    ensures Truthy(Field(body, "invoiceId")) && Field(body, "items") == Arr([]) ==>
              IngestTransaction(body, storeSucceeds).stored == Some(body)
  {
  }

  /**
   * A TAX_PAYMENT event with truthy date is rejected only when amount is
   * undefined; zero, negative and even null amounts reach the store.
   */
  lemma PaymentPresence(body: JsValue, storeSucceeds: bool)
    requires Field(body, "eventType") == Str("TAX_PAYMENT") && Truthy(Field(body, "date"))
    ensures IngestTransaction(body, storeSucceeds).stored.None? <==> Field(body, "amount") == Undefined
    ensures Field(body, "amount") == Undefined ==>
              IngestTransaction(body, storeSucceeds) == Outcome(None, Response(400, Some(InvalidTaxPayment)))
  {
  }

  /** An eventType other than SALES or TAX_PAYMENT is stored unchecked once eventType and date are truthy. */
  lemma OtherEventTypeStored(body: JsValue, storeSucceeds: bool)
    requires Truthy(Field(body, "eventType")) && Truthy(Field(body, "date"))
    requires Field(body, "eventType") != Str("SALES") && Field(body, "eventType") != Str("TAX_PAYMENT")
    ensures IngestTransaction(body, storeSucceeds).stored == Some(body)
  {
  }
}
