/**
 * The payments client: orders, their fulfillments, subscriptions,
 * transactions and the white-label provider integration. Every request is
 * scoped to the location, which never appears in the query itself. Single
 * entities are read from the raw body.
 */
module PaymentsApi {
  import opened Wrappers
  import opened Json
  import opened Http
  import opened Marshal

  /** A fulfillment to record on an order; every field is optional. */
  datatype FulfillmentCreate = FulfillmentCreate(
    trackingNumber: Option<string>,
    trackingUrl: Option<string>,
    carrier: Option<string>,
    items: Option<seq<Model>>,
    notify: Option<bool>)

  /** A white-label provider integration; `isActive` is True unless the caller says otherwise. */
  datatype IntegrationCreate = IntegrationCreate(
    provider: string,
    configuration: Model,
    credentials: Option<Model>,
    webhookUrl: Option<string>,
    isActive: Option<bool>)

  /** An integration with only the required fields given. */
  function DefaultIntegration(provider: string, configuration: Model): IntegrationCreate {
    IntegrationCreate(provider, configuration, None, None, Some(true))
  }

  function FulfillmentFields(f: FulfillmentCreate): Model {
    map["trackingNumber" := Str(f.trackingNumber), "trackingUrl" := Str(f.trackingUrl),
        "carrier" := Str(f.carrier),
        "items" := (if f.items.None? then JNull else JArr(Objects(f.items.value))),
        "notify" := Bool(f.notify)]
  }

  function IntegrationFields(i: IntegrationCreate): Model {
    map["provider" := JStr(i.provider), "configuration" := JObj(i.configuration),
        "credentials" := (if i.credentials.None? then JNull else JObj(i.credentials.value)),
        "webhookUrl" := Str(i.webhookUrl), "isActive" := Bool(i.isActive)]
  }

  /** The fulfillment body holds exactly the fields the caller set. */
  lemma FulfillmentBodyHoldsSetFields(f: FulfillmentCreate)
    ensures "trackingNumber" in Dump(FulfillmentFields(f)) <==> f.trackingNumber.Some?
    ensures "trackingUrl" in Dump(FulfillmentFields(f)) <==> f.trackingUrl.Some?
    ensures "carrier" in Dump(FulfillmentFields(f)) <==> f.carrier.Some?
    ensures "items" in Dump(FulfillmentFields(f)) <==> f.items.Some?
    ensures "notify" in Dump(FulfillmentFields(f)) <==> f.notify.Some?
    ensures Dump(FulfillmentFields(f)).Keys <= {"trackingNumber", "trackingUrl", "carrier", "items", "notify"}
  {
  }

  /** An integration given only its provider and configuration is sent with `isActive: true` as well. */
  lemma DefaultIntegrationBody(provider: string, configuration: Model)
    ensures Dump(IntegrationFields(DefaultIntegration(provider, configuration))) ==
      map["provider" := JStr(provider), "configuration" := JObj(configuration), "isActive" := JBool(true)]
  {
    var m := IntegrationFields(DefaultIntegration(provider, configuration));
    DumpKeepsExactlySetFields(m, {"provider", "configuration", "isActive"});
  }

  /** `get_payment_orders`: GET /payments/orders/ with the page query, read under "orders". */
  method GetPaymentOrders(send: Transport, locationId: string, limit: int, skip: int) returns (c: Call<Page>)
    ensures |c.trace| == 1
    ensures c.trace[0].verb == GET && c.trace[0].path == "/payments/orders/"
    ensures c.trace[0].body == None && c.trace[0].scope == Some(locationId)
    ensures IsPageQuery(c.trace[0].query, limit, skip) && "locationId" !in c.trace[0].query
    ensures c.result == PageReply(send(c.trace[0]), "orders")
  {
    var params := PageQuery(limit, skip);
    var req := Request(GET, "/payments/orders/", params, None, Some(locationId));
    c := Call([req], PageReply(send(req), "orders"));
  }

  /** `get_payment_order`: GET /payments/orders/{id}, the raw body. */
  function GetPaymentOrder(send: Transport, orderId: string, locationId: string): (c: Call<Model>)
    ensures c.trace == [Request(GET, "/payments/orders/" + orderId, map[], None, Some(locationId))]
    ensures c.result == RawReply(send(c.trace[0]))
  {
    var req := Request(GET, "/payments/orders/" + orderId, map[], None, Some(locationId));
    Call([req], RawReply(send(req)))
  }

  /** `get_order_fulfillments`: GET /payments/orders/{id}/fulfillments, read under "fulfillments". */
  method GetOrderFulfillments(send: Transport, orderId: string, locationId: string, limit: int, skip: int)
    returns (c: Call<Page>)
    ensures |c.trace| == 1
    ensures c.trace[0].verb == GET && c.trace[0].path == "/payments/orders/" + orderId + "/fulfillments"
    ensures c.trace[0].body == None && c.trace[0].scope == Some(locationId)
    ensures IsPageQuery(c.trace[0].query, limit, skip)
    ensures c.result == PageReply(send(c.trace[0]), "fulfillments")
  {
    var params := PageQuery(limit, skip);
    var req := Request(GET, "/payments/orders/" + orderId + "/fulfillments", params, None, Some(locationId));
    c := Call([req], PageReply(send(req), "fulfillments"));
  }

  /** `create_order_fulfillment`: POST to the same fulfillments path with the set fields, the raw body back. */
  function CreateOrderFulfillment(send: Transport, orderId: string, fulfillment: FulfillmentCreate, locationId: string)
    : (c: Call<Model>)
    ensures c.trace == [Request(POST, "/payments/orders/" + orderId + "/fulfillments", map[],
                                Some(JObj(Dump(FulfillmentFields(fulfillment)))), Some(locationId))]
    ensures c.result == RawReply(send(c.trace[0]))
  {
    var req := Request(POST, "/payments/orders/" + orderId + "/fulfillments", map[],
                       Some(JObj(Dump(FulfillmentFields(fulfillment)))), Some(locationId));
    Call([req], RawReply(send(req)))
  }

  /** `get_payment_subscriptions`: GET /payments/subscriptions/, read under "subscriptions". */
  method GetPaymentSubscriptions(send: Transport, locationId: string, limit: int, skip: int) returns (c: Call<Page>)
    ensures |c.trace| == 1
    ensures c.trace[0].verb == GET && c.trace[0].path == "/payments/subscriptions/"
    ensures c.trace[0].body == None && c.trace[0].scope == Some(locationId)
    ensures IsPageQuery(c.trace[0].query, limit, skip) && "locationId" !in c.trace[0].query
    ensures c.result == PageReply(send(c.trace[0]), "subscriptions")
  {
    var params := PageQuery(limit, skip);
    var req := Request(GET, "/payments/subscriptions/", params, None, Some(locationId));
    c := Call([req], PageReply(send(req), "subscriptions"));
  }

  /** `get_payment_subscription`: GET /payments/subscriptions/{id}, the raw body. */
  function GetPaymentSubscription(send: Transport, subscriptionId: string, locationId: string): (c: Call<Model>)
    ensures c.trace == [Request(GET, "/payments/subscriptions/" + subscriptionId, map[], None, Some(locationId))]
    ensures c.result == RawReply(send(c.trace[0]))
  {
    var req := Request(GET, "/payments/subscriptions/" + subscriptionId, map[], None, Some(locationId));
    Call([req], RawReply(send(req)))
  }

  /** `get_payment_transactions`: GET /payments/transactions/, read under "transactions". */
  method GetPaymentTransactions(send: Transport, locationId: string, limit: int, skip: int) returns (c: Call<Page>)
    ensures |c.trace| == 1
    ensures c.trace[0].verb == GET && c.trace[0].path == "/payments/transactions/"
    ensures c.trace[0].body == None && c.trace[0].scope == Some(locationId)
    ensures IsPageQuery(c.trace[0].query, limit, skip) && "locationId" !in c.trace[0].query
    ensures c.result == PageReply(send(c.trace[0]), "transactions")
  {
    var params := PageQuery(limit, skip);
    var req := Request(GET, "/payments/transactions/", params, None, Some(locationId));
    c := Call([req], PageReply(send(req), "transactions"));
  }

  /** `get_payment_transaction`: GET /payments/transactions/{id}, the raw body. */
  function GetPaymentTransaction(send: Transport, transactionId: string, locationId: string): (c: Call<Model>)
    ensures c.trace == [Request(GET, "/payments/transactions/" + transactionId, map[], None, Some(locationId))]
    ensures c.result == RawReply(send(c.trace[0]))
  {
    var req := Request(GET, "/payments/transactions/" + transactionId, map[], None, Some(locationId));
    Call([req], RawReply(send(req)))
  }

  const IntegrationPath := "/payments/integrations/provider/whitelabel"

  /** `get_payment_integration`: GET the white-label integration, the raw body. */
  function GetPaymentIntegration(send: Transport, locationId: string): (c: Call<Model>)
    ensures c.trace == [Request(GET, "/payments/integrations/provider/whitelabel", map[], None, Some(locationId))]
    ensures c.result == RawReply(send(c.trace[0]))
  {
    var req := Request(GET, IntegrationPath, map[], None, Some(locationId));
    Call([req], RawReply(send(req)))
  }

  /** `create_payment_integration`: POST the set fields to the same path, the raw body back. */
  function CreatePaymentIntegration(send: Transport, integration: IntegrationCreate, locationId: string): (c: Call<Model>)
    ensures c.trace == [Request(POST, "/payments/integrations/provider/whitelabel", map[],
                                Some(JObj(Dump(IntegrationFields(integration)))), Some(locationId))]
    ensures c.result == RawReply(send(c.trace[0]))
  {
    var req := Request(POST, IntegrationPath, map[], Some(JObj(Dump(IntegrationFields(integration)))), Some(locationId));
    Call([req], RawReply(send(req)))
  }
}
