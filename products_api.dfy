/**
 * The products client: products and their prices. Single entities are read
 * from the raw body; deletes succeed exactly on status 200; a new product is
 * scoped by the location named in its own payload.
 */
module ProductsApi {
  import opened Wrappers
  import opened Json
  import opened Http
  import opened Marshal

  /** `get_products`: GET /products/ with the page query, read under "products". */
  method GetProducts(send: Transport, locationId: string, limit: int, skip: int) returns (c: Call<Page>)
    ensures |c.trace| == 1
    ensures c.trace[0].verb == GET && c.trace[0].path == "/products/"
    ensures c.trace[0].body == None && c.trace[0].scope == Some(locationId)
    ensures IsPageQuery(c.trace[0].query, limit, skip)
    ensures c.result == PageReply(send(c.trace[0]), "products")
  {
    var params := PageQuery(limit, skip);
    var req := Request(GET, "/products/", params, None, Some(locationId));
    c := Call([req], PageReply(send(req), "products"));
  }

  /** `get_product`: GET /products/{id}, the raw body. */
  function GetProduct(send: Transport, productId: string, locationId: string): (c: Call<Model>)
    ensures c.trace == [Request(GET, "/products/" + productId, map[], None, Some(locationId))]
    ensures c.result == RawReply(send(c.trace[0]))
  {
    var req := Request(GET, "/products/" + productId, map[], None, Some(locationId));
    Call([req], RawReply(send(req)))
  }

  /** `create_product`: POST /products/ with the set fields, scoped by `product.locationId`. */
  function CreateProduct(send: Transport, product: Model): (c: Call<Model>)
    ensures c.trace == [Request(POST, "/products/", map[], Some(JObj(Dump(product))), ScopeOf(product))]
    ensures c.result == RawReply(send(c.trace[0]))
  {
    var req := Request(POST, "/products/", map[], Some(JObj(Dump(product))), ScopeOf(product));
    Call([req], RawReply(send(req)))
  }

  /** The product's own location is both the scope of its creation and a field of the body sent. */
  lemma CreateProductScopedByPayload(send: Transport, product: Model, locationId: string)
    requires "locationId" in product && product["locationId"] == JStr(locationId)
    ensures CreateProduct(send, product).trace[0].scope == Some(locationId)
    ensures Dump(product)["locationId"] == JStr(locationId)
  {
  }

  /** `update_product`: PUT /products/{id} with the set fields. */
  function UpdateProduct(send: Transport, productId: string, updates: Model, locationId: string): (c: Call<Model>)
    ensures c.trace == [Request(PUT, "/products/" + productId, map[], Some(JObj(Dump(updates))), Some(locationId))]
    ensures c.result == RawReply(send(c.trace[0]))
  {
    var req := Request(PUT, "/products/" + productId, map[], Some(JObj(Dump(updates))), Some(locationId));
    Call([req], RawReply(send(req)))
  }

  /** `delete_product`: DELETE /products/{id}; true exactly on status 200. */
  function DeleteProduct(send: Transport, productId: string, locationId: string): (c: Call<bool>)
    ensures c.trace == [Request(DELETE, "/products/" + productId, map[], None, Some(locationId))]
    ensures c.result.Ok? <==> send(c.trace[0]).Ok?
    ensures c.result.Ok? ==> (c.result.value <==> send(c.trace[0]).value.status == 200)
  {
    var req := Request(DELETE, "/products/" + productId, map[], None, Some(locationId));
    Call([req], StatusReply(send(req), {200}))
  }

  /** `get_product_prices`: GET /products/{id}/price/ with the page query, read under "prices". */
  method GetProductPrices(send: Transport, productId: string, locationId: string, limit: int, skip: int)
    returns (c: Call<Page>)
    ensures |c.trace| == 1
    ensures c.trace[0].verb == GET && c.trace[0].path == "/products/" + productId + "/price/"
    ensures c.trace[0].body == None && c.trace[0].scope == Some(locationId)
    ensures IsPageQuery(c.trace[0].query, limit, skip)
    ensures c.result == PageReply(send(c.trace[0]), "prices")
  {
    var params := PageQuery(limit, skip);
    var req := Request(GET, "/products/" + productId + "/price/", params, None, Some(locationId));
    c := Call([req], PageReply(send(req), "prices"));
  }

  /** `get_product_price`: GET /products/{id}/price/{price}, the raw body. */
  function GetProductPrice(send: Transport, productId: string, priceId: string, locationId: string): (c: Call<Model>)
    ensures c.trace == [Request(GET, "/products/" + productId + "/price/" + priceId, map[], None, Some(locationId))]
    ensures c.result == RawReply(send(c.trace[0]))
  {
    var req := Request(GET, "/products/" + productId + "/price/" + priceId, map[], None, Some(locationId));
    Call([req], RawReply(send(req)))
  }

  /** `create_product_price`: POST /products/{id}/price/ with the set fields. */
  function CreateProductPrice(send: Transport, productId: string, price: Model, locationId: string): (c: Call<Model>)
    ensures c.trace == [Request(POST, "/products/" + productId + "/price/", map[], Some(JObj(Dump(price))), Some(locationId))]
    ensures c.result == RawReply(send(c.trace[0]))
  {
    var req := Request(POST, "/products/" + productId + "/price/", map[], Some(JObj(Dump(price))), Some(locationId));
    Call([req], RawReply(send(req)))
  }

  /** `update_product_price`: PUT /products/{id}/price/{price} with the set fields. */
  function UpdateProductPrice(send: Transport, productId: string, priceId: string, updates: Model, locationId: string)
    : (c: Call<Model>)
    ensures c.trace == [Request(PUT, "/products/" + productId + "/price/" + priceId, map[], Some(JObj(Dump(updates))), Some(locationId))]
    ensures c.result == RawReply(send(c.trace[0]))
  {
    var req := Request(PUT, "/products/" + productId + "/price/" + priceId, map[], Some(JObj(Dump(updates))), Some(locationId));
    Call([req], RawReply(send(req)))
  }

  /** `delete_product_price`: DELETE /products/{id}/price/{price}; true exactly on status 200. */
  function DeleteProductPrice(send: Transport, productId: string, priceId: string, locationId: string): (c: Call<bool>)
    ensures c.trace == [Request(DELETE, "/products/" + productId + "/price/" + priceId, map[], None, Some(locationId))]
    ensures c.result.Ok? <==> send(c.trace[0]).Ok?
    ensures c.result.Ok? ==> (c.result.value <==> send(c.trace[0]).value.status == 200)
  {
    var req := Request(DELETE, "/products/" + productId + "/price/" + priceId, map[], None, Some(locationId));
    Call([req], StatusReply(send(req), {200}))
  }
}
