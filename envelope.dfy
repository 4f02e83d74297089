/**
 * The fixed result shapes the tool wrappers return: an entity under its key,
 * a list with its count and total, a whole list object under one key, and a
 * delete confirmation whose message follows the client's boolean.
 */
module Envelope {
  import opened Wrappers
  import opened Json
  import opened Http
  import opened Marshal

  /** `{"success": True, key: entity.model_dump()}` */
  function Entity(entity: Model, key: string): (e: Json)
    requires key != "success"
    ensures e.JObj? && e.fields.Keys == {"success", key}
    ensures e.fields["success"] == JBool(true) && e.fields[key] == JObj(entity)
  {
    JObj(map["success" := JBool(true), key := JObj(entity)])
  }

  /** `{"success": True, key: [x.model_dump() for x in page.items], "count": page.count, "total": page.total}` */
  function Listing(page: Page, key: string): (e: Json)
    requires key !in {"success", "count", "total"}
    ensures e.JObj? && e.fields.Keys == {"success", key, "count", "total"}
    ensures e.fields["success"] == JBool(true)
    ensures e.fields[key] == JArr(Objects(page.items))
    ensures e.fields["count"] == JInt(page.count) && e.fields["total"] == page.total
  {
    JObj(map["success" := JBool(true), key := JArr(Objects(page.items)),
             "count" := JInt(page.count), "total" := page.total])
  }

  /** `{"success": True, key: page.model_dump()}`: the list object, with its own items key, count and total, nested under `key`. */
  function Nested(page: Page, key: string, itemsKey: string): (e: Json)
    requires key != "success" && itemsKey !in {"count", "total"}
    ensures e.JObj? && e.fields.Keys == {"success", key}
    ensures e.fields["success"] == JBool(true)
    ensures e.fields[key] == JObj(map[itemsKey := JArr(Objects(page.items)),
                                      "count" := JInt(page.count), "total" := page.total])
  {
    JObj(map["success" := JBool(true),
             key := JObj(map[itemsKey := JArr(Objects(page.items)), "count" := JInt(page.count), "total" := page.total])])
  }

  /** `{"success": success, "message": okMessage if success else failMessage}` */
  function Deletion(success: bool, okMessage: string, failMessage: string): (e: Json)
    ensures e.JObj? && e.fields.Keys == {"success", "message"}
    ensures e.fields["success"] == JBool(success)
    ensures success ==> e.fields["message"] == JStr(okMessage)
    ensures !success ==> e.fields["message"] == JStr(failMessage)
  {
    JObj(map["success" := JBool(success), "message" := JStr(if success then okMessage else failMessage)])
  }

  /** The entity envelope of a client outcome; a raised error propagates. */
  function EntityOf(r: Result<Model, Error>, key: string): (e: Result<Json, Error>)
    requires key != "success"
    ensures r.Err? ==> e == Err(r.error)
    ensures r.Ok? ==> e == Ok(Entity(r.value, key))
  {
    if r.Err? then Err(r.error) else Ok(Entity(r.value, key))
  }

  /** The list envelope of a client outcome. */
  function ListingOf(r: Result<Page, Error>, key: string): (e: Result<Json, Error>)
    requires key !in {"success", "count", "total"}
    ensures r.Err? ==> e == Err(r.error)
    ensures r.Ok? ==> e == Ok(Listing(r.value, key))
  {
    if r.Err? then Err(r.error) else Ok(Listing(r.value, key))
  }

  /** The nested list envelope of a client outcome. */
  function NestedOf(r: Result<Page, Error>, key: string, itemsKey: string): (e: Result<Json, Error>)
    requires key != "success" && itemsKey !in {"count", "total"}
    ensures r.Err? ==> e == Err(r.error)
    ensures r.Ok? ==> e == Ok(Nested(r.value, key, itemsKey))
  {
    if r.Err? then Err(r.error) else Ok(Nested(r.value, key, itemsKey))
  }

  /** The delete envelope of a client outcome. */
  function DeletionOf(r: Result<bool, Error>, okMessage: string, failMessage: string): (e: Result<Json, Error>)
    ensures r.Err? ==> e == Err(r.error)
    ensures r.Ok? ==> e == Ok(Deletion(r.value, okMessage, failMessage))
  {
    if r.Err? then Err(r.error) else Ok(Deletion(r.value, okMessage, failMessage))
  }

  /** The delete envelope's message tells which way it went: it is the success text exactly when success is reported. */
  lemma DeletionMessageMatchesSuccess(success: bool, okMessage: string, failMessage: string)
    requires okMessage != failMessage
    ensures Deletion(success, okMessage, failMessage).fields["message"] == JStr(okMessage) <==> success
  {
  }

  /** The list envelope reports as many items as it carries. */
  lemma ListingCountMatchesItems(resp: Response, key: string)
    requires key !in {"success", "count", "total"}
    requires DecodePage(resp, key).Ok?
    ensures var e := Listing(DecodePage(resp, key).value, key);
            e.fields["count"] == JInt(|e.fields[key].items|)
  {
  }
}
