/**
 * The business tools. An address object is sent only when one of its six
 * fields is truthy, and custom fields only when the dict is non-empty, as a
 * list of `{"key", "value"}` objects.
 */
module BusinessesTools {
  import opened Wrappers
  import opened Json
  import opened Http
  import opened Marshal
  import opened Envelope
  import CustomFields
  import BusinessesApi

  /** The address part of the business tools' parameters. */
  datatype AddressFields = AddressFields(
    address1: Option<string>, address2: Option<string>, city: Option<string>,
    state: Option<string>, country: Option<string>, postalCode: Option<string>)

  /** The parameters of the create-business tool; the address country is "US" unless given. */
  datatype CreateBusinessParams = CreateBusinessParams(
    locationId: string, name: string, description: Option<string>, website: Option<string>,
    phone: Option<string>, email: Option<string>, address: AddressFields,
    logoUrl: Option<string>, industry: Option<string>, employeeCount: Option<int>,
    annualRevenue: Option<Json>, customFields: Option<CustomFields.Pairs>, tags: Option<seq<string>>)

  /** The parameters of the update-business tool; every field is optional and there is no default country. */
  datatype UpdateBusinessParams = UpdateBusinessParams(
    businessId: string, locationId: string, name: Option<string>, description: Option<string>,
    website: Option<string>, phone: Option<string>, email: Option<string>, address: AddressFields,
    logoUrl: Option<string>, industry: Option<string>, employeeCount: Option<int>,
    annualRevenue: Option<Json>, customFields: Option<CustomFields.Pairs>, tags: Option<seq<string>>)

  /** A create request with only the required fields given. */
  function DefaultCreateBusinessParams(locationId: string, name: string): CreateBusinessParams {
    CreateBusinessParams(locationId, name, None, None, None, None,
                         AddressFields(None, None, None, None, Some("US"), None),
                         None, None, None, None, None, None)
  }

  /** An optional number left as it is (the annual revenue is a float). */
  function Number(o: Option<Json>): Json {
    if o.None? then JNull else o.value
  }

  /** The address values, in the order the guard lists them. */
  function AddressValues(a: AddressFields): (vs: seq<Json>)
    ensures |vs| == 6
  {
    [Str(a.address1), Str(a.address2), Str(a.city), Str(a.state), Str(a.country), Str(a.postalCode)]
  }

  /** The `BusinessAddress`, serialised: present only when some address field is truthy, then holding the given fields. */
  function AddressOf(a: AddressFields): (j: Json)
    ensures j != JNull <==> AnyTruthy(AddressValues(a))
    ensures j != JNull ==> j.JObj? && JNull !in j.fields.Values
    ensures j != JNull ==> j.fields.Keys <= {"address1", "address2", "city", "state", "postalCode", "country"}
    ensures j != JNull ==> ("address1" in j.fields <==> a.address1.Some?) && ("address2" in j.fields <==> a.address2.Some?)
    ensures j != JNull ==> ("city" in j.fields <==> a.city.Some?) && ("state" in j.fields <==> a.state.Some?)
    ensures j != JNull ==> ("postalCode" in j.fields <==> a.postalCode.Some?) && ("country" in j.fields <==> a.country.Some?)
    ensures j != JNull && a.address1.Some? ==> j.fields["address1"] == JStr(a.address1.value)
    ensures j != JNull && a.address2.Some? ==> j.fields["address2"] == JStr(a.address2.value)
    ensures j != JNull && a.city.Some? ==> j.fields["city"] == JStr(a.city.value)
    ensures j != JNull && a.state.Some? ==> j.fields["state"] == JStr(a.state.value)
    ensures j != JNull && a.postalCode.Some? ==> j.fields["postalCode"] == JStr(a.postalCode.value)
    ensures j != JNull && a.country.Some? ==> j.fields["country"] == JStr(a.country.value)
  {
    if AnyTruthy(AddressValues(a)) then
      JObj(Dump(map["address1" := Str(a.address1), "address2" := Str(a.address2), "city" := Str(a.city),
                    "state" := Str(a.state), "postalCode" := Str(a.postalCode), "country" := Str(a.country)]))
    else JNull
  }

  /** Custom fields as sent: the `{key, value}` list when the dict is non-empty, otherwise None. */
  function CustomFieldsOf(o: Option<CustomFields.Pairs>): (j: Json)
    ensures j != JNull <==> o.Some? && o.value != []
    ensures j != JNull ==> j.JArr? && CustomFields.FromList(j.items) == Some(o.value)
  {
    if o.Some? && o.value != [] then
      CustomFields.FromToList(o.value);
      JArr(CustomFields.ToList(o.value))
    else JNull
  }

  /** The `BusinessCreate` sent, scoped by its location. */
  function BusinessCreateOf(p: CreateBusinessParams): (m: Model)
    ensures m.Keys == {"locationId", "name", "description", "website", "phone", "email", "logoUrl", "industry",
                       "employeeCount", "annualRevenue", "tags", "address", "customFields"}
    ensures ScopeOf(m) == Some(p.locationId)
    ensures m["locationId"] == JStr(p.locationId) && m["name"] == JStr(p.name)
    ensures m["description"] == Str(p.description) && m["website"] == Str(p.website)
    ensures m["phone"] == Str(p.phone) && m["email"] == Str(p.email)
    ensures m["logoUrl"] == Str(p.logoUrl) && m["industry"] == Str(p.industry)
    ensures m["employeeCount"] == Int(p.employeeCount) && m["annualRevenue"] == Number(p.annualRevenue)
    ensures m["tags"] == StrList(p.tags)
    ensures m["address"] == AddressOf(p.address) && m["customFields"] == CustomFieldsOf(p.customFields)
  {
    map["locationId" := JStr(p.locationId), "name" := JStr(p.name), "description" := Str(p.description),
        "website" := Str(p.website), "phone" := Str(p.phone), "email" := Str(p.email),
        "logoUrl" := Str(p.logoUrl), "industry" := Str(p.industry), "employeeCount" := Int(p.employeeCount),
        "annualRevenue" := Number(p.annualRevenue), "tags" := StrList(p.tags),
        "address" := AddressOf(p.address), "customFields" := CustomFieldsOf(p.customFields)]
  }

  /** The `BusinessUpdate` sent: the same fields without a location. */
  function BusinessUpdateOf(p: UpdateBusinessParams): (m: Model)
    ensures m.Keys == {"name", "description", "website", "phone", "email", "logoUrl", "industry",
                       "employeeCount", "annualRevenue", "tags", "address", "customFields"}
    ensures m["name"] == Str(p.name)
    ensures m["description"] == Str(p.description) && m["website"] == Str(p.website)
    ensures m["phone"] == Str(p.phone) && m["email"] == Str(p.email)
    ensures m["logoUrl"] == Str(p.logoUrl) && m["industry"] == Str(p.industry)
    ensures m["employeeCount"] == Int(p.employeeCount) && m["annualRevenue"] == Number(p.annualRevenue)
    ensures m["tags"] == StrList(p.tags)
    ensures m["address"] == AddressOf(p.address) && m["customFields"] == CustomFieldsOf(p.customFields)
  {
    map["name" := Str(p.name), "description" := Str(p.description),
        "website" := Str(p.website), "phone" := Str(p.phone), "email" := Str(p.email),
        "logoUrl" := Str(p.logoUrl), "industry" := Str(p.industry), "employeeCount" := Int(p.employeeCount),
        "annualRevenue" := Number(p.annualRevenue), "tags" := StrList(p.tags),
        "address" := AddressOf(p.address), "customFields" := CustomFieldsOf(p.customFields)]
  }

  /** With the default country, a business created from its name alone still carries an address: `{"country": "US"}`. */
  lemma DefaultCountryBuildsAddress(locationId: string, name: string)
    ensures var body := Dump(BusinessCreateOf(DefaultCreateBusinessParams(locationId, name)));
            "address" in body && body["address"] == JObj(map["country" := JStr("US")])
  {
    var a := DefaultCreateBusinessParams(locationId, name).address;
    assert Truthy(AddressValues(a)[4]);
    var fields := map["address1" := Str(a.address1), "address2" := Str(a.address2), "city" := Str(a.city),
                      "state" := Str(a.state), "postalCode" := Str(a.postalCode), "country" := Str(a.country)];
    DumpKeepsExactlySetFields(fields, {"country"});
  }

  /** An update that names no address field sends no address: the update has no default country. */
  lemma UpdateWithoutAddressSendsNone(p: UpdateBusinessParams)
    requires p.address == AddressFields(None, None, None, None, None, None)
    ensures "address" !in Dump(BusinessUpdateOf(p))
  {
  }

  /** Custom fields reach the body exactly when the dict is non-empty, and then read back as the same items. */
  lemma CustomFieldsSentIffNonEmpty(p: CreateBusinessParams)
    ensures var body := Dump(BusinessCreateOf(p));
            "customFields" in body <==> p.customFields.Some? && p.customFields.value != []
    ensures var body := Dump(BusinessCreateOf(p));
            "customFields" in body ==> CustomFields.FromList(body["customFields"].items) == Some(p.customFields.value)
  {
  }

  /** `get_businesses` tool: the businesses, count and total copied from the list. */
  method GetBusinesses(send: Transport, locationId: string, limit: int, skip: int) returns (c: Call<Json>)
    ensures |c.trace| == 1
    ensures c.trace[0].verb == GET && c.trace[0].path == "/businesses"
    ensures c.trace[0].body == None && c.trace[0].scope == Some(locationId)
    ensures IsScopedPageQuery(c.trace[0].query, locationId, limit, skip)
    ensures c.result == ListingOf(PageReply(send(c.trace[0]), "businesses"), "businesses")
  {
    var inner := BusinessesApi.GetBusinesses(send, locationId, limit, skip);
    c := Call(inner.trace, ListingOf(inner.result, "businesses"));
  }

  /** `get_business` tool. */
  function GetBusiness(send: Transport, businessId: string, locationId: string): (c: Call<Json>)
    ensures c.trace == BusinessesApi.GetBusiness(send, businessId, locationId).trace
    ensures c.result == EntityOf(BusinessesApi.GetBusiness(send, businessId, locationId).result, "business")
  {
    var inner := BusinessesApi.GetBusiness(send, businessId, locationId);
    Call(inner.trace, EntityOf(inner.result, "business"))
  }

  /** `create_business` tool: the request is scoped by the location the business is created in. */
  function CreateBusiness(send: Transport, p: CreateBusinessParams): (c: Call<Json>)
    ensures c.trace == BusinessesApi.CreateBusiness(send, BusinessCreateOf(p)).trace
    ensures c.trace[0].scope == Some(p.locationId)
    ensures c.result == EntityOf(BusinessesApi.CreateBusiness(send, BusinessCreateOf(p)).result, "business")
  {
    var inner := BusinessesApi.CreateBusiness(send, BusinessCreateOf(p));
    Call(inner.trace, EntityOf(inner.result, "business"))
  }

  /** `update_business` tool. */
  function UpdateBusiness(send: Transport, p: UpdateBusinessParams): (c: Call<Json>)
    ensures c.trace == BusinessesApi.UpdateBusiness(send, p.businessId, BusinessUpdateOf(p), p.locationId).trace
    ensures c.result == EntityOf(BusinessesApi.UpdateBusiness(send, p.businessId, BusinessUpdateOf(p), p.locationId).result,
                                 "business")
  {
    var inner := BusinessesApi.UpdateBusiness(send, p.businessId, BusinessUpdateOf(p), p.locationId);
    Call(inner.trace, EntityOf(inner.result, "business"))
  }

  /** `delete_business` tool. */
  function DeleteBusiness(send: Transport, businessId: string, locationId: string): (c: Call<Json>)
    ensures c.trace == BusinessesApi.DeleteBusiness(send, businessId, locationId).trace
    ensures c.result == DeletionOf(BusinessesApi.DeleteBusiness(send, businessId, locationId).result,
                                   "Business deleted successfully", "Failed to delete business")
  {
    var inner := BusinessesApi.DeleteBusiness(send, businessId, locationId);
    Call(inner.trace, DeletionOf(inner.result, "Business deleted successfully", "Failed to delete business"))
  }
}
