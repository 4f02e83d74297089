/**
 * The location tools. `create_location` works out an address object and a
 * settings object, each only when one of its flat fields is truthy, but sends
 * a `LocationCreate` made of the flat fields alone, so neither object ever
 * reaches the client.
 */
module LocationsTools {
  import opened Wrappers
  import opened Json
  import opened Http
  import opened Marshal
  import opened Envelope
  import LocationsApi

  /** The parameters of the create-location tool; `country` is "US" unless given. */
  datatype CreateLocationParams = CreateLocationParams(
    companyId: string, name: string,
    address: Option<string>, city: Option<string>, state: Option<string>, country: Option<string>,
    postalCode: Option<string>,
    logoUrl: Option<string>, website: Option<string>, timezone: Option<string>,
    email: Option<string>, phone: Option<string>, businessType: Option<string>,
    allowDuplicateContact: Option<bool>, allowDuplicateOpportunity: Option<bool>,
    allowFacebookNameMerge: Option<bool>, disableContactTimezone: Option<bool>,
    stripeProductId: Option<string>)

  /** The parameters of the update-location tool; every field is optional. */
  datatype UpdateLocationParams = UpdateLocationParams(
    locationId: string, name: Option<string>,
    address: Option<string>, city: Option<string>, state: Option<string>, country: Option<string>,
    postalCode: Option<string>,
    logoUrl: Option<string>, website: Option<string>, timezone: Option<string>,
    email: Option<string>, phone: Option<string>, businessType: Option<string>,
    allowDuplicateContact: Option<bool>, allowDuplicateOpportunity: Option<bool>,
    allowFacebookNameMerge: Option<bool>, disableContactTimezone: Option<bool>,
    stripeProductId: Option<string>)

  /** A create request with only the required fields given. */
  function DefaultCreateLocationParams(companyId: string, name: string): CreateLocationParams {
    CreateLocationParams(companyId, name, None, None, None, Some("US"), None, None, None, None, None, None, None,
                         None, None, None, None, None)
  }

  /** The address object: built only when any of address, city, state, country, postal code is truthy. */
  function AddressOf(p: CreateLocationParams): (a: Option<Model>)
    ensures a.Some? <==> AnyTruthy([Str(p.address), Str(p.city), Str(p.state), Str(p.country), Str(p.postalCode)])
    ensures a.Some? ==> a.value.Keys == {"address", "city", "state", "country", "postalCode"}
    ensures a.Some? ==> a.value["address"] == Str(p.address) && a.value["city"] == Str(p.city)
    ensures a.Some? ==> a.value["state"] == Str(p.state)
    ensures a.Some? ==> a.value["country"] == Str(p.country) && a.value["postalCode"] == Str(p.postalCode)
  {
    if AnyTruthy([Str(p.address), Str(p.city), Str(p.state), Str(p.country), Str(p.postalCode)]) then
      Some(map["address" := Str(p.address), "city" := Str(p.city), "state" := Str(p.state),
               "country" := Str(p.country), "postalCode" := Str(p.postalCode)])
    else None
  }

  /** The settings object: built only when any of the four flags is truthy, i.e. present and True. */
  function SettingsOf(p: CreateLocationParams): (s: Option<Model>)
    ensures s.Some? <==> AnyTruthy([Bool(p.allowDuplicateContact), Bool(p.allowDuplicateOpportunity),
                                    Bool(p.allowFacebookNameMerge), Bool(p.disableContactTimezone)])
    ensures s.Some? ==> s.value.Keys == {"allowDuplicateContact", "allowDuplicateOpportunity",
                                         "allowFacebookNameMerge", "disableContactTimezone"}
    ensures s.Some? ==> s.value["allowDuplicateContact"] == Bool(p.allowDuplicateContact)
    ensures s.Some? ==> s.value["allowDuplicateOpportunity"] == Bool(p.allowDuplicateOpportunity)
    ensures s.Some? ==> s.value["allowFacebookNameMerge"] == Bool(p.allowFacebookNameMerge)
    ensures s.Some? ==> s.value["disableContactTimezone"] == Bool(p.disableContactTimezone)
  {
    if AnyTruthy([Bool(p.allowDuplicateContact), Bool(p.allowDuplicateOpportunity),
                  Bool(p.allowFacebookNameMerge), Bool(p.disableContactTimezone)]) then
      Some(map["allowDuplicateContact" := Bool(p.allowDuplicateContact),
               "allowDuplicateOpportunity" := Bool(p.allowDuplicateOpportunity),
               "allowFacebookNameMerge" := Bool(p.allowFacebookNameMerge),
               "disableContactTimezone" := Bool(p.disableContactTimezone)])
    else None
  }

  /** With the default country, an address object is built even when no other address field is given. */
  lemma DefaultCountryBuildsAddress(companyId: string, name: string)
    ensures AddressOf(DefaultCreateLocationParams(companyId, name)).Some?
    ensures AddressOf(DefaultCreateLocationParams(companyId, name)).value["country"] == JStr("US")
  {
    var p := DefaultCreateLocationParams(companyId, name);
    var parts := [Str(p.address), Str(p.city), Str(p.state), Str(p.country), Str(p.postalCode)];
    assert Truthy(parts[3]);
  }

  /** Clearing the country as well as every other address field leaves no address. */
  lemma NoAddressWithoutFields(p: CreateLocationParams)
    requires p.address.None? && p.city.None? && p.state.None? && p.postalCode.None?
    requires p.country.None? || p.country == Some("")
    ensures AddressOf(p).None?
  {
  }

  /** Settings that are all explicitly False are not built: False is falsy. */
  lemma AllFalseSettingsYieldNone(p: CreateLocationParams)
    requires p.allowDuplicateContact == Some(false) && p.allowDuplicateOpportunity == Some(false)
    requires p.allowFacebookNameMerge == Some(false) && p.disableContactTimezone == Some(false)
    ensures SettingsOf(p).None?
  {
  }

  /** A single True flag is enough to build the settings object. */
  lemma OneTrueFlagBuildsSettings(p: CreateLocationParams)
    requires p.allowFacebookNameMerge == Some(true)
    ensures SettingsOf(p).Some?
  {
    var flags := [Bool(p.allowDuplicateContact), Bool(p.allowDuplicateOpportunity),
                  Bool(p.allowFacebookNameMerge), Bool(p.disableContactTimezone)];
    assert Truthy(flags[2]);
  }

  /**
   * The `LocationCreate` sent: the company, the name and the flat fields under
   * the snake_case names the payload declares; there is no `settings` field
   * and no nested address, so the objects built above never reach the client.
   */
  function LocationCreateOf(p: CreateLocationParams): (m: Model)
    ensures m.Keys == {"companyId", "name", "address", "city", "state", "country", "postal_code",
                       "logo_url", "website", "timezone", "email", "phone", "business_type",
                       "allow_duplicate_contact", "allow_duplicate_opportunity",
                       "allow_facebook_name_merge", "disable_contact_timezone", "stripe_product_id"}
  {
    map["companyId" := JStr(p.companyId), "name" := JStr(p.name), "country" := Str(p.country),
        "address" := Str(p.address), "city" := Str(p.city), "state" := Str(p.state),
        "postal_code" := Str(p.postalCode),
        "logo_url" := Str(p.logoUrl), "website" := Str(p.website), "timezone" := Str(p.timezone),
        "email" := Str(p.email), "phone" := Str(p.phone), "business_type" := Str(p.businessType),
        "allow_duplicate_contact" := Bool(p.allowDuplicateContact),
        "allow_duplicate_opportunity" := Bool(p.allowDuplicateOpportunity),
        "allow_facebook_name_merge" := Bool(p.allowFacebookNameMerge),
        "disable_contact_timezone" := Bool(p.disableContactTimezone),
        "stripe_product_id" := Str(p.stripeProductId)]
  }

  /** The `LocationUpdate` sent: the optional name and the same flat fields, without a company. */
  function LocationUpdateOf(p: UpdateLocationParams): (m: Model)
    ensures m.Keys == {"name", "address", "city", "state", "country", "postal_code",
                       "logo_url", "website", "timezone", "email", "phone", "business_type",
                       "allow_duplicate_contact", "allow_duplicate_opportunity",
                       "allow_facebook_name_merge", "disable_contact_timezone", "stripe_product_id"}
  {
    map["name" := Str(p.name), "country" := Str(p.country),
        "address" := Str(p.address), "city" := Str(p.city), "state" := Str(p.state),
        "postal_code" := Str(p.postalCode),
        "logo_url" := Str(p.logoUrl), "website" := Str(p.website), "timezone" := Str(p.timezone),
        "email" := Str(p.email), "phone" := Str(p.phone), "business_type" := Str(p.businessType),
        "allow_duplicate_contact" := Bool(p.allowDuplicateContact),
        "allow_duplicate_opportunity" := Bool(p.allowDuplicateOpportunity),
        "allow_facebook_name_merge" := Bool(p.allowFacebookNameMerge),
        "disable_contact_timezone" := Bool(p.disableContactTimezone),
        "stripe_product_id" := Str(p.stripeProductId)]
  }

  /** The created location carries the given company and name, and the given address, country and site fields. */
  lemma LocationCreateCarriesSite(p: CreateLocationParams)
    ensures var m := LocationCreateOf(p);
            && m["companyId"] == JStr(p.companyId)
            && m["name"] == JStr(p.name)
            && m["address"] == Str(p.address)
            && m["city"] == Str(p.city)
            && m["state"] == Str(p.state)
            && m["country"] == Str(p.country)
            && m["postal_code"] == Str(p.postalCode)
            && m["logo_url"] == Str(p.logoUrl)
            && m["website"] == Str(p.website)
            && m["timezone"] == Str(p.timezone)
  {
  }

  /** The created location carries the given contact details, business type, settings flags and product id. */
  lemma LocationCreateCarriesProfile(p: CreateLocationParams)
    ensures var m := LocationCreateOf(p);
            && m["email"] == Str(p.email)
            && m["phone"] == Str(p.phone)
            && m["business_type"] == Str(p.businessType)
            && m["allow_duplicate_contact"] == Bool(p.allowDuplicateContact)
            && m["allow_duplicate_opportunity"] == Bool(p.allowDuplicateOpportunity)
            && m["allow_facebook_name_merge"] == Bool(p.allowFacebookNameMerge)
            && m["disable_contact_timezone"] == Bool(p.disableContactTimezone)
            && m["stripe_product_id"] == Str(p.stripeProductId)
  {
  }

  /** The update carries the given name, address, country and site fields. */
  lemma LocationUpdateCarriesSite(p: UpdateLocationParams)
    ensures var m := LocationUpdateOf(p);
            && m["name"] == Str(p.name)
            && m["address"] == Str(p.address)
            && m["city"] == Str(p.city)
            && m["state"] == Str(p.state)
            && m["country"] == Str(p.country)
            && m["postal_code"] == Str(p.postalCode)
            && m["logo_url"] == Str(p.logoUrl)
            && m["website"] == Str(p.website)
            && m["timezone"] == Str(p.timezone)
  {
  }

  /** The update carries the given contact details, business type, settings flags and product id. */
  lemma LocationUpdateCarriesProfile(p: UpdateLocationParams)
    ensures var m := LocationUpdateOf(p);
            && m["email"] == Str(p.email)
            && m["phone"] == Str(p.phone)
            && m["business_type"] == Str(p.businessType)
            && m["allow_duplicate_contact"] == Bool(p.allowDuplicateContact)
            && m["allow_duplicate_opportunity"] == Bool(p.allowDuplicateOpportunity)
            && m["allow_facebook_name_merge"] == Bool(p.allowFacebookNameMerge)
            && m["disable_contact_timezone"] == Bool(p.disableContactTimezone)
            && m["stripe_product_id"] == Str(p.stripeProductId)
  {
  }

  /** A location created with only the required fields is sent as its company, its name and the default country. */
  lemma DefaultLocationBody(companyId: string, name: string)
    ensures Dump(LocationCreateOf(DefaultCreateLocationParams(companyId, name))) ==
      map["companyId" := JStr(companyId), "name" := JStr(name), "country" := JStr("US")]
  {
    DumpKeepsExactlySetFields(LocationCreateOf(DefaultCreateLocationParams(companyId, name)),
                              {"companyId", "name", "country"});
  }

  /** `get_location` tool. */
  function GetLocation(send: Transport, locationId: string): (c: Call<Json>)
    ensures c.trace == LocationsApi.GetLocation(send, locationId).trace
    ensures c.result == EntityOf(LocationsApi.GetLocation(send, locationId).result, "location")
  {
    var inner := LocationsApi.GetLocation(send, locationId);
    Call(inner.trace, EntityOf(inner.result, "location"))
  }

  /** `search_locations` tool: the search, with the locations, count and total copied from the list. */
  method SearchLocations(send: Transport, companyId: Option<string>, limit: int, skip: int, searchQuery: Option<string>)
    returns (c: Call<Json>)
    ensures |c.trace| == 1
    ensures c.trace[0].verb == GET && c.trace[0].path == "/locations/search"
    ensures c.trace[0].body == None && c.trace[0].scope == None
    ensures LocationsApi.IsLocationSearchQuery(c.trace[0].query, companyId, limit, skip, searchQuery)
    ensures c.result == ListingOf(PageReply(send(c.trace[0]), "locations"), "locations")
  {
    var inner := LocationsApi.SearchLocations(send, companyId, limit, skip, searchQuery);
    c := Call(inner.trace, ListingOf(inner.result, "locations"));
  }

  /** `create_location` tool: only the flat-field payload is sent; the address and settings objects are dropped. */
  function CreateLocation(send: Transport, p: CreateLocationParams): (c: Call<Json>)
    ensures c.trace == LocationsApi.CreateLocation(send, LocationCreateOf(p)).trace
    ensures c.result == EntityOf(LocationsApi.CreateLocation(send, LocationCreateOf(p)).result, "location")
  {
    var inner := LocationsApi.CreateLocation(send, LocationCreateOf(p));
    Call(inner.trace, EntityOf(inner.result, "location"))
  }

  /** `update_location` tool. */
  function UpdateLocation(send: Transport, p: UpdateLocationParams): (c: Call<Json>)
    ensures c.trace == LocationsApi.UpdateLocation(send, p.locationId, LocationUpdateOf(p)).trace
    ensures c.result == EntityOf(LocationsApi.UpdateLocation(send, p.locationId, LocationUpdateOf(p)).result, "location")
  {
    var inner := LocationsApi.UpdateLocation(send, p.locationId, LocationUpdateOf(p));
    Call(inner.trace, EntityOf(inner.result, "location"))
  }

  /** `delete_location` tool: success is the client's boolean, and the message says which. */
  function DeleteLocation(send: Transport, locationId: string): (c: Call<Json>)
    ensures c.trace == LocationsApi.DeleteLocation(send, locationId).trace
    ensures c.result == DeletionOf(LocationsApi.DeleteLocation(send, locationId).result,
                                   "Location deleted successfully", "Failed to delete location")
  {
    var inner := LocationsApi.DeleteLocation(send, locationId);
    Call(inner.trace, DeletionOf(inner.result, "Location deleted successfully", "Failed to delete location"))
  }
}
