/**
  Account-level SCIM service principals. Every request goes to
  /api/2.0/account/scim/v2/ServicePrincipals, with the principal's id as the
  last path segment for get, update and delete.
 */
module ServicePrincipals {
  import opened Wrappers
  import opened Values
  import opened Requests

  const PrincipalsBase: string := "/api/2.0/account/scim/v2/ServicePrincipals"
  const PrincipalSchema: string := "urn:ietf:params:scim:schemas:core:2.0:ServicePrincipal"
  const PatchOpSchema: string := "urn:ietf:params:scim:api:messages:2.0:PatchOp"

  /** The create body: the SCIM schema list and the display name, then each optional field when truthy. */
  function CreateBody(displayName: Json, applicationId: Json, entitlements: Json, roles: Json): (ms: Members)
    ensures Has(ms, "schemas") && Get(ms, "schemas") == List([Str(PrincipalSchema)])
    ensures Has(ms, "displayName") && Get(ms, "displayName") == displayName
    ensures Has(ms, "applicationId") <==> Truthy(applicationId)
    ensures Has(ms, "entitlements") <==> Truthy(entitlements)
    ensures Has(ms, "roles") <==> Truthy(roles)
    ensures Truthy(applicationId) ==> Get(ms, "applicationId") == applicationId
    ensures Truthy(entitlements) ==> Get(ms, "entitlements") == entitlements
    ensures Truthy(roles) ==> Get(ms, "roles") == roles
  {
    var a := Member("schemas", List([Str(PrincipalSchema)]));
    var b := Member("displayName", displayName);
    var c := Optional("applicationId", applicationId);
    var d := Optional("entitlements", entitlements);
    var e := Optional("roles", roles);
    forall k ensures Has(a + b + c + d + e, k) <==> Has(a, k) || Has(b, k) || Has(c, k) || Has(d, k) || Has(e, k)
      ensures Get(a + b + c + d + e, k) == if Has(a, k) then Get(a, k) else if Has(b, k) then Get(b, k)
        else if Has(c, k) then Get(c, k) else if Has(d, k) then Get(d, k) else Get(e, k)
    {
      GetParts5(a, b, c, d, e, k);
    }
    a + b + c + d + e
  }

  /** The create body holds no key beyond the schema list, the display name and the three optional fields. */
  lemma CreateBodyOnlyKeys(displayName: Json, applicationId: Json, entitlements: Json, roles: Json, ms: Members, k: string)
    requires ms == CreateBody(displayName, applicationId, entitlements, roles)
    requires Has(ms, k)
    ensures k in ["schemas", "displayName", "applicationId", "entitlements", "roles"]
  {
    var a := Member("schemas", List([Str(PrincipalSchema)]));
    var b := Member("displayName", displayName);
    var c := Optional("applicationId", applicationId);
    var d := Optional("entitlements", entitlements);
    var e := Optional("roles", roles);
    GetParts5(a, b, c, d, e, k);
  }

  /** create_service_principal. */
  function CreateServicePrincipal(displayName: Json, applicationId: Json, entitlements: Json, roles: Json): (r: Outcome)
    ensures r.Sent? && r.request.verb == POST && r.request.query.None?
    ensures r.request.path == Text(PrincipalsBase)
    ensures r.request.body == Some(Object(CreateBody(displayName, applicationId, entitlements, roles)))
  {
    Sent(Request(POST, Text(PrincipalsBase), None, Some(Object(CreateBody(displayName, applicationId, entitlements, roles)))))
  }

  /** create_service_principal as the source builds it: a literal dict, then one insertion per truthy field. */
  method BuildCreateServicePrincipal(displayName: Json, applicationId: Json, entitlements: Json, roles: Json) returns (r: Outcome)
    ensures r == CreateServicePrincipal(displayName, applicationId, entitlements, roles)
  {
    ghost var a := Member("schemas", List([Str(PrincipalSchema)]));
    ghost var b := Member("displayName", displayName);
    ghost var c := Optional("applicationId", applicationId);
    ghost var d := Optional("entitlements", entitlements);
    ghost var e := Optional("roles", roles);
    var data := [("schemas", List([Str(PrincipalSchema)])), ("displayName", displayName)];
    assert data == a + b;
    assert !Has(a, "applicationId") && !Has(b, "applicationId");
    GetAppend(a, b, "applicationId");
    data := InsertIfTruthy(data, "applicationId", applicationId);
    assert data == a + b + c;
    assert !Has(a, "entitlements") && !Has(b, "entitlements") && !Has(c, "entitlements");
    GetParts3(a, b, c, "entitlements");
    data := InsertIfTruthy(data, "entitlements", entitlements);
    assert data == a + b + c + d;
    assert !Has(a, "roles") && !Has(b, "roles") && !Has(c, "roles") && !Has(d, "roles");
    GetParts4(a, b, c, d, "roles");
    data := InsertIfTruthy(data, "roles", roles);
    assert data == a + b + c + d + e;
    assert data == CreateBody(displayName, applicationId, entitlements, roles);
    r := Sent(Request(POST, Text(PrincipalsBase), None, Some(Object(data))));
  }

  /** The list query: filter, count and startIndex, each present exactly when its argument is truthy. */
  function ListQuery(filter: Json, count: Json, startingIndex: Json): (ms: Members)
    ensures Has(ms, "filter") <==> Truthy(filter)
    ensures Has(ms, "count") <==> Truthy(count)
    ensures Has(ms, "startIndex") <==> Truthy(startingIndex)
    ensures !Has(ms, "starting_index")
    ensures Truthy(filter) ==> Get(ms, "filter") == filter
    ensures Truthy(count) ==> Get(ms, "count") == count
    ensures Truthy(startingIndex) ==> Get(ms, "startIndex") == startingIndex
  {
    var a := Optional("filter", filter);
    var b := Optional("count", count);
    var c := Optional("startIndex", startingIndex);
    forall k ensures Has(a + b + c, k) <==> Has(a, k) || Has(b, k) || Has(c, k)
      ensures Get(a + b + c, k) == if Has(a, k) then Get(a, k) else if Has(b, k) then Get(b, k) else Get(c, k)
    {
      GetParts3(a, b, c, k);
    }
    a + b + c
  }

  /** list_service_principals: a GET whose query is always sent, possibly empty. */
  function ListServicePrincipals(filter: Json, count: Json, startingIndex: Json): (r: Outcome)
    ensures r.Sent? && r.request.verb == GET && r.request.body.None?
    ensures r.request.path == Text(PrincipalsBase)
    ensures r.request.query == Some(ListQuery(filter, count, startingIndex))
  {
    Sent(Request(GET, Text(PrincipalsBase), Some(ListQuery(filter, count, startingIndex)), None))
  }

  /** list_service_principals as the source builds its params dict. */
  method BuildListServicePrincipals(filter: Json, count: Json, startingIndex: Json) returns (r: Outcome)
    ensures r == ListServicePrincipals(filter, count, startingIndex)
  {
    ghost var a := Optional("filter", filter);
    ghost var b := Optional("count", count);
    var params := InsertIfTruthy([], "filter", filter);
    assert params == a;
    params := InsertIfTruthy(params, "count", count);
    GetAppend(a, b, "startIndex");
    params := InsertIfTruthy(params, "startIndex", startingIndex);
    r := Sent(Request(GET, Text(PrincipalsBase), Some(params), None));
  }

  /** get_service_principal: the id is the last path segment, whatever its value. */
  function GetServicePrincipal(id: Json): (r: Outcome)
    ensures r.Sent? && r.request.verb == GET && r.request.query.None? && r.request.body.None?
    ensures id.Str? ==> r.request.path == Text(PrincipalsBase + "/" + id.s)
    ensures id.Null? ==> r.request.path == Text(PrincipalsBase + "/None")
  {
    Sent(Request(GET, Under(PrincipalsBase, id), None, None))
  }

  /** The SCIM PatchOp body of an update. */
  function PatchBody(operations: Json): (ms: Members)
    ensures Get(ms, "schemas") == List([Str(PatchOpSchema)])
    ensures Get(ms, "Operations") == operations
    ensures forall k :: Has(ms, k) <==> k == "schemas" || k == "Operations"
  {
    var a := Member("schemas", List([Str(PatchOpSchema)]));
    var b := Member("Operations", operations);
    GetAppend(a, b, "schemas");
    GetAppend(a, b, "Operations");
    forall k ensures Has(a + b, k) <==> Has(a, k) || Has(b, k) {
      GetAppend(a, b, k);
    }
    a + b
  }

  /** update_service_principal: PATCH on the principal's path with the operations unchanged. */
  function UpdateServicePrincipal(id: Json, operations: Json): (r: Outcome)
    ensures r.Sent? && r.request.verb == PATCH && r.request.query.None?
    ensures r.request.path == GetServicePrincipal(id).request.path
    ensures r.request.body == Some(Object(PatchBody(operations)))
  {
    Sent(Request(PATCH, Under(PrincipalsBase, id), None, Some(Object(PatchBody(operations)))))
  }

  /** delete_service_principal. */
  function DeleteServicePrincipal(id: Json): (r: Outcome)
    ensures r.Sent? && r.request.verb == DELETE && r.request.query.None? && r.request.body.None?
    ensures r.request.path == GetServicePrincipal(id).request.path
  {
    Sent(Request(DELETE, Under(PrincipalsBase, id), None, None))
  }

  /** Distinct string ids address distinct paths, so a request never reaches another principal. */
  lemma {:induction false} DistinctIdsDistinctPaths(id1: string, id2: string)
    requires id1 != id2
    ensures GetServicePrincipal(Str(id1)).request.path != GetServicePrincipal(Str(id2)).request.path
  {
    var p1 := Text(PrincipalsBase + "/" + id1);
    var p2 := Text(PrincipalsBase + "/" + id2);
    RenderText(PrincipalsBase + "/" + id1);
    RenderText(PrincipalsBase + "/" + id2);
    var n := |PrincipalsBase + "/"|;
    assert (PrincipalsBase + "/" + id1)[n..] == id1;
    assert (PrincipalsBase + "/" + id2)[n..] == id2;
  }
}
