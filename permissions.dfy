/**
  The permissions request builders: validate the object type and the
  permission levels of an access-control list against fixed allow-lists,
  then build one request under /api/2.0/permissions.
 */
module Permissions {
  import opened Wrappers
  import opened Values
  import opened Requests

  /** The keys of PERMISSION_LEVELS. */
  const PermissionLevels: seq<string> :=
    ["CAN_VIEW", "CAN_MANAGE", "CAN_EDIT", "CAN_RUN", "CAN_USE", "CAN_RESTART", "CAN_ATTACH_TO", "IS_OWNER"]

  /** OBJECT_TYPES. */
  const ObjectTypes: seq<string> :=
    ["clusters", "jobs", "notebooks", "directories", "registered-models",
     "experiments", "sql/warehouses", "sql/dashboards", "sql/queries",
     "sql/alerts", "repos", "serving-endpoints", "pipelines", "instance-pools",
     "cluster-policies", "tokens"]

  /** `object_type in OBJECT_TYPES`: only a string equals an element of that list. */
  predicate IsObjectType(v: Json) {
    v.Str? && v.s in ObjectTypes
  }

  /** `level in PERMISSION_LEVELS` for a hashable level. */
  predicate IsPermissionLevel(v: Json) {
    v.Str? && v.s in PermissionLevels
  }

  /** f"/api/2.0/permissions/{object_type}". */
  function LevelsPath(objectType: Json): (p: Path)
    ensures objectType.Str? ==> p == Text("/api/2.0/permissions/" + objectType.s)
  {
    if objectType.Str? then TextAppend("/api/2.0/permissions/", objectType.s); Text("/api/2.0/permissions/") + Interp(objectType)
    else Text("/api/2.0/permissions/") + Interp(objectType)
  }

  /** f"/api/2.0/permissions/{object_type}/{object_id}". */
  function PermissionsPath(objectType: Json, objectId: Json): (p: Path)
    ensures |LevelsPath(objectType)| <= |p| && p[..|LevelsPath(objectType)|] == LevelsPath(objectType)
    ensures objectType.Str? && objectId.Str? ==>
      p == Text("/api/2.0/permissions/" + objectType.s + "/" + objectId.s)
  {
    var p := LevelsPath(objectType) + Text("/") + Interp(objectId);
    if objectType.Str? && objectId.Str? then
      TextAppend("/api/2.0/permissions/" + objectType.s, "/");
      TextAppend("/api/2.0/permissions/" + objectType.s + "/", objectId.s);
      p
    else p
  }

  /** The body `{"access_control_list": acl}`. */
  function AclBody(acl: Json): Json {
    Object([("access_control_list", acl)])
  }

  /** `acl["permission_level"] not in PERMISSION_LEVELS`: PERMISSION_LEVELS is
      a dict, so a list or dict level cannot even be looked up. */
  function LevelFault(level: Json): (r: Option<Fault>)
    ensures r.None? <==> IsPermissionLevel(level)
    ensures level.List? || level.Object? ==> r == Some(Unhashable(level))
    ensures !level.List? && !level.Object? && !IsPermissionLevel(level) ==> r == Some(InvalidPermissionLevel(level))
  {
    if level.List? || level.Object? then Some(Unhashable(level))
    else if IsPermissionLevel(level) then None
    else Some(InvalidPermissionLevel(level))
  }

  /** The loop body at one ACL entry: a permission_level the entry holds must be a known level. */
  function EntryFault(entry: Json): (r: Option<Fault>)
    ensures entry.Object? ==>
      (r.None? <==> (Has(entry.members, "permission_level") ==> IsPermissionLevel(Get(entry.members, "permission_level"))))
    ensures entry.Object? && Has(entry.members, "permission_level") ==> r == LevelFault(Get(entry.members, "permission_level"))
    ensures entry.Null? || entry.Bool? || entry.Int? ==> r == Some(NotContainer(entry))
  {
    match Contains(entry, "permission_level")
    case Error(f) => Some(f)
    case Value(present) =>
      if !present then None
      else
        match Subscript(entry, "permission_level")
        case Error(f) => Some(f)
        case Value(level) => LevelFault(level)
  }

  /** The validation loop over an access-control list: what it raises first, if anything. */
  function AclFault(acl: Json): (r: Option<Fault>)
    ensures acl.Null? || acl.Bool? || acl.Int? ==> r == Some(NotIterable(acl))
    ensures acl.List? ==> (r.None? <==> forall i :: 0 <= i < |acl.items| ==> EntryFault(acl.items[i]).None?)
    ensures acl.List? && r.Some? ==>
      exists i :: 0 <= i < |acl.items| && EntryFault(acl.items[i]) == r && forall j :: 0 <= j < i ==> EntryFault(acl.items[j]).None?
  {
    match Iterate(acl)
    case Error(f) => Some(f)
    case Value(entries) => FirstFailure(entries, EntryFault)
  }

  /** An access-control list of the documented shape: a list of dicts. */
  predicate IsEntryList(acl: Json) {
    acl.List? && forall i :: 0 <= i < |acl.items| ==> acl.items[i].Object?
  }

  /** Every entry that names a permission level names a known one. */
  predicate LevelsValid(acl: Json)
    requires IsEntryList(acl)
  {
    forall i :: 0 <= i < |acl.items| ==>
      Has(acl.items[i].members, "permission_level") ==> IsPermissionLevel(Get(acl.items[i].members, "permission_level"))
  }

  /** On a list of dicts the validation loop raises nothing exactly when every
      given permission level is known; entries without one always pass. */
  lemma AclFaultOnEntryList(acl: Json)
    ensures IsEntryList(acl) ==> (AclFault(acl).None? <==> LevelsValid(acl))
  {
    if !IsEntryList(acl) { return; }
    assert Iterate(acl) == Value(acl.items);
    assert forall i :: 0 <= i < |acl.items| ==> (EntryFault(acl.items[i]).None? <==>
      (Has(acl.items[i].members, "permission_level") ==> IsPermissionLevel(Get(acl.items[i].members, "permission_level"))));
  }

  /** get_permissions. */
  function GetPermissions(objectType: Json, objectId: Json): (r: Outcome)
    ensures r.Raised? <==> !IsObjectType(objectType)
    ensures r.Raised? ==> r.fault == InvalidObjectType(objectType)
    ensures r.Sent? ==> r.request == Request(GET, PermissionsPath(objectType, objectId), None, None)
  {
    if !IsObjectType(objectType) then Raised(InvalidObjectType(objectType))
    else Sent(Request(GET, PermissionsPath(objectType, objectId), None, None))
  }

  /** The shared shape of set_permissions and update_permissions, which differ only in the HTTP method. */
  function WritePermissions(verb: Method, objectType: Json, objectId: Json, acl: Json): (r: Outcome)
    ensures !IsObjectType(objectType) ==> r == Raised(InvalidObjectType(objectType))
    ensures IsObjectType(objectType) ==> (r.Raised? <==> AclFault(acl).Some?)
    ensures IsObjectType(objectType) && r.Raised? ==> Some(r.fault) == AclFault(acl)
    ensures r.Sent? ==> r.request == Request(verb, PermissionsPath(objectType, objectId), None, Some(AclBody(acl)))
  {
    if !IsObjectType(objectType) then Raised(InvalidObjectType(objectType))
    else
      match AclFault(acl)
      case Some(f) => Raised(f)
      case None => Sent(Request(verb, PermissionsPath(objectType, objectId), None, Some(AclBody(acl))))
  }

  /** set_permissions: the object type is checked before the ACL, and the ACL goes into the body unchanged. */
  function SetPermissions(objectType: Json, objectId: Json, acl: Json): (r: Outcome)
    ensures !IsObjectType(objectType) ==> r == Raised(InvalidObjectType(objectType))
    ensures IsEntryList(acl) ==> (r.Sent? <==> IsObjectType(objectType) && LevelsValid(acl))
    ensures r.Sent? ==> r.request == Request(PUT, PermissionsPath(objectType, objectId), None, Some(AclBody(acl)))
  {
    AclFaultOnEntryList(acl);
    WritePermissions(PUT, objectType, objectId, acl)
  }

  /** update_permissions: as set_permissions, sent with PATCH. */
  function UpdatePermissions(objectType: Json, objectId: Json, acl: Json): (r: Outcome)
    ensures !IsObjectType(objectType) ==> r == Raised(InvalidObjectType(objectType))
    ensures IsEntryList(acl) ==> (r.Sent? <==> IsObjectType(objectType) && LevelsValid(acl))
    ensures r.Sent? ==> r.request == Request(PATCH, PermissionsPath(objectType, objectId), None, Some(AclBody(acl)))
  {
    AclFaultOnEntryList(acl);
    WritePermissions(PATCH, objectType, objectId, acl)
  }

  /** set_permissions and update_permissions accept and reject the same input
      with the same exception, and then send the same request, only with a different method. */
  lemma SetAndUpdateAgree(objectType: Json, objectId: Json, acl: Json)
    ensures SetPermissions(objectType, objectId, acl).Raised? <==> UpdatePermissions(objectType, objectId, acl).Raised?
    ensures SetPermissions(objectType, objectId, acl).Raised? ==>
      SetPermissions(objectType, objectId, acl) == UpdatePermissions(objectType, objectId, acl)
    ensures SetPermissions(objectType, objectId, acl).Sent? ==>
      UpdatePermissions(objectType, objectId, acl).request == SetPermissions(objectType, objectId, acl).request.(verb := PATCH)
  {
  }

  /** get_permission_levels: the object-type path with no id segment. */
  function GetPermissionLevels(objectType: Json): (r: Outcome)
    ensures r.Raised? <==> !IsObjectType(objectType)
    ensures r.Raised? ==> r.fault == InvalidObjectType(objectType)
    ensures r.Sent? ==> r.request == Request(GET, LevelsPath(objectType), None, None)
    ensures r.Sent? ==> forall id :: GetPermissions(objectType, id).request.path[..|r.request.path|] == r.request.path
  {
    if !IsObjectType(objectType) then Raised(InvalidObjectType(objectType))
    else Sent(Request(GET, LevelsPath(objectType), None, None))
  }

  /** The levels of the "clusters" type are read with one GET on /api/2.0/permissions/clusters. */
  lemma ClusterLevelsRequest()
    ensures GetPermissionLevels(Str("clusters")) == Sent(Request(GET, Text("/api/2.0/permissions/clusters"), None, None))
  {
    assert "/api/2.0/permissions/" + "clusters" == "/api/2.0/permissions/clusters";
    assert IsObjectType(Str("clusters"));
  }

  /** The object kinds that have typed wrappers (get_cluster_permissions, set_job_permissions, ...). */
  datatype ObjectKind =
    | Cluster | Job | Notebook | Warehouse | Dashboard | Query | Alert
    | Repo | ServingEndpoint | Pipeline | InstancePool | ClusterPolicy | Token

  /** The object-type literal each typed wrapper passes; all are in OBJECT_TYPES. */
  function TypeLiteral(kind: ObjectKind): (t: string)
    ensures t in ObjectTypes
  {
    match kind
    case Cluster => "clusters"
    case Job => "jobs"
    case Notebook => "notebooks"
    case Warehouse => "sql/warehouses"
    case Dashboard => "sql/dashboards"
    case Query => "sql/queries"
    case Alert => "sql/alerts"
    case Repo => "repos"
    case ServingEndpoint => "serving-endpoints"
    case Pipeline => "pipelines"
    case InstancePool => "instance-pools"
    case ClusterPolicy => "cluster-policies"
    case Token => "tokens"
  }

  /** Different wrappers address different object types. */
  lemma TypeLiteralInjective(a: ObjectKind, b: ObjectKind)
    requires TypeLiteral(a) == TypeLiteral(b)
    ensures a == b
  {
  }

  /** get_<kind>_permissions: the generic call with the kind's literal, which never fails the type check. */
  function GetKindPermissions(kind: ObjectKind, objectId: Json): (r: Outcome)
    ensures r.Sent?
    ensures r.request == Request(GET, PermissionsPath(Str(TypeLiteral(kind)), objectId), None, None)
  {
    GetPermissions(Str(TypeLiteral(kind)), objectId)
  }

  /** set_<kind>_permissions: only the ACL check can reject. */
  function SetKindPermissions(kind: ObjectKind, objectId: Json, acl: Json): (r: Outcome)
    ensures r.Raised? <==> AclFault(acl).Some?
    ensures r.Raised? ==> Some(r.fault) == AclFault(acl)
    ensures r.Sent? ==> r.request == Request(PUT, PermissionsPath(Str(TypeLiteral(kind)), objectId), None, Some(AclBody(acl)))
  {
    SetPermissions(Str(TypeLiteral(kind)), objectId, acl)
  }

  /** update_<kind>_permissions: only the ACL check can reject. */
  function UpdateKindPermissions(kind: ObjectKind, objectId: Json, acl: Json): (r: Outcome)
    ensures r.Raised? <==> AclFault(acl).Some?
    ensures r.Raised? ==> Some(r.fault) == AclFault(acl)
    ensures r.Sent? ==> r.request == Request(PATCH, PermissionsPath(Str(TypeLiteral(kind)), objectId), None, Some(AclBody(acl)))
  {
    UpdatePermissions(Str(TypeLiteral(kind)), objectId, acl)
  }

  /** f"/api/2.0/permissions/directories/{object_id}". */
  function DirectoryPath(objectId: Json): (p: Path)
    ensures p == PermissionsPath(Str("directories"), objectId)
  {
    TextAppend("/api/2.0/permissions/directories", "/");
    assert "/api/2.0/permissions/" + "directories" == "/api/2.0/permissions/directories";
    assert "/api/2.0/permissions/directories" + "/" == "/api/2.0/permissions/directories/";
    Text("/api/2.0/permissions/directories/") + Interp(objectId)
  }

  /** get_workspace_object_permissions: always sent, to the same request as the generic call for "directories". */
  function GetWorkspaceObjectPermissions(objectId: Json): (r: Outcome)
    ensures r.Sent? && r.request.verb == GET
    ensures r == GetPermissions(Str("directories"), objectId)
  {
    Sent(Request(GET, DirectoryPath(objectId), None, None))
  }

  /** set_workspace_object_permissions: no validation at all; with a valid ACL it equals the generic call for "directories". */
  function SetWorkspaceObjectPermissions(objectId: Json, acl: Json): (r: Outcome)
    ensures r.Sent? && r.request == Request(PUT, PermissionsPath(Str("directories"), objectId), None, Some(AclBody(acl)))
    ensures AclFault(acl).None? ==> r == SetPermissions(Str("directories"), objectId, acl)
  {
    Sent(Request(PUT, DirectoryPath(objectId), None, Some(AclBody(acl))))
  }

  /** update_workspace_object_permissions: as the set variant, with PATCH. */
  function UpdateWorkspaceObjectPermissions(objectId: Json, acl: Json): (r: Outcome)
    ensures r.Sent? && r.request == Request(PATCH, PermissionsPath(Str("directories"), objectId), None, Some(AclBody(acl)))
    ensures AclFault(acl).None? ==> r == UpdatePermissions(Str("directories"), objectId, acl)
  {
    Sent(Request(PATCH, DirectoryPath(objectId), None, Some(AclBody(acl))))
  }
}
