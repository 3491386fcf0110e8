/**
  The MCP tool handlers. Each handler reads its fields from the parameter
  dict with `params.get`, answers "<field> is required" for the first falsy
  required field, calls one domain function with the arguments in the
  positions the handler writes them, and wraps the transport's result or any
  exception into an envelope. The server registers the 32 handlers in a
  table at construction.
 */
module Server {
  import opened Wrappers
  import opened Values
  import opened Requests
  import P = Permissions
  import Sh = Shares
  import G = GitCredentials
  import UC = UnityCatalog
  import SP = ServicePrincipals

  /** The registered tools, one per handler. */
  datatype Tool =
    | CreateServicePrincipal | ListServicePrincipals | GetServicePrincipal
    | UpdateServicePrincipal | DeleteServicePrincipal
    | CreateStorageCredential | GetStorageCredential | UpdateStorageCredential
    | DeleteStorageCredential | ListStorageCredentials
    | CreateCredential | ListCredentials | UpdateCredential | DeleteCredential
    | GetPermissions | SetPermissions | UpdatePermissions | GetPermissionLevels
    | GetClusterPermissions | SetClusterPermissions | GetJobPermissions | SetJobPermissions
    | GetWarehousePermissions | SetWarehousePermissions
    | GetWorkspaceObjectPermissions | SetWorkspaceObjectPermissions
    | GetSharePermissions | UpdateSharePermissions
    | CreateGitCredential | ListGitCredentials | UpdateGitCredential | DeleteGitCredential

  /** The name each tool is registered under. */
  function Name(t: Tool): string {
    match t
    case CreateServicePrincipal => "create_service_principal"
    case ListServicePrincipals => "list_service_principals"
    case GetServicePrincipal => "get_service_principal"
    case UpdateServicePrincipal => "update_service_principal"
    case DeleteServicePrincipal => "delete_service_principal"
    case CreateStorageCredential => "create_storage_credential"
    case GetStorageCredential => "get_storage_credential"
    case UpdateStorageCredential => "update_storage_credential"
    case DeleteStorageCredential => "delete_storage_credential"
    case ListStorageCredentials => "list_storage_credentials"
    case CreateCredential => "create_credential"
    case ListCredentials => "list_credentials"
    case UpdateCredential => "update_credential"
    case DeleteCredential => "delete_credential"
    case GetPermissions => "get_permissions"
    case SetPermissions => "set_permissions"
    case UpdatePermissions => "update_permissions"
    case GetPermissionLevels => "get_permission_levels"
    case GetClusterPermissions => "get_cluster_permissions"
    case SetClusterPermissions => "set_cluster_permissions"
    case GetJobPermissions => "get_job_permissions"
    case SetJobPermissions => "set_job_permissions"
    case GetWarehousePermissions => "get_warehouse_permissions"
    case SetWarehousePermissions => "set_warehouse_permissions"
    case GetWorkspaceObjectPermissions => "get_workspace_object_permissions"
    case SetWorkspaceObjectPermissions => "set_workspace_object_permissions"
    case GetSharePermissions => "get_share_permissions"
    case UpdateSharePermissions => "update_share_permissions"
    case CreateGitCredential => "create_git_credential"
    case ListGitCredentials => "list_git_credentials"
    case UpdateGitCredential => "update_git_credential"
    case DeleteGitCredential => "delete_git_credential"
  }

  /** The required fields a handler checks, in the order it checks them. The
      service-principal, storage-credential and credential handlers check none. */
  function RequiredFields(t: Tool): (r: seq<string>)
    ensures r == [] <==> FamilyOf(t) in {Principals, StorageCredentials, Credentials} || t == ListGitCredentials
    ensures forall i, j :: 0 <= i < j < |r| ==> r[i] != r[j]
  {
    match t
    case GetPermissions => ["object_type", "object_id"]
    case SetPermissions => ["object_type", "object_id", "access_control_list"]
    case UpdatePermissions => ["object_type", "object_id", "access_control_list"]
    case GetPermissionLevels => ["object_type"]
    case GetClusterPermissions => ["cluster_id"]
    case SetClusterPermissions => ["cluster_id", "access_control_list"]
    case GetJobPermissions => ["job_id"]
    case SetJobPermissions => ["job_id", "access_control_list"]
    case GetWarehousePermissions => ["warehouse_id"]
    case SetWarehousePermissions => ["warehouse_id", "access_control_list"]
    case GetWorkspaceObjectPermissions => ["object_id"]
    case SetWorkspaceObjectPermissions => ["object_id", "access_control_list"]
    case GetSharePermissions => ["name"]
    case UpdateSharePermissions => ["name", "changes"]
    case CreateGitCredential => ["git_provider", "git_username", "personal_access_token"]
    case UpdateGitCredential => ["credential_id"]
    case DeleteGitCredential => ["credential_id"]
    case _ => []
  }

  /** The handler's `if not params.get(f): return error` checks, in order: the first
      falsy field is reported, and none is reported exactly when all are truthy. */
  function FirstMissing(params: Members, fields: seq<string>): (r: Option<Fault>)
    ensures r.None? <==> forall i :: 0 <= i < |fields| ==> Truthy(Get(params, fields[i]))
    ensures r.Some? ==> exists i :: (0 <= i < |fields| && r == Some(Required(fields[i]))
      && !Truthy(Get(params, fields[i])) && forall j :: 0 <= j < i ==> Truthy(Get(params, fields[j])))
  {
    var check := (f: string) => if Truthy(Get(params, f)) then None else Some(Required(f));
    var r := FirstFailure(fields, check);
    assert forall i :: 0 <= i < |fields| ==> (check(fields[i]).None? <==> Truthy(Get(params, fields[i])));
    r
  }

  /** The handler groups of _register_tools, one per domain module (the
      permission tools in two groups: generic and per object). */
  datatype Family = Principals | StorageCredentials | Credentials | GenericPermissions | ObjectPermissions | Shares | Git

  function FamilyOf(t: Tool): Family {
    match t
    case CreateServicePrincipal | ListServicePrincipals | GetServicePrincipal
      | UpdateServicePrincipal | DeleteServicePrincipal => Principals
    case CreateStorageCredential | GetStorageCredential | UpdateStorageCredential
      | DeleteStorageCredential | ListStorageCredentials => StorageCredentials
    case CreateCredential | ListCredentials | UpdateCredential | DeleteCredential => Credentials
    case GetPermissions | SetPermissions | UpdatePermissions | GetPermissionLevels => GenericPermissions
    case GetClusterPermissions | SetClusterPermissions | GetJobPermissions | SetJobPermissions
      | GetWarehousePermissions | SetWarehousePermissions
      | GetWorkspaceObjectPermissions | SetWorkspaceObjectPermissions => ObjectPermissions
    case GetSharePermissions | UpdateSharePermissions => Shares
    case CreateGitCredential | ListGitCredentials | UpdateGitCredential | DeleteGitCredential => Git
  }

  /** The HTTP method of the request each tool's domain function builds. */
  function Verb(t: Tool): Method {
    match t
    case CreateServicePrincipal | CreateStorageCredential | CreateCredential | CreateGitCredential => POST
    case SetPermissions | SetClusterPermissions | SetJobPermissions | SetWarehousePermissions
      | SetWorkspaceObjectPermissions => PUT
    case UpdateServicePrincipal | UpdateStorageCredential | UpdateCredential | UpdatePermissions
      | UpdateSharePermissions | UpdateGitCredential => PATCH
    case DeleteServicePrincipal | DeleteStorageCredential | DeleteCredential | DeleteGitCredential => DELETE
    case _ => GET
  }

  /** The domain call a handler makes once its required fields are truthy,
      with the arguments in the positions the handler passes them. */
  function Call(t: Tool, params: Members): (r: Outcome)
    ensures r.Sent? ==> r.request.verb == Verb(t)
  {
    match FamilyOf(t)
    case Principals => PrincipalCall(t, params)
    case StorageCredentials => StorageCredentialCall(t, params)
    case Credentials => CredentialCall(t, params)
    case GenericPermissions => GenericPermissionCall(t, params)
    case ObjectPermissions => ObjectPermissionCall(t, params)
    case Shares => ShareCall(t, params)
    case Git => GitCall(t, params)
  }

  function PrincipalCall(t: Tool, params: Members): (r: Outcome)
    requires FamilyOf(t) == Principals
    ensures r.Sent? ==> r.request.verb == Verb(t)
  {
    match t
    // create_service_principal(display_name, application_id, allow_cluster_create):
    // the third argument lands in the entitlements position.
    case CreateServicePrincipal =>
      assert Verb(t) == POST;
      SP.CreateServicePrincipal(Get(params, "display_name"), Get(params, "application_id"),
        GetOr(params, "allow_cluster_create", Bool(false)), Null)
    // list_service_principals(page_size, page_token): filter and count positions.
    case ListServicePrincipals => assert Verb(t) == GET; SP.ListServicePrincipals(Get(params, "page_size"), Get(params, "page_token"), Null)
    case GetServicePrincipal => assert Verb(t) == GET; SP.GetServicePrincipal(Get(params, "id"))
    // Three arguments to a function of two parameters: TypeError before the body runs.
    case UpdateServicePrincipal => Raised(WrongArity("update_service_principal", 3, 2))
    case DeleteServicePrincipal => assert Verb(t) == DELETE; SP.DeleteServicePrincipal(Get(params, "id"))
  }

  function StorageCredentialCall(t: Tool, params: Members): (r: Outcome)
    requires FamilyOf(t) == StorageCredentials
    ensures r.Sent? ==> r.request.verb == Verb(t)
  {
    match t
    // create_storage_credential(name, aws_iam_role, azure_service_principal, comment):
    // the comment lands in the gcp_credentials position, and comment stays None.
    case CreateStorageCredential =>
      assert Verb(t) == POST;
      UC.CreateStorageCredential(Get(params, "name"), Get(params, "aws_iam_role"),
        Get(params, "azure_service_principal"), Get(params, "comment"), Null)
    case GetStorageCredential => assert Verb(t) == GET; UC.GetStorageCredential(Get(params, "name"))
    // update_storage_credential(name, new_name, aws_iam_role, azure_service_principal, comment):
    // again the comment lands in the gcp_credentials position.
    case UpdateStorageCredential =>
      assert Verb(t) == PATCH;
      UC.UpdateStorageCredential(Get(params, "name"), Get(params, "new_name"), Get(params, "aws_iam_role"),
        Get(params, "azure_service_principal"), Get(params, "comment"), Null)
    case DeleteStorageCredential => assert Verb(t) == DELETE; UC.DeleteStorageCredential(Get(params, "name"))
    // list_storage_credentials() with max_results left at None.
    case ListStorageCredentials => assert Verb(t) == GET; UC.ListStorageCredentials(Null)
  }

  function CredentialCall(t: Tool, params: Members): (r: Outcome)
    requires FamilyOf(t) == Credentials
    ensures r.Sent? ==> r.request.verb == Verb(t)
  {
    match t
    // create_credential(name, credential_type, credential_info, comment):
    // credential_type lands in the aws position, credential_info in the azure one.
    case CreateCredential =>
      assert Verb(t) == POST;
      UC.CreateCredential(Get(params, "name"), Get(params, "credential_type"), Get(params, "credential_info"), Get(params, "comment"))
    // One argument to a function of no parameters.
    case ListCredentials => Raised(WrongArity("list_credentials", 1, 0))
    // update_credential(name, new_name, credential_info, comment):
    // credential_info in the aws position, the comment in the azure one.
    case UpdateCredential =>
      assert Verb(t) == PATCH;
      UC.UpdateCredential(Get(params, "name"), Get(params, "new_name"), Get(params, "credential_info"), Get(params, "comment"), Null)
    case DeleteCredential => assert Verb(t) == DELETE; UC.DeleteCredential(Get(params, "name"))
  }

  function GenericPermissionCall(t: Tool, params: Members): (r: Outcome)
    requires FamilyOf(t) == GenericPermissions
    ensures r.Sent? ==> r.request.verb == Verb(t)
  {
    match t
    case GetPermissions => assert Verb(t) == GET; P.GetPermissions(Get(params, "object_type"), Get(params, "object_id"))
    case SetPermissions => assert Verb(t) == PUT; P.SetPermissions(Get(params, "object_type"), Get(params, "object_id"), Get(params, "access_control_list"))
    case UpdatePermissions => assert Verb(t) == PATCH; P.UpdatePermissions(Get(params, "object_type"), Get(params, "object_id"), Get(params, "access_control_list"))
    case GetPermissionLevels => assert Verb(t) == GET; P.GetPermissionLevels(Get(params, "object_type"))
  }

  function ObjectPermissionCall(t: Tool, params: Members): (r: Outcome)
    requires FamilyOf(t) == ObjectPermissions
    ensures r.Sent? ==> r.request.verb == Verb(t)
  {
    match t
    case GetClusterPermissions => assert Verb(t) == GET; P.GetKindPermissions(P.Cluster, Get(params, "cluster_id"))
    case SetClusterPermissions => assert Verb(t) == PUT; P.SetKindPermissions(P.Cluster, Get(params, "cluster_id"), Get(params, "access_control_list"))
    case GetJobPermissions => assert Verb(t) == GET; P.GetKindPermissions(P.Job, Get(params, "job_id"))
    case SetJobPermissions => assert Verb(t) == PUT; P.SetKindPermissions(P.Job, Get(params, "job_id"), Get(params, "access_control_list"))
    case GetWarehousePermissions => assert Verb(t) == GET; P.GetKindPermissions(P.Warehouse, Get(params, "warehouse_id"))
    case SetWarehousePermissions => assert Verb(t) == PUT; P.SetKindPermissions(P.Warehouse, Get(params, "warehouse_id"), Get(params, "access_control_list"))
    case GetWorkspaceObjectPermissions => assert Verb(t) == GET; P.GetWorkspaceObjectPermissions(Get(params, "object_id"))
    case SetWorkspaceObjectPermissions => assert Verb(t) == PUT; P.SetWorkspaceObjectPermissions(Get(params, "object_id"), Get(params, "access_control_list"))
  }

  function ShareCall(t: Tool, params: Members): (r: Outcome)
    requires FamilyOf(t) == Shares
    ensures r.Sent? ==> r.request.verb == Verb(t)
  {
    match t
    case GetSharePermissions => assert Verb(t) == GET; Sh.GetSharePermissions(Get(params, "name"))
    case UpdateSharePermissions => assert Verb(t) == PATCH; Sh.UpdateSharePermissions(Get(params, "name"), Get(params, "changes"))
  }

  function GitCall(t: Tool, params: Members): (r: Outcome)
    requires FamilyOf(t) == Git
    ensures r.Sent? ==> r.request.verb == Verb(t)
  {
    match t
    // Keyword arguments: every value reaches the parameter of the same name.
    case CreateGitCredential =>
      assert Verb(t) == POST;
      G.CreateGitCredential(Get(params, "git_provider"), Get(params, "git_username"), Get(params, "personal_access_token"), Get(params, "comment"))
    case ListGitCredentials => assert Verb(t) == GET; G.ListGitCredentials()
    case UpdateGitCredential =>
      assert Verb(t) == PATCH;
      G.UpdateGitCredential(Get(params, "credential_id"), Get(params, "git_provider"), Get(params, "git_username"),
        Get(params, "personal_access_token"), Get(params, "comment"))
    case DeleteGitCredential => assert Verb(t) == DELETE; G.DeleteGitCredential(Get(params, "credential_id"))
  }

  /** What a handler returns: `[{"text": json.dumps(result)}]` for the transport's
      result, or `[{"text": json.dumps({"error": ...})}]` for a missing field or an exception. */
  datatype Envelope = Success(result: Json) | Failure(fault: Fault)

  /** One invocation: the request handed to the transport, if any, and the envelope returned. */
  datatype Trace = Trace(sent: Option<Request>, envelope: Envelope)

  /** The envelope for what the transport returned: its result verbatim, or its
      exception caught by the handler's `except Exception`. */
  function Wrap(reply: Reply): (e: Envelope)
    ensures e.Success? <==> reply.Response?
    ensures reply.Response? ==> e.result == reply.body
    ensures reply.ApiError? ==> e.fault == Remote(reply.message)
  {
    match reply
    case Response(body) => Success(body)
    case ApiError(message) => Failure(Remote(message))
  }

  /** One handler invocation. `send` is the transport, make_api_request. */
  function Handle(t: Tool, params: Members, send: Request -> Reply): (r: Trace)
    ensures r.sent.Some? ==> r.sent.value.verb == Verb(t)
    ensures r.sent.None? ==> r.envelope.Failure?
  {
    match FirstMissing(params, RequiredFields(t))
    case Some(missing) => Trace(None, Failure(missing))
    case None =>
      match Call(t, params)
      case Raised(fault) => Trace(None, Failure(fault))
      case Sent(request) => Trace(Some(request), Wrap(send(request)))
  }

  // What every handler guarantees

  /** A falsy required field stops the handler before any request is built: it
      answers with a falsy required field that comes no later than this one. */
  lemma MissingFieldSendsNothing(t: Tool, params: Members, send: Request -> Reply, i: nat)
    requires i < |RequiredFields(t)| && !Truthy(Get(params, RequiredFields(t)[i]))
    ensures Handle(t, params, send).sent.None?
    ensures exists j :: (0 <= j <= i && !Truthy(Get(params, RequiredFields(t)[j]))
      && Handle(t, params, send).envelope == Failure(Required(RequiredFields(t)[j])))
  {
    var fields := RequiredFields(t);
    var r := FirstMissing(params, fields);
    var j :| 0 <= j < |fields| && r == Some(Required(fields[j]))
      && !Truthy(Get(params, fields[j])) && forall k :: 0 <= k < j ==> Truthy(Get(params, fields[k]));
    assert j <= i;
  }

  /** The required-field check answers with the first falsy field when the fields before it are truthy. */
  lemma FirstMissingFirst(params: Members, fields: seq<string>, i: nat)
    requires i < |fields| && !Truthy(Get(params, fields[i]))
    requires forall j :: 0 <= j < i ==> Truthy(Get(params, fields[j]))
    ensures FirstMissing(params, fields) == Some(Required(fields[i]))
  {
    var r := FirstMissing(params, fields);
    var j :| 0 <= j < |fields| && r == Some(Required(fields[j]))
      && !Truthy(Get(params, fields[j])) && forall k :: 0 <= k < j ==> Truthy(Get(params, fields[k]));
    assert j == i;
  }

  /** Whatever the required-field check reports is the handler's answer, and nothing is sent. */
  lemma MissingFieldAnswered(t: Tool, params: Members, send: Request -> Reply)
    ensures FirstMissing(params, RequiredFields(t)).Some? ==>
      Handle(t, params, send) == Trace(None, Failure(FirstMissing(params, RequiredFields(t)).value))
  {
  }

  /** A request reaches the transport exactly when every required field is truthy
      and the domain function accepts its arguments, and it is that function's request. */
  lemma SentIffPresentAndAccepted(t: Tool, params: Members, send: Request -> Reply)
    ensures Handle(t, params, send).sent.Some? <==>
      (forall i :: 0 <= i < |RequiredFields(t)| ==> Truthy(Get(params, RequiredFields(t)[i]))) && Call(t, params).Sent?
    ensures Handle(t, params, send).sent.Some? ==> Handle(t, params, send).sent.value == Call(t, params).request
  {
  }

  /** The success envelope holds the transport's result verbatim, and a transport
      exception becomes an error envelope instead of propagating. */
  lemma TransportResultVerbatim(t: Tool, params: Members, send: Request -> Reply)
    ensures Handle(t, params, send).sent.Some? && send(Handle(t, params, send).sent.value).Response? ==>
      Handle(t, params, send).envelope == Success(send(Handle(t, params, send).sent.value).body)
    ensures Handle(t, params, send).sent.Some? && send(Handle(t, params, send).sent.value).ApiError? ==>
      Handle(t, params, send).envelope == Failure(Remote(send(Handle(t, params, send).sent.value).message))
    ensures Handle(t, params, send).envelope.Success? ==> Handle(t, params, send).sent.Some?
  {
  }

  /** Handlers keep no state: the transport is consulted only on the one request
      sent, so transports that agree on it give the same invocation, and an
      invocation that sends nothing does not depend on the transport. */
  lemma TransportOnlySeesTheRequest(t: Tool, params: Members, s1: Request -> Reply, s2: Request -> Reply)
    ensures Handle(t, params, s1).sent == Handle(t, params, s2).sent
    ensures Handle(t, params, s1).sent.None? ==> Handle(t, params, s1) == Handle(t, params, s2)
    ensures Handle(t, params, s1).sent.Some? && s1(Handle(t, params, s1).sent.value) == s2(Handle(t, params, s1).sent.value) ==>
      Handle(t, params, s1) == Handle(t, params, s2)
  {
  }

  // One handler at a time: its required fields and the domain call it makes.
  // The lemmas below go through these rather than unfolding the whole dispatch.

  lemma StorageCredentialsDispatch(t: Tool, params: Members)
    requires FamilyOf(t) == StorageCredentials
    ensures Call(t, params) == StorageCredentialCall(t, params)
  {
  }

  lemma CredentialsDispatch(t: Tool, params: Members)
    requires FamilyOf(t) == Credentials
    ensures Call(t, params) == CredentialCall(t, params)
  {
  }

  lemma GenericPermissionsDispatch(t: Tool, params: Members)
    requires FamilyOf(t) == GenericPermissions
    ensures Call(t, params) == GenericPermissionCall(t, params)
  {
  }

  lemma GitDispatch(t: Tool, params: Members)
    requires FamilyOf(t) == Git
    ensures Call(t, params) == GitCall(t, params)
  {
  }

  lemma GetPermissionLevelsWiring(params: Members)
    ensures RequiredFields(GetPermissionLevels) == ["object_type"]
    ensures Call(GetPermissionLevels, params) == P.GetPermissionLevels(Get(params, "object_type"))
  {
    GenericPermissionsDispatch(GetPermissionLevels, params);
  }

  lemma GetPermissionsWiring(params: Members)
    ensures RequiredFields(GetPermissions) == ["object_type", "object_id"]
    ensures Call(GetPermissions, params) == P.GetPermissions(Get(params, "object_type"), Get(params, "object_id"))
  {
    GenericPermissionsDispatch(GetPermissions, params);
  }

  lemma SetPermissionsWiring(params: Members)
    ensures RequiredFields(SetPermissions) == ["object_type", "object_id", "access_control_list"]
    ensures Call(SetPermissions, params) == P.SetPermissions(Get(params, "object_type"), Get(params, "object_id"), Get(params, "access_control_list"))
  {
    GenericPermissionsDispatch(SetPermissions, params);
  }

  lemma UpdatePermissionsWiring(params: Members)
    ensures RequiredFields(UpdatePermissions) == ["object_type", "object_id", "access_control_list"]
    ensures Call(UpdatePermissions, params) == P.UpdatePermissions(Get(params, "object_type"), Get(params, "object_id"), Get(params, "access_control_list"))
  {
    GenericPermissionsDispatch(UpdatePermissions, params);
  }

  lemma CreateStorageCredentialWiring(params: Members)
    ensures RequiredFields(CreateStorageCredential) == []
    ensures Call(CreateStorageCredential, params) == UC.CreateStorageCredential(Get(params, "name"), Get(params, "aws_iam_role"), Get(params, "azure_service_principal"), Get(params, "comment"), Null)
  {
    StorageCredentialsDispatch(CreateStorageCredential, params);
  }

  lemma UpdateStorageCredentialWiring(params: Members)
    ensures RequiredFields(UpdateStorageCredential) == []
    ensures Call(UpdateStorageCredential, params) == UC.UpdateStorageCredential(Get(params, "name"), Get(params, "new_name"), Get(params, "aws_iam_role"), Get(params, "azure_service_principal"), Get(params, "comment"), Null)
  {
    StorageCredentialsDispatch(UpdateStorageCredential, params);
  }

  lemma CreateCredentialWiring(params: Members)
    ensures RequiredFields(CreateCredential) == []
    ensures Call(CreateCredential, params) == UC.CreateCredential(Get(params, "name"), Get(params, "credential_type"), Get(params, "credential_info"), Get(params, "comment"))
  {
    CredentialsDispatch(CreateCredential, params);
  }

  lemma UpdateCredentialWiring(params: Members)
    ensures RequiredFields(UpdateCredential) == []
    ensures Call(UpdateCredential, params) == UC.UpdateCredential(Get(params, "name"), Get(params, "new_name"), Get(params, "credential_info"), Get(params, "comment"), Null)
  {
    CredentialsDispatch(UpdateCredential, params);
  }

  lemma CreateGitCredentialWiring(params: Members)
    ensures RequiredFields(CreateGitCredential) == ["git_provider", "git_username", "personal_access_token"]
    ensures Call(CreateGitCredential, params) ==
      G.CreateGitCredential(Get(params, "git_provider"), Get(params, "git_username"), Get(params, "personal_access_token"), Get(params, "comment"))
  {
    GitDispatch(CreateGitCredential, params);
    assert GitCall(CreateGitCredential, params) ==
      G.CreateGitCredential(Get(params, "git_provider"), Get(params, "git_username"), Get(params, "personal_access_token"), Get(params, "comment"));
  }

  // The handlers' argument passing as written

  /** update_service_principal passes three arguments to a function of two parameters,
      so every invocation fails with that TypeError and sends nothing. */
  lemma UpdateServicePrincipalAlwaysFails(params: Members, send: Request -> Reply)
    ensures Handle(UpdateServicePrincipal, params, send) == Trace(None, Failure(WrongArity("update_service_principal", 3, 2)))
  {
  }

  /** list_credentials passes one argument to a function of no parameters. */
  lemma ListCredentialsAlwaysFails(params: Members, send: Request -> Reply)
    ensures Handle(ListCredentials, params, send) == Trace(None, Failure(WrongArity("list_credentials", 1, 0)))
  {
  }

  /** create_service_principal: allow_cluster_create (default False) is sent as the
      entitlements, and roles are never sent. */
  lemma CreatePrincipalEntitlements(params: Members, send: Request -> Reply, ms: Members)
    requires Handle(CreateServicePrincipal, params, send).sent.Some?
    requires Handle(CreateServicePrincipal, params, send).sent.value.body == Some(Object(ms))
    ensures Get(ms, "displayName") == Get(params, "display_name")
    ensures Has(ms, "applicationId") <==> Truthy(Get(params, "application_id"))
    ensures Truthy(Get(params, "application_id")) ==> Get(ms, "applicationId") == Get(params, "application_id")
    ensures Has(ms, "entitlements") <==> Has(params, "allow_cluster_create") && Truthy(Get(params, "allow_cluster_create"))
    ensures Has(ms, "entitlements") ==> Get(ms, "entitlements") == Get(params, "allow_cluster_create")
    ensures !Has(ms, "roles")
  {
  }

  /** list_service_principals: page_size is sent as the filter, page_token as the count,
      and there is never a startIndex. */
  lemma ListPrincipalsQuery(params: Members, send: Request -> Reply, q: Members)
    requires Handle(ListServicePrincipals, params, send).sent.Some?
    requires Handle(ListServicePrincipals, params, send).sent.value.query == Some(q)
    ensures Has(q, "filter") <==> Truthy(Get(params, "page_size"))
    ensures Has(q, "count") <==> Truthy(Get(params, "page_token"))
    ensures Truthy(Get(params, "page_size")) ==> Get(q, "filter") == Get(params, "page_size")
    ensures Truthy(Get(params, "page_token")) ==> Get(q, "count") == Get(params, "page_token")
    ensures !Has(q, "startIndex")
  {
  }

  /** get_service_principal without an id still sends a request, for the principal named "None". */
  lemma PrincipalWithoutId(params: Members, send: Request -> Reply)
    requires !Has(params, "id")
    ensures Handle(GetServicePrincipal, params, send).sent == Some(Request(GET, Text(SP.PrincipalsBase + "/None"), None, None))
  {
  }

  /** create_storage_credential: the comment parameter is sent as the GCP service
      account when neither aws_iam_role nor azure_service_principal is truthy, and
      never as the comment. */
  lemma StorageCommentBecomesGcp(params: Members, send: Request -> Reply, ms: Members)
    requires Handle(CreateStorageCredential, params, send).sent.Some?
    requires Handle(CreateStorageCredential, params, send).sent.value.body == Some(Object(ms))
    ensures !Has(ms, "comment")
    ensures Get(ms, "name") == Get(params, "name")
    ensures !Truthy(Get(params, "aws_iam_role")) && !Truthy(Get(params, "azure_service_principal")) ==>
      (Has(ms, "gcp_service_account") <==> Truthy(Get(params, "comment")))
    ensures !Truthy(Get(params, "aws_iam_role")) && !Truthy(Get(params, "azure_service_principal")) && Truthy(Get(params, "comment")) ==>
      Get(ms, "gcp_service_account") == Get(params, "comment")
  {
    var name, aws, azure, comment := Get(params, "name"), Get(params, "aws_iam_role"), Get(params, "azure_service_principal"), Get(params, "comment");
    CreateStorageCredentialWiring(params);
    var c := Call(CreateStorageCredential, params);
    assert c == UC.CreateStorageCredential(name, aws, azure, comment, Null);
    assert FirstMissing(params, RequiredFields(CreateStorageCredential)) == None;
    assert Handle(CreateStorageCredential, params, send).sent == Some(c.request);
    assert ms == UC.CreateStorageBody(name, aws, azure, comment, Null);
    UC.StorageCreateNameComment(name, aws, azure, comment, Null, ms);
    UC.StorageCreateCloudKey(name, aws, azure, comment, Null, ms);
    UC.StorageCreateCloudValue(name, aws, azure, comment, Null, ms);
  }

  /** update_storage_credential: the same misplacement, on the credential's own path. */
  lemma StorageUpdateCommentBecomesGcp(params: Members, send: Request -> Reply, ms: Members)
    requires Handle(UpdateStorageCredential, params, send).sent.Some?
    requires Handle(UpdateStorageCredential, params, send).sent.value.body == Some(Object(ms))
    ensures !Has(ms, "comment")
    ensures !Truthy(Get(params, "aws_iam_role")) && !Truthy(Get(params, "azure_service_principal")) ==>
      (Has(ms, "gcp_service_account") <==> Truthy(Get(params, "comment")))
    ensures !Truthy(Get(params, "aws_iam_role")) && !Truthy(Get(params, "azure_service_principal")) && Truthy(Get(params, "comment")) ==>
      Get(ms, "gcp_service_account") == Get(params, "comment")
  {
    var name, newName := Get(params, "name"), Get(params, "new_name");
    var aws, azure, comment := Get(params, "aws_iam_role"), Get(params, "azure_service_principal"), Get(params, "comment");
    UpdateStorageCredentialWiring(params);
    var c := Call(UpdateStorageCredential, params);
    assert c == UC.UpdateStorageCredential(name, newName, aws, azure, comment, Null);
    assert FirstMissing(params, RequiredFields(UpdateStorageCredential)) == None;
    assert Handle(UpdateStorageCredential, params, send).sent == Some(c.request);
    assert ms == UC.UpdateStorageBody(newName, aws, azure, comment, Null);
    UC.StorageUpdateNameComment(newName, aws, azure, comment, Null, ms);
    UC.StorageUpdateCloudKey(newName, aws, azure, comment, Null, ms);
    UC.StorageUpdateCloudValue(newName, aws, azure, comment, Null, ms);
  }

  /** create_credential: credential_type is sent as the AWS credentials and
      credential_info as the Azure service principal, whichever comes first. */
  lemma CredentialTypeBecomesAws(params: Members, send: Request -> Reply, ms: Members)
    requires Handle(CreateCredential, params, send).sent.Some?
    requires Handle(CreateCredential, params, send).sent.value.body == Some(Object(ms))
    ensures Has(ms, "aws_credentials") <==> Truthy(Get(params, "credential_type"))
    ensures Has(ms, "azure_service_principal") <==> !Truthy(Get(params, "credential_type")) && Truthy(Get(params, "credential_info"))
    ensures Has(ms, "comment") <==> Truthy(Get(params, "comment"))
    ensures Truthy(Get(params, "credential_type")) ==> Get(ms, "aws_credentials") == Get(params, "credential_type")
    ensures !Truthy(Get(params, "credential_type")) && Truthy(Get(params, "credential_info")) ==>
      Get(ms, "azure_service_principal") == Get(params, "credential_info")
    ensures Truthy(Get(params, "comment")) ==> Get(ms, "comment") == Get(params, "comment")
  {
    var name, ty, info, comment := Get(params, "name"), Get(params, "credential_type"), Get(params, "credential_info"), Get(params, "comment");
    CreateCredentialWiring(params);
    var c := Call(CreateCredential, params);
    assert c == UC.CreateCredential(name, ty, info, comment);
    assert FirstMissing(params, RequiredFields(CreateCredential)) == None;
    assert Handle(CreateCredential, params, send).sent == Some(c.request);
    assert ms == UC.CreateCredentialBody(name, ty, info, comment);
    UC.CredentialCreateKeys(name, ty, info, comment, ms);
    UC.CredentialCreateValues(name, ty, info, comment, ms);
  }

  /** update_credential: credential_info is sent as the AWS credentials and the
      comment parameter as the Azure service principal; no comment is ever sent. */
  lemma CredentialCommentBecomesAzure(params: Members, send: Request -> Reply, ms: Members)
    requires Handle(UpdateCredential, params, send).sent.Some?
    requires Handle(UpdateCredential, params, send).sent.value.body == Some(Object(ms))
    ensures !Has(ms, "comment")
    ensures Has(ms, "aws_credentials") <==> Truthy(Get(params, "credential_info"))
    ensures Has(ms, "azure_service_principal") <==> !Truthy(Get(params, "credential_info")) && Truthy(Get(params, "comment"))
    ensures Truthy(Get(params, "credential_info")) ==> Get(ms, "aws_credentials") == Get(params, "credential_info")
    ensures !Truthy(Get(params, "credential_info")) && Truthy(Get(params, "comment")) ==>
      Get(ms, "azure_service_principal") == Get(params, "comment")
  {
    var name, newName, info, comment := Get(params, "name"), Get(params, "new_name"), Get(params, "credential_info"), Get(params, "comment");
    UpdateCredentialWiring(params);
    var c := Call(UpdateCredential, params);
    assert c == UC.UpdateCredential(name, newName, info, comment, Null);
    assert FirstMissing(params, RequiredFields(UpdateCredential)) == None;
    assert Handle(UpdateCredential, params, send).sent == Some(c.request);
    assert ms == UC.UpdateCredentialBody(newName, info, comment, Null);
    UC.CredentialUpdateKeys(newName, info, comment, Null, ms);
    UC.CredentialUpdateValues(newName, info, comment, Null, ms);
  }

  // Required-field checks

  /** create_git_credential checks git_provider, git_username and personal_access_token
      in that order, and names the first that is falsy. */
  lemma CreateGitCredentialChecks(params: Members)
    ensures FirstMissing(params, RequiredFields(CreateGitCredential)) ==
      if !Truthy(Get(params, "git_provider")) then Some(Required("git_provider"))
      else if !Truthy(Get(params, "git_username")) then Some(Required("git_username"))
      else if !Truthy(Get(params, "personal_access_token")) then Some(Required("personal_access_token"))
      else None
  {
    var fields := RequiredFields(CreateGitCredential);
    if !Truthy(Get(params, "git_provider")) {
      FirstMissingFirst(params, fields, 0);
    } else if !Truthy(Get(params, "git_username")) {
      FirstMissingFirst(params, fields, 1);
    } else if !Truthy(Get(params, "personal_access_token")) {
      FirstMissingFirst(params, fields, 2);
    }
  }

  /** With the three fields truthy, create_git_credential checks the provider
      allow-list, and only then sends. */
  lemma CreateGitCredentialProvider(params: Members, send: Request -> Reply)
    requires Truthy(Get(params, "git_provider")) && Truthy(Get(params, "git_username")) && Truthy(Get(params, "personal_access_token"))
    ensures Handle(CreateGitCredential, params, send).sent.Some? <==> G.IsGitProvider(Get(params, "git_provider"))
    ensures !G.IsGitProvider(Get(params, "git_provider")) ==>
      Handle(CreateGitCredential, params, send).envelope == Failure(InvalidGitProvider(Get(params, "git_provider")))
  {
    CreateGitCredentialWiring(params);
    assert FirstMissing(params, RequiredFields(CreateGitCredential)) == None;
  }

  /** set_cluster_permissions checks cluster_id, then access_control_list; a falsy
      list, the empty list included, counts as missing. */
  lemma SetClusterPermissionsChecks(params: Members)
    ensures FirstMissing(params, RequiredFields(SetClusterPermissions)) ==
      if !Truthy(Get(params, "cluster_id")) then Some(Required("cluster_id"))
      else if !Truthy(Get(params, "access_control_list")) then Some(Required("access_control_list"))
      else None
  {
    var fields := RequiredFields(SetClusterPermissions);
    assert fields == ["cluster_id", "access_control_list"];
    if !Truthy(Get(params, "cluster_id")) {
      FirstMissingFirst(params, fields, 0);
    } else if !Truthy(Get(params, "access_control_list")) {
      FirstMissingFirst(params, fields, 1);
    }
  }

  /** set_permissions checks object_type, object_id, then access_control_list. */
  lemma SetPermissionsChecks(params: Members)
    ensures FirstMissing(params, RequiredFields(SetPermissions)) ==
      if !Truthy(Get(params, "object_type")) then Some(Required("object_type"))
      else if !Truthy(Get(params, "object_id")) then Some(Required("object_id"))
      else if !Truthy(Get(params, "access_control_list")) then Some(Required("access_control_list"))
      else None
  {
    var fields := RequiredFields(SetPermissions);
    if !Truthy(Get(params, "object_type")) {
      FirstMissingFirst(params, fields, 0);
    } else if !Truthy(Get(params, "object_id")) {
      FirstMissingFirst(params, fields, 1);
    } else if !Truthy(Get(params, "access_control_list")) {
      FirstMissingFirst(params, fields, 2);
    }
  }

  /** A truthy but unknown object type is rejected by get_permission_levels, and nothing is sent. */
  lemma UnknownObjectTypeLevels(params: Members, send: Request -> Reply)
    requires Truthy(Get(params, "object_type")) && !P.IsObjectType(Get(params, "object_type"))
    ensures Handle(GetPermissionLevels, params, send) == Trace(None, Failure(InvalidObjectType(Get(params, "object_type"))))
  {
    var ot := Get(params, "object_type");
    GetPermissionLevelsWiring(params);
    assert FirstMissing(params, RequiredFields(GetPermissionLevels)) == None;
    assert Call(GetPermissionLevels, params) == P.GetPermissionLevels(ot);
  }

  /** The same for get_permissions once the object id is truthy. */
  lemma UnknownObjectTypeGet(params: Members, send: Request -> Reply)
    requires Truthy(Get(params, "object_type")) && !P.IsObjectType(Get(params, "object_type"))
    requires Truthy(Get(params, "object_id"))
    ensures Handle(GetPermissions, params, send) == Trace(None, Failure(InvalidObjectType(Get(params, "object_type"))))
  {
    var ot, id := Get(params, "object_type"), Get(params, "object_id");
    GetPermissionsWiring(params);
    assert FirstMissing(params, RequiredFields(GetPermissions)) == None;
    assert Call(GetPermissions, params) == P.GetPermissions(ot, id);
  }

  /** set_permissions, with its three fields truthy, reports an unknown object type
      before the ACL's permission levels are validated, and sends nothing. */
  lemma UnknownObjectTypeSet(params: Members, send: Request -> Reply)
    requires Truthy(Get(params, "object_type")) && !P.IsObjectType(Get(params, "object_type"))
    requires Truthy(Get(params, "object_id")) && Truthy(Get(params, "access_control_list"))
    ensures Handle(SetPermissions, params, send) == Trace(None, Failure(InvalidObjectType(Get(params, "object_type"))))
  {
    var ot, id, acl := Get(params, "object_type"), Get(params, "object_id"), Get(params, "access_control_list");
    SetPermissionsWiring(params);
    assert FirstMissing(params, RequiredFields(SetPermissions)) == None;
    assert Call(SetPermissions, params) == P.SetPermissions(ot, id, acl);
  }

  /** The same for update_permissions. */
  lemma UnknownObjectTypeUpdate(params: Members, send: Request -> Reply)
    requires Truthy(Get(params, "object_type")) && !P.IsObjectType(Get(params, "object_type"))
    requires Truthy(Get(params, "object_id")) && Truthy(Get(params, "access_control_list"))
    ensures Handle(UpdatePermissions, params, send) == Trace(None, Failure(InvalidObjectType(Get(params, "object_type"))))
  {
    var ot, id, acl := Get(params, "object_type"), Get(params, "object_id"), Get(params, "access_control_list");
    UpdatePermissionsWiring(params);
    assert FirstMissing(params, RequiredFields(UpdatePermissions)) == None;
    assert Call(UpdatePermissions, params) == P.UpdatePermissions(ot, id, acl);
  }

  // Worked scenarios: the permission levels of clusters, and a set-cluster call without its ACL

  /** get_permission_levels with object_type "clusters" sends one GET on
      /api/2.0/permissions/clusters and returns the transport's result verbatim. */
  lemma ClusterLevels(params: Members, send: Request -> Reply, levels: Json)
    requires Get(params, "object_type") == Str("clusters")
    requires send(Request(GET, Text("/api/2.0/permissions/clusters"), None, None)) == Response(levels)
    ensures Handle(GetPermissionLevels, params, send)
      == Trace(Some(Request(GET, Text("/api/2.0/permissions/clusters"), None, None)), Success(levels))
  {
    P.ClusterLevelsRequest();
    GetPermissionLevelsWiring(params);
    assert Call(GetPermissionLevels, params) == Sent(Request(GET, Text("/api/2.0/permissions/clusters"), None, None));
    assert FirstMissing(params, RequiredFields(GetPermissionLevels)) == None;
  }

  /** The worked example itself: the arguments {"object_type": "clusters"}. */
  lemma PermissionLevelsScenario(send: Request -> Reply, levels: Json)
    requires send(Request(GET, Text("/api/2.0/permissions/clusters"), None, None)) == Response(levels)
    ensures Handle(GetPermissionLevels, [("object_type", Str("clusters"))], send)
      == Trace(Some(Request(GET, Text("/api/2.0/permissions/clusters"), None, None)), Success(levels))
  {
    var params := [("object_type", Str("clusters"))];
    assert Get(params, "object_type") == Str("clusters");
    ClusterLevels(params, send, levels);
  }

  /** set_cluster_permissions with only a cluster id names access_control_list and sends nothing. */
  lemma MissingAclScenario(send: Request -> Reply)
    ensures Handle(SetClusterPermissions, [("cluster_id", Str("123"))], send)
      == Trace(None, Failure(Required("access_control_list")))
  {
    var params := [("cluster_id", Str("123"))];
    assert Get(params, "cluster_id") == Str("123");
    assert !Has(params, "access_control_list");
    FirstMissingFirst(params, RequiredFields(SetClusterPermissions), 1);
  }

  /** The tools in the order the server registers them, group by group. */
  const PrincipalTools: seq<Tool> := [
    CreateServicePrincipal, ListServicePrincipals, GetServicePrincipal,
    UpdateServicePrincipal, DeleteServicePrincipal]
  const StorageCredentialTools: seq<Tool> := [
    CreateStorageCredential, GetStorageCredential, UpdateStorageCredential,
    DeleteStorageCredential, ListStorageCredentials]
  const CredentialTools: seq<Tool> := [CreateCredential, ListCredentials, UpdateCredential, DeleteCredential]
  const GenericPermissionTools: seq<Tool> := [GetPermissions, SetPermissions, UpdatePermissions, GetPermissionLevels]
  const ObjectPermissionTools: seq<Tool> := [
    GetClusterPermissions, SetClusterPermissions, GetJobPermissions, SetJobPermissions,
    GetWarehousePermissions, SetWarehousePermissions,
    GetWorkspaceObjectPermissions, SetWorkspaceObjectPermissions]
  const ShareTools: seq<Tool> := [GetSharePermissions, UpdateSharePermissions]
  const GitTools: seq<Tool> := [CreateGitCredential, ListGitCredentials, UpdateGitCredential, DeleteGitCredential]

  const Registry: seq<Tool> :=
    PrincipalTools + StorageCredentialTools + CredentialTools + GenericPermissionTools
    + ObjectPermissionTools + ShareTools + GitTools

  /** The first registered tool with the given name. */
  function Find(tools: seq<Tool>, name: string): (r: Option<Tool>)
    ensures r.Some? ==> r.value in tools && Name(r.value) == name
    ensures r.None? <==> forall i :: 0 <= i < |tools| ==> Name(tools[i]) != name
  {
    if tools == [] then None
    else if Name(tools[0]) == name then Some(tools[0])
    else
      var r := Find(tools[1..], name);
      assert (forall i :: 0 <= i < |tools| ==> Name(tools[i]) != name) <==>
        (forall i :: 0 <= i < |tools[1..]| ==> Name(tools[1..][i]) != name) by {
        if forall i :: 0 <= i < |tools[1..]| ==> Name(tools[1..][i]) != name {
          forall i | 0 <= i < |tools| ensures Name(tools[i]) != name {
            if i > 0 { assert tools[i] == tools[1..][i - 1]; }
          }
        }
      }
      r
  }

  /** The length of each registered name; names of different lengths differ cheaply. */
  function NameLength(t: Tool): nat {
    match t
    case CreateServicePrincipal => 24
    case ListServicePrincipals => 23
    case GetServicePrincipal => 21
    case UpdateServicePrincipal => 24
    case DeleteServicePrincipal => 24
    case CreateStorageCredential => 25
    case GetStorageCredential => 22
    case UpdateStorageCredential => 25
    case DeleteStorageCredential => 25
    case ListStorageCredentials => 24
    case CreateCredential => 17
    case ListCredentials => 16
    case UpdateCredential => 17
    case DeleteCredential => 17
    case GetPermissions => 15
    case SetPermissions => 15
    case UpdatePermissions => 18
    case GetPermissionLevels => 21
    case GetClusterPermissions => 23
    case SetClusterPermissions => 23
    case GetJobPermissions => 19
    case SetJobPermissions => 19
    case GetWarehousePermissions => 25
    case SetWarehousePermissions => 25
    case GetWorkspaceObjectPermissions => 32
    case SetWorkspaceObjectPermissions => 32
    case GetSharePermissions => 21
    case UpdateSharePermissions => 24
    case CreateGitCredential => 21
    case ListGitCredentials => 20
    case UpdateGitCredential => 21
    case DeleteGitCredential => 21
  }

  lemma NameLengthIs(t: Tool)
    ensures |Name(t)| == NameLength(t)
  {
  }

  /** No two tools are registered under the same name: each family's names differ
      from every other tool's. */
  lemma PrincipalsNamesDistinct(a: Tool, b: Tool)
    requires FamilyOf(a) == Principals && Name(a) == Name(b)
    ensures a == b
  {
    NameLengthIs(a);
    NameLengthIs(b);
  }

  lemma StorageCredentialsNamesDistinct(a: Tool, b: Tool)
    requires FamilyOf(a) == StorageCredentials && Name(a) == Name(b)
    ensures a == b
  {
    NameLengthIs(a);
    NameLengthIs(b);
  }

  lemma CredentialsNamesDistinct(a: Tool, b: Tool)
    requires FamilyOf(a) == Credentials && Name(a) == Name(b)
    ensures a == b
  {
    NameLengthIs(a);
    NameLengthIs(b);
  }

  lemma GenericPermissionsNamesDistinct(a: Tool, b: Tool)
    requires FamilyOf(a) == GenericPermissions && Name(a) == Name(b)
    ensures a == b
  {
    NameLengthIs(a);
    NameLengthIs(b);
  }

  lemma ObjectPermissionsNamesDistinct(a: Tool, b: Tool)
    requires FamilyOf(a) == ObjectPermissions && Name(a) == Name(b)
    ensures a == b
  {
    NameLengthIs(a);
    NameLengthIs(b);
  }

  lemma SharesNamesDistinct(a: Tool, b: Tool)
    requires FamilyOf(a) == Shares && Name(a) == Name(b)
    ensures a == b
  {
    NameLengthIs(a);
    NameLengthIs(b);
  }

  lemma GitNamesDistinct(a: Tool, b: Tool)
    requires FamilyOf(a) == Git && Name(a) == Name(b)
    ensures a == b
  {
    NameLengthIs(a);
    NameLengthIs(b);
  }

  lemma NameInjective(a: Tool, b: Tool)
    requires Name(a) == Name(b)
    ensures a == b
  {
    match FamilyOf(a)
    case Principals => PrincipalsNamesDistinct(a, b);
    case StorageCredentials => StorageCredentialsNamesDistinct(a, b);
    case Credentials => CredentialsNamesDistinct(a, b);
    case GenericPermissions => GenericPermissionsNamesDistinct(a, b);
    case ObjectPermissions => ObjectPermissionsNamesDistinct(a, b);
    case Shares => SharesNamesDistinct(a, b);
    case Git => GitNamesDistinct(a, b);
  }

  /** Every handler of the module is registered. */
  lemma RegistryComplete(t: Tool)
    ensures t in Registry
  {
  }

  /** A registered tool is found under its own name, and it is that tool. */
  lemma FindRegistered(tools: seq<Tool>, t: Tool)
    requires t in tools
    ensures Find(tools, Name(t)) == Some(t)
  {
    var i :| 0 <= i < |tools| && tools[i] == t;
    assert Name(tools[i]) == Name(t);
    NameInjective(Find(tools, Name(t)).value, t);
  }

  /** The server object: its tool table, filled at construction by one
      registration per handler. */
  class Server {
    var tools: seq<Tool>

    /** Registers one more tool. */
    method Register(t: Tool)
      modifies this
      ensures tools == old(tools) + [t]
    {
      tools := tools + [t];
    }

    /** __init__ via _register_tools: every handler registered once, in source order. */
    constructor ()
      ensures tools == Registry
    {
      tools := [];
      new;
      RegisterPrincipalTools();
      RegisterStorageCredentialTools();
      RegisterCredentialTools();
      RegisterGenericPermissionTools();
      RegisterObjectPermissionTools();
      RegisterShareTools();
      RegisterGitTools();
    }

    /** The service-principal handlers. */
    method RegisterPrincipalTools()
      modifies this
      ensures tools == old(tools) + PrincipalTools
    {
      Register(CreateServicePrincipal);
      Register(ListServicePrincipals);
      Register(GetServicePrincipal);
      Register(UpdateServicePrincipal);
      Register(DeleteServicePrincipal);
    }

    /** The storage-credential handlers. */
    method RegisterStorageCredentialTools()
      modifies this
      ensures tools == old(tools) + StorageCredentialTools
    {
      Register(CreateStorageCredential);
      Register(GetStorageCredential);
      Register(UpdateStorageCredential);
      Register(DeleteStorageCredential);
      Register(ListStorageCredentials);
    }

    /** The credential handlers. */
    method RegisterCredentialTools()
      modifies this
      ensures tools == old(tools) + CredentialTools
    {
      Register(CreateCredential);
      Register(ListCredentials);
      Register(UpdateCredential);
      Register(DeleteCredential);
    }

    /** The generic permission handlers. */
    method RegisterGenericPermissionTools()
      modifies this
      ensures tools == old(tools) + GenericPermissionTools
    {
      Register(GetPermissions);
      Register(SetPermissions);
      Register(UpdatePermissions);
      Register(GetPermissionLevels);
    }

    /** The per-object permission handlers. */
    method RegisterObjectPermissionTools()
      modifies this
      ensures tools == old(tools) + ObjectPermissionTools
    {
      Register(GetClusterPermissions);
      Register(SetClusterPermissions);
      Register(GetJobPermissions);
      Register(SetJobPermissions);
      Register(GetWarehousePermissions);
      Register(SetWarehousePermissions);
      Register(GetWorkspaceObjectPermissions);
      Register(SetWorkspaceObjectPermissions);
    }

    /** The share handlers. */
    method RegisterShareTools()
      modifies this
      ensures tools == old(tools) + ShareTools
    {
      Register(GetSharePermissions);
      Register(UpdateSharePermissions);
    }

    /** The Git-credential handlers. */
    method RegisterGitTools()
      modifies this
      ensures tools == old(tools) + GitTools
    {
      Register(CreateGitCredential);
      Register(ListGitCredentials);
      Register(UpdateGitCredential);
      Register(DeleteGitCredential);
    }

    /** The tool registered under a name, if any. */
    function Lookup(name: string): (r: Option<Tool>)
      reads this
      ensures r.Some? ==> Name(r.value) == name && r.value in tools
      ensures r.None? <==> forall i :: 0 <= i < |tools| ==> Name(tools[i]) != name
    {
      Find(tools, name)
    }

    /** A tool call by name; an unknown name yields no trace (the framework answers it). */
    function Dispatch(name: string, params: Members, send: Request -> Reply): (r: Option<Trace>)
      reads this
      ensures r.Some? <==> Lookup(name).Some?
      ensures r.Some? ==> r.value == Handle(Lookup(name).value, params, send)
    {
      match Lookup(name)
      case None => None
      case Some(t) => Some(Handle(t, params, send))
    }
  }

  /** The constructed server answers every tool's name with that tool's handler. */
  lemma DispatchRegistered(s: Server, t: Tool, params: Members, send: Request -> Reply)
    requires s.tools == Registry
    ensures s.Lookup(Name(t)) == Some(t)
    ensures s.Dispatch(Name(t), params, send) == Some(Handle(t, params, send))
  {
    RegistryComplete(t);
    FindRegistered(s.tools, t);
  }

  /** A name that is no tool's name reaches no handler. */
  lemma DispatchUnknown(s: Server, name: string, params: Members, send: Request -> Reply)
    requires forall t :: Name(t) != name
    ensures s.Dispatch(name, params, send) == None
  {
  }
}
