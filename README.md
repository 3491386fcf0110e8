# Databricks permissions MCP server: request shaping and validation

This project models the part of the Databricks permissions MCP server that turns a
tool call into an HTTP request. Each of the server's 32 tools does four things:

- reads its parameters from a JSON dict;
- checks, in a fixed order, that the fields it needs are truthy;
- hands the values to a domain function, which validates them against an allow-list
  (object types, permission levels, share permissions, Git providers) and builds one
  request;
- wraps the transport's result, or any exception, in a text envelope.

The domain functions cover:

- object permissions (`/api/2.0/permissions/...`);
- Unity Catalog share permissions, storage credentials and credentials;
- Git credentials;
- SCIM service principals.

The model is written in Dafny:

- `Values` holds a JSON datatype, with Python truthiness, `dict.get`, key insertion and
  the "add the key only when the value is truthy" idiom.
- `Requests` holds request paths built by f-string interpolation, the `Request` record,
  the faults the core can raise, and Python's `for x in v`, `k in v` and `v[k]` on
  values of any JSON type.
- `Permissions`, `Shares`, `GitCredentials`, `UnityCatalog` and `ServicePrincipals`
  model the five domain files. Each operation is a function from its arguments to an
  `Outcome`: the one request it sends (`Sent`), or the fault it raises first (`Raised`).
  Where the source builds its body dict key by key, a method does the same insertions
  step by step and is proved equal to the declarative builder.
- `Server` models the handlers:
  - `RequiredFields` and `FirstMissing` are the ordered required-field checks;
  - `Call` passes the arguments to the domain function;
  - `Handle` produces the whole trace (the request the transport saw, if any, and the
    envelope);
  - the class `Server` holds the tool table that the constructor fills and that
    `Dispatch` looks names up in.

The transport is a parameter `send: Request -> Reply`, so every property holds
whatever the Databricks API answers.

The model follows the code wherever the code and the documented design disagree:

- The service-principal, storage-credential and credential handlers check no required
  fields, although their descriptions call some fields required.
- `update_service_principal` passes three arguments to a two-parameter function, and
  `list_credentials` passes one argument to a function that takes none. Both raise a
  `TypeError` before any request is built, so both always answer with an error.
- Several handlers pass their values positionally into the wrong parameters:
  - `create_service_principal` sends `allow_cluster_create` (default `False`) as the
    entitlements;
  - `list_service_principals` sends `page_size` as the SCIM `filter` and `page_token`
    as `count`;
  - both storage-credential handlers pass `comment` into the GCP-credential position, so
    the comment becomes `gcp_service_account` and never `comment`;
  - `create_credential` sends `credential_type` as the AWS credentials and
    `credential_info` as the Azure ones;
  - `update_credential` sends `credential_info` as the AWS credentials and `comment` as
    the Azure service principal.

## Model

| member | source | states |
|---|---|---|
| Values.Get | src/server/databricks_permissions_mcp_server.py:273-274 | `params.get(k)` is None for a missing key, otherwise the value stored under k |
| Values.GetOr | src/server/databricks_permissions_mcp_server.py:59 | `params.get(k, default)` is the stored value when k is present, the default otherwise |
| Values.Insert | src/api/git_credentials.py:57-58 | `data[k] = v` on a key not yet present appends it; on a present key the dict keeps its size |
| Values.InsertGet | src/api/git_credentials.py:100-114 | after `data[k] = v` the dict holds k with value v, and every other key keeps its presence and value |
| Values.Member | src/api/git_credentials.py:100 | a one-key dict literal holds exactly that key, with that value |
| Values.Optional | src/api/service_principals.py:41-48 | the fragment `if v: data[k] = v` contributes holds k exactly when v is truthy, with value v |
| Values.InsertIfTruthy | src/api/service_principals.py:41-48 | the conditional insertion appends exactly that fragment to the dict |
| Requests.Text | src/api/permissions.py:55 | the literal part of an f-string path spells out its characters one for one |
| Requests.TextAppend | src/api/permissions.py:55 | concatenating literal text and concatenating paths agree |
| Requests.Render | src/api/permissions.py:55 | a path renders to a string exactly when it holds no list or dict interpolation, and then character by character |
| Requests.RenderText | src/api/git_credentials.py:60 | a fixed path renders back to its own string |
| Requests.Interp | src/api/service_principals.py:99 | `f"{v}"` renders as `None`, `True` or `False`, the decimal numeral of an integer and a string verbatim; a list or dict stays one opaque piece |
| Requests.Digits | src/api/service_principals.py:99 | `str()` of a non-negative integer is a non-empty run of digits that starts with `0` only for zero itself |
| Requests.DigitsRoundTrip | src/api/service_principals.py:99 | reading those digits back, most significant first, gives the integer |
| Requests.DecimalRoundTrip | src/api/service_principals.py:99 | `int(str(i)) == i` for every integer, minus sign included, so distinct integers render as distinct path text |
| Requests.Under | src/api/unity_catalog.py:68 | `f"{base}/{name}"` is the base, a slash and the name for a string, and ends in `/None` when the name is missing |
| Requests.Iterate | src/api/permissions.py:86 | `for x in v` yields a list's items, a dict's keys in order and a string's characters, and raises a TypeError on None, booleans and integers |
| Requests.Contains | src/api/shares.py:57 | `k in v` is key membership for a dict, element equality for a list and substring search for a string, and a TypeError otherwise |
| Requests.Subscript | src/api/shares.py:58 | `v[k]` is the stored value for a dict holding k, and a TypeError for a list or a string |
| Requests.FirstFailure | src/api/permissions.py:86-88 | a loop that raises on the first bad element raises nothing exactly when every element passes, and otherwise raises the fault of the first failing element |
| Permissions.LevelsPath | src/api/permissions.py:148 | the permission-levels path is `/api/2.0/permissions/{type}` |
| Permissions.PermissionsPath | src/api/permissions.py:55 | the object path is `/api/2.0/permissions/{type}/{id}` and always extends the levels path of the same type |
| Permissions.LevelFault | src/api/permissions.py:87 | a permission level is rejected exactly when it is not one of the eight `PERMISSION_LEVELS` keys: a list or dict level with the unhashable-key TypeError, any other unknown level with InvalidPermissionLevel of that value |
| Permissions.EntryFault | src/api/permissions.py:87-88 | an ACL entry dict passes exactly when it has no `permission_level` key or that key's value is a known level; a dict holding the key fails with that level's fault, and None, a boolean or an integer entry with the `in` TypeError |
| Permissions.AclFault | src/api/permissions.py:86-88 | the ACL loop raises a TypeError on None, a boolean or an integer; on a list it raises nothing exactly when every entry passes, and otherwise the fault of the first failing entry, all earlier ones passing |
| Permissions.AclFaultOnEntryList | src/api/permissions.py:86-88 | on a list of entry dicts the ACL loop raises nothing exactly when every entry's level, where present, is valid |
| Permissions.GetPermissions | src/api/permissions.py:36-56 | raises InvalidObjectType exactly when the type is not in `OBJECT_TYPES`; otherwise sends GET on the object path with no query and no body |
| Permissions.WritePermissions | src/api/permissions.py:58-92 | an unknown object type is reported before the ACL is looked at; with a known type it raises exactly when the ACL loop does, with that fault; a sent request carries the given verb, the object path and the body `{"access_control_list": acl}` |
| Permissions.SetPermissions | src/api/permissions.py:58-92 | PUT with body `{"access_control_list": acl}` on the object path; on a list of entry dicts it is sent exactly when the type is known and every level is valid; an unknown type raises InvalidObjectType |
| Permissions.UpdatePermissions | src/api/permissions.py:94-128 | the same checks and body as set, with PATCH |
| Permissions.SetAndUpdateAgree | src/api/permissions.py:82-92 | set and update reject the same inputs with the same fault, and otherwise send the same request up to the verb |
| Permissions.GetPermissionLevels | src/api/permissions.py:130-149 | raises InvalidObjectType exactly when the type is unknown; otherwise sends GET on `/api/2.0/permissions/{type}`, which has no id segment and is a prefix of every object path of that type |
| Permissions.ClusterLevelsRequest | src/api/permissions.py:145-149 | for `"clusters"` the levels request is exactly GET `/api/2.0/permissions/clusters` |
| Permissions.TypeLiteral | src/api/permissions.py:153-307 | every typed wrapper's literal is one of the `OBJECT_TYPES` |
| Permissions.TypeLiteralInjective | src/api/permissions.py:153-307 | different typed wrappers address different object types |
| Permissions.GetKindPermissions | src/api/permissions.py:153-155 | a typed get wrapper never fails and sends GET on its type's object path |
| Permissions.SetKindPermissions | src/api/permissions.py:157-159 | a typed set wrapper raises exactly when the ACL check does, with the same fault, and otherwise sends PUT with the ACL body |
| Permissions.UpdateKindPermissions | src/api/permissions.py:161-163 | a typed update wrapper raises exactly when the ACL check does, and otherwise sends PATCH with the ACL body |
| Permissions.DirectoryPath | src/api/permissions.py:312 | the workspace-object path is the object path for type `directories` |
| Permissions.GetWorkspaceObjectPermissions | src/api/permissions.py:310-312 | equals the generic get for `directories` |
| Permissions.SetWorkspaceObjectPermissions | src/api/permissions.py:314-317 | always sends PUT on `directories/{id}` with the ACL body, whatever the ACL holds; it agrees with the generic set whenever the ACL passes validation |
| Permissions.UpdateWorkspaceObjectPermissions | src/api/permissions.py:319-322 | always sends PATCH on `directories/{id}` with the ACL body; it agrees with the generic update whenever the ACL passes validation |
| Shares.SharePath | src/api/shares.py:33 | the share path is `/api/2.1/unity-catalog/shares/{name}/permissions` |
| Shares.PermissionFault | src/api/shares.py:59-60 | a share permission is rejected exactly when it is not `SELECT` or `USAGE`, with InvalidSharePermission of that value |
| Shares.PermissionsFault | src/api/shares.py:58-60 | the inner loop over a permission list raises nothing exactly when every element is a share permission, and otherwise InvalidSharePermission of the first element that is not, all earlier ones being share permissions; None, a boolean or an integer raises the iteration TypeError |
| Shares.ListFault | src/api/shares.py:57-60 | a change dict without the key passes; one with it is checked by the inner loop on that key's value; None, a boolean or an integer change raises the `in` TypeError |
| Shares.ChangeFault | src/api/shares.py:57-64 | a change's `add` list is checked before its `remove` list |
| Shares.ChangesFault | src/api/shares.py:56-64 | the outer loop raises a TypeError on None, a boolean or an integer; on a list it raises nothing exactly when every change passes, and otherwise the fault of the first failing change |
| Shares.ListFaultOnChange | src/api/shares.py:57-64 | on a change dict whose lists are lists, the check of `add` or `remove` passes exactly when that key is absent or every entry is a share permission |
| Shares.ChangesFaultOnChangeList | src/api/shares.py:56-64 | on a list of such changes validation passes exactly when every entry of every `add` and `remove` list is a share permission |
| Shares.ChangeWithoutListsPasses | src/api/shares.py:56-64 | a change with neither `add` nor `remove`, and an empty change list, pass validation |
| Shares.GetSharePermissions | src/api/shares.py:19-33 | never raises; sends GET on the share path with no body |
| Shares.UpdateSharePermissions | src/api/shares.py:35-67 | raises exactly when validation fails, with its first fault; on a list of changes it is sent exactly when every listed permission is valid; sends PATCH with body `{"changes": changes}` |
| Shares.BadPermissionRejected | src/api/shares.py:58-64 | one bad entry in any change's `add` or `remove` list makes the update raise, for every share name |
| GitCredentials.CreateBody | src/api/git_credentials.py:51-58 | the create body always holds `git_provider`, `git_username` and `personal_access_token`, with the values given, holds `comment` exactly when it is truthy, with that value, and holds no other key |
| GitCredentials.CreateGitCredential | src/api/git_credentials.py:25-60 | raises InvalidGitProvider exactly when the provider is not one of the six `GIT_PROVIDERS`, before any request; otherwise POST `/api/2.0/git-credentials` with the create body |
| GitCredentials.BuildCreateGitCredential | src/api/git_credentials.py:48-60 | the step-by-step dict construction gives the same outcome as the declarative builder |
| GitCredentials.ListGitCredentials | src/api/git_credentials.py:62-73 | GET on `/api/2.0/git-credentials` with no query and no body |
| GitCredentials.UpdateBody | src/api/git_credentials.py:100-114 | the update body starts with `credential_id`, as the dict literal does, before any optional field |
| GitCredentials.UpdateBodyId | src/api/git_credentials.py:100 | the update body always holds `credential_id`, with the id given |
| GitCredentials.UpdateBodyField | src/api/git_credentials.py:102-114 | each of provider, username, token and comment is in the update body exactly when its argument is truthy, with that value |
| GitCredentials.UpdateBodyOnlyKeys | src/api/git_credentials.py:100-114 | the update body holds no key beyond `credential_id` and the four optional fields |
| GitCredentials.UpdateGitCredential | src/api/git_credentials.py:75-116 | raises exactly when a truthy provider is not an allowed one, so an absent provider never raises; otherwise PATCH on the fixed path with the update body |
| GitCredentials.BuildUpdateGitCredential | src/api/git_credentials.py:100-116 | the step-by-step dict construction gives the same outcome as the declarative builder |
| GitCredentials.DeleteGitCredential | src/api/git_credentials.py:118-134 | always DELETE on the fixed path with body exactly `{"credential_id": id}` |
| GitCredentials.IdTravelsInBody | src/api/git_credentials.py:60-134 | create, update and delete all use the list path, so the id never appears in a path |
| UnityCatalog.StorageCloudKey | src/api/unity_catalog.py:41-46 | at most one credential key, chosen by precedence aws > azure > gcp, holding the first truthy argument |
| UnityCatalog.CloudKey | src/api/unity_catalog.py:181-184 | at most one credential key, chosen by precedence aws > azure, with the Azure key named `azure_service_principal` |
| UnityCatalog.Body | src/api/unity_catalog.py:39-49 | a body is the name keys, then the credential key, then `comment` when truthy; earlier parts win |
| UnityCatalog.CreateStorageBody | src/api/unity_catalog.py:39-49 | the storage create body starts with `name`, as the dict literal does |
| UnityCatalog.UpdateStorageBody | src/api/unity_catalog.py:98-111 | the storage update body starts with `name` when `new_name` is truthy, since it is written first into the empty dict |
| UnityCatalog.CreateCredentialBody | src/api/unity_catalog.py:179-187 | the credential create body starts with `name`, as the dict literal does |
| UnityCatalog.UpdateCredentialBody | src/api/unity_catalog.py:231-242 | the credential update body starts with `name` when `new_name` is truthy |
| UnityCatalog.AddStorageFields | src/api/unity_catalog.py:41-49 | the in-place if/elif chain and the comment insertion build exactly the declarative storage body |
| UnityCatalog.AddCredentialFields | src/api/unity_catalog.py:181-187 | the in-place if/elif chain and the comment insertion build exactly the declarative credential body |
| UnityCatalog.CreateStorageCredential | src/api/unity_catalog.py:14-51 | never raises; POST on `/api/2.1/unity-catalog/storage-credentials` with the create body |
| UnityCatalog.BuildCreateStorageCredential | src/api/unity_catalog.py:39-51 | the step-by-step construction gives the same outcome as the declarative builder |
| UnityCatalog.GetStorageCredential | src/api/unity_catalog.py:54-68 | GET on `.../storage-credentials/{name}` with no body |
| UnityCatalog.UpdateStorageCredential | src/api/unity_catalog.py:71-113 | PATCH on the original name's path with the update body |
| UnityCatalog.BuildUpdateStorageCredential | src/api/unity_catalog.py:98-113 | the step-by-step construction gives the same outcome as the declarative builder |
| UnityCatalog.DeleteStorageCredential | src/api/unity_catalog.py:116-130 | DELETE on the same path as get, with no body |
| UnityCatalog.ListStorageCredentials | src/api/unity_catalog.py:133-152 | GET with query `{"max_results": n}` exactly when n is truthy and `{}` otherwise |
| UnityCatalog.BuildListStorageCredentials | src/api/unity_catalog.py:148-152 | the step-by-step query construction gives the same outcome as the declarative builder |
| UnityCatalog.CreateCredential | src/api/unity_catalog.py:156-189 | POST on `/api/2.1/unity-catalog/credentials` with the credential create body |
| UnityCatalog.BuildCreateCredential | src/api/unity_catalog.py:179-189 | the step-by-step construction gives the same outcome as the declarative builder |
| UnityCatalog.ListCredentials | src/api/unity_catalog.py:192-203 | GET on the fixed credentials path with no query and no body |
| UnityCatalog.UpdateCredential | src/api/unity_catalog.py:206-244 | PATCH on `.../credentials/{name}` with the credential update body |
| UnityCatalog.BuildUpdateCredential | src/api/unity_catalog.py:231-244 | the step-by-step construction gives the same outcome as the declarative builder |
| UnityCatalog.DeleteCredential | src/api/unity_catalog.py:247-261 | DELETE on the same path as update, with no body |
| UnityCatalog.StorageCreateNameComment | src/api/unity_catalog.py:39-49 | the storage create body always holds `name`, with the name given, holds `comment` exactly when it is truthy, with that value, and otherwise only the credential key |
| UnityCatalog.StorageCreateCloudKey | src/api/unity_catalog.py:41-46 | in the storage create body, `aws_credentials`, `azure_managed_identity` and `gcp_service_account` appear by precedence |
| UnityCatalog.StorageCreateCloudValue | src/api/unity_catalog.py:41-46 | the chosen credential key holds the argument that won the precedence |
| UnityCatalog.StorageUpdateNameComment | src/api/unity_catalog.py:100-111 | the storage update body holds `name` exactly when `new_name` is truthy and `comment` exactly when the comment is truthy |
| UnityCatalog.StorageUpdateCloudKey | src/api/unity_catalog.py:103-108 | the storage update body picks its credential key by the same precedence as create |
| UnityCatalog.StorageUpdateCloudValue | src/api/unity_catalog.py:103-108 | the chosen credential key of the storage update body holds the argument that won the precedence |
| UnityCatalog.StoragePrecedence | src/api/unity_catalog.py:41-46 | once a higher-precedence credential is truthy, the lower ones have no effect on the request |
| UnityCatalog.EmptyUpdates | src/api/unity_catalog.py:98-113 | an update with nothing truthy sends the empty body `{}` |
| UnityCatalog.CredentialCreateKeys | src/api/unity_catalog.py:179-187 | the credential create body always holds `name`, with the name given, holds `aws_credentials` exactly when aws is truthy, `azure_service_principal` exactly when aws is falsy and azure truthy, and `comment` exactly when it is truthy |
| UnityCatalog.CredentialCreateValues | src/api/unity_catalog.py:181-187 | the chosen credential key holds the argument that won the aws > azure precedence, and `comment` holds the comment |
| UnityCatalog.CredentialCreateOnlyKeys | src/api/unity_catalog.py:179-187 | the credential create body holds no key beyond `name`, the two credential keys and `comment` |
| UnityCatalog.CredentialUpdateName | src/api/unity_catalog.py:233-234 | the credential update body holds `name` exactly when `new_name` is truthy, with that value |
| UnityCatalog.CredentialUpdateKeys | src/api/unity_catalog.py:236-242 | the credential update body chooses aws > azure and holds `comment` exactly when truthy |
| UnityCatalog.CredentialUpdateValues | src/api/unity_catalog.py:236-239 | the chosen credential key of the credential update body holds the argument that won the aws > azure precedence |
| UnityCatalog.CredentialUpdateNoStorageKeys | src/api/unity_catalog.py:236-239 | credential bodies never use the storage-only keys `gcp_service_account` or `azure_managed_identity` |
| ServicePrincipals.CreateBody | src/api/service_principals.py:36-48 | the body always holds the ServicePrincipal schema list under `schemas` and the display name under `displayName`, and each of `applicationId`, `entitlements` and `roles` exactly when its argument is truthy, with that value |
| ServicePrincipals.CreateBodyOnlyKeys | src/api/service_principals.py:36-48 | the create body holds no key beyond those five |
| ServicePrincipals.CreateServicePrincipal | src/api/service_principals.py:13-50 | POST on `/api/2.0/account/scim/v2/ServicePrincipals` with the create body |
| ServicePrincipals.BuildCreateServicePrincipal | src/api/service_principals.py:36-50 | the step-by-step dict construction gives the same outcome as the declarative builder |
| ServicePrincipals.ListQuery | src/api/service_principals.py:74-80 | `filter`, `count` and `startIndex` appear exactly when their arguments are truthy, so zero is dropped, and the key `starting_index` never appears |
| ServicePrincipals.ListServicePrincipals | src/api/service_principals.py:53-82 | GET on the collection path with that query and no body |
| ServicePrincipals.BuildListServicePrincipals | src/api/service_principals.py:74-82 | the step-by-step query construction gives the same outcome as the declarative builder |
| ServicePrincipals.GetServicePrincipal | src/api/service_principals.py:85-99 | GET on `.../ServicePrincipals/{id}` with no body, ending in `/None` when the id is missing |
| ServicePrincipals.PatchBody | src/api/service_principals.py:118-121 | the patch body is exactly the PatchOp schema list and `Operations` |
| ServicePrincipals.UpdateServicePrincipal | src/api/service_principals.py:102-123 | PATCH on the same path as get with the patch body |
| ServicePrincipals.DeleteServicePrincipal | src/api/service_principals.py:126-140 | DELETE on the same path as get, with no body |
| ServicePrincipals.DistinctIdsDistinctPaths | src/api/service_principals.py:99 | different string ids address different principals |
| Server.FirstMissing | src/server/databricks_permissions_mcp_server.py:276-279 | the checks pass exactly when every required field is truthy; otherwise the answer names the first falsy field, all earlier ones being truthy |
| Server.RequiredFields | src/server/databricks_permissions_mcp_server.py:46-638 | exactly the service-principal, storage-credential, credential and Git-list handlers check no field; no handler checks a field twice |
| Server.Call | src/server/databricks_permissions_mcp_server.py:46-638 | the request each tool's domain call sends uses that tool's HTTP method: POST to create, PUT to set, PATCH to update, DELETE to delete, GET otherwise |
| Server.PrincipalCall | src/server/databricks_permissions_mcp_server.py:49-123 | the same, for the service-principal handlers and the argument positions they pass |
| Server.StorageCredentialCall | src/server/databricks_permissions_mcp_server.py:126-200 | the same, for the storage-credential handlers |
| Server.CredentialCall | src/server/databricks_permissions_mcp_server.py:203-263 | the same, for the credential handlers |
| Server.GenericPermissionCall | src/server/databricks_permissions_mcp_server.py:266-351 | the same, for the generic permission handlers |
| Server.ObjectPermissionCall | src/server/databricks_permissions_mcp_server.py:354-508 | the same, for the per-object permission handlers |
| Server.ShareCall | src/server/databricks_permissions_mcp_server.py:511-548 | the same, for the share handlers |
| Server.GitCall | src/server/databricks_permissions_mcp_server.py:551-638 | the same, for the Git-credential handlers |
| Server.FirstMissingFirst | src/server/databricks_permissions_mcp_server.py:298-303 | when the i-th field is the first falsy one, the answer is "it is required" |
| Server.Wrap | src/server/databricks_permissions_mcp_server.py:282-285 | the transport's result becomes a success envelope verbatim, and its exception becomes an error envelope |
| Server.Handle | src/server/databricks_permissions_mcp_server.py:270-285 | a request that is sent uses the tool's HTTP method, and a handler that sends nothing answers with an error envelope |
| Server.MissingFieldSendsNothing | src/server/databricks_permissions_mcp_server.py:276-281 | if any required field is falsy, no request is sent and the answer names a falsy field no later than it |
| Server.MissingFieldAnswered | src/server/databricks_permissions_mcp_server.py:563-570 | a failed required-field check is the whole answer: the domain function is not called |
| Server.SentIffPresentAndAccepted | src/server/databricks_permissions_mcp_server.py:270-285 | a request reaches the transport exactly when every required field is truthy and the domain function accepts, and it is that function's request |
| Server.TransportResultVerbatim | src/server/databricks_permissions_mcp_server.py:281-285 | a successful send is returned verbatim, a transport exception becomes its error envelope, and success implies a request was sent |
| Server.TransportOnlySeesTheRequest | src/server/databricks_permissions_mcp_server.py:281-285 | the answer depends on the transport only through its reply to the one request |
| Server.UpdateServicePrincipalAlwaysFails | src/server/databricks_permissions_mcp_server.py:105 | the tool always answers with the arity TypeError and sends nothing |
| Server.ListCredentialsAlwaysFails | src/server/databricks_permissions_mcp_server.py:228 | the tool always answers with the arity TypeError and sends nothing |
| Server.CreatePrincipalEntitlements | src/server/databricks_permissions_mcp_server.py:57-60 | the sent body's `entitlements` is `allow_cluster_create` when present and truthy, `applicationId` holds `application_id` exactly when it is truthy, and `roles` never appears |
| Server.ListPrincipalsQuery | src/server/databricks_permissions_mcp_server.py:73-75 | `page_size` becomes the SCIM `filter`, `page_token` becomes `count`, and `startIndex` never appears |
| Server.PrincipalWithoutId | src/server/databricks_permissions_mcp_server.py:88-89 | without an id the get tool requests `.../ServicePrincipals/None` |
| Server.StorageCommentBecomesGcp | src/server/databricks_permissions_mcp_server.py:133-137 | the storage create body never holds `comment`; without aws or azure values the comment becomes `gcp_service_account` |
| Server.StorageUpdateCommentBecomesGcp | src/server/databricks_permissions_mcp_server.py:162-169 | the storage update body never holds `comment`; without aws or azure values the comment becomes `gcp_service_account`, with its value |
| Server.CredentialTypeBecomesAws | src/server/databricks_permissions_mcp_server.py:210-214 | `aws_credentials` holds `credential_type` exactly when it is truthy; otherwise `azure_service_principal` holds `credential_info` when that is truthy; `comment` holds the comment exactly when truthy |
| Server.CredentialCommentBecomesAzure | src/server/databricks_permissions_mcp_server.py:239-245 | the credential update body never holds `comment`; `aws_credentials` holds `credential_info` exactly when it is truthy, and otherwise `azure_service_principal` holds the comment when that is truthy |
| Server.CreateGitCredentialChecks | src/server/databricks_permissions_mcp_server.py:563-568 | `git_provider`, `git_username` and `personal_access_token` are checked in that order; `comment` is optional |
| Server.CreateGitCredentialProvider | src/server/databricks_permissions_mcp_server.py:570-579 | with the three fields truthy, a request is sent exactly when the provider is allowed, and otherwise the answer is InvalidGitProvider |
| Server.SetClusterPermissionsChecks | src/server/databricks_permissions_mcp_server.py:382-385 | `cluster_id` is checked before `access_control_list`, and an empty ACL counts as missing |
| Server.SetPermissionsChecks | src/server/databricks_permissions_mcp_server.py:298-303 | `object_type`, `object_id` and `access_control_list` are checked in that order, and falsy values count as missing |
| Server.UnknownObjectTypeLevels | src/server/databricks_permissions_mcp_server.py:344-351 | with its field truthy, an unknown object type answers InvalidObjectType and sends nothing |
| Server.UnknownObjectTypeGet | src/server/databricks_permissions_mcp_server.py:276-285 | the same for the get tool, once `object_id` is truthy |
| Server.UnknownObjectTypeSet | src/server/databricks_permissions_mcp_server.py:298-309 | the same for the set tool, with `object_id` truthy and whatever a truthy ACL holds |
| Server.UnknownObjectTypeUpdate | src/server/databricks_permissions_mcp_server.py:322-333 | the same for the update tool, with `object_id` truthy and whatever a truthy ACL holds |
| Server.ClusterLevels | src/server/databricks_permissions_mcp_server.py:339-348 | with type `clusters` the tool sends GET `/api/2.0/permissions/clusters` and returns the reply verbatim |
| Server.PermissionLevelsScenario | src/server/databricks_permissions_mcp_server.py:339-348 | the concrete call with only `object_type = "clusters"` |
| Server.MissingAclScenario | src/server/databricks_permissions_mcp_server.py:384-385 | a set-cluster call with only `cluster_id` answers "access_control_list is required" and sends nothing |
| Server.Find | src/server/databricks_permissions_mcp_server.py:50-51 | a name lookup finds a registered tool of that name, or fails exactly when none is registered |
| Server.NameInjective | src/server/databricks_permissions_mcp_server.py:51-623 | no two tools are registered under the same name |
| Server.RegistryComplete | src/server/databricks_permissions_mcp_server.py:46-638 | every tool is in the registry the constructor builds |
| Server.FindRegistered | src/server/databricks_permissions_mcp_server.py:50-51 | looking up a registered tool's name finds that tool |
| Server.Server.Register | src/server/databricks_permissions_mcp_server.py:50-54 | registering appends one tool to the table |
| Server.Server.constructor | src/server/databricks_permissions_mcp_server.py:35-44 | a new server's table is the full registry, in registration order |
| Server.Server.RegisterPrincipalTools | src/server/databricks_permissions_mcp_server.py:49-123 | appends the five service-principal tools in order |
| Server.Server.RegisterStorageCredentialTools | src/server/databricks_permissions_mcp_server.py:126-200 | appends the five storage-credential tools in order |
| Server.Server.RegisterCredentialTools | src/server/databricks_permissions_mcp_server.py:203-263 | appends the four credential tools in order |
| Server.Server.RegisterGenericPermissionTools | src/server/databricks_permissions_mcp_server.py:266-351 | appends the four generic permission tools in order |
| Server.Server.RegisterObjectPermissionTools | src/server/databricks_permissions_mcp_server.py:354-508 | appends the eight typed permission tools in order |
| Server.Server.RegisterShareTools | src/server/databricks_permissions_mcp_server.py:511-548 | appends the two share tools in order |
| Server.Server.RegisterGitTools | src/server/databricks_permissions_mcp_server.py:551-638 | appends the four Git-credential tools in order |
| Server.Server.Lookup | src/server/databricks_permissions_mcp_server.py:50-51 | the registered tool of a name, or none exactly when no tool of that name is registered |
| Server.Server.Dispatch | src/server/databricks_permissions_mcp_server.py:46-638 | a registered name runs its handler; an unregistered name runs nothing |
| Server.DispatchRegistered | src/server/databricks_permissions_mcp_server.py:46-638 | on a constructed server every tool's name dispatches to exactly that tool's handler |
| Server.DispatchUnknown | src/server/databricks_permissions_mcp_server.py:46-638 | a name no tool carries dispatches to nothing |

## Left out

- `make_api_request`, HTTP, authentication and settings are not part of this model. The transport is the parameter `send`, and its reply is an opaque JSON value or an error message.
- The FastMCP framework is left out: tool registration internals, the stdio transport, `main`, `asyncio` and logging. It is framework and I/O code. What the framework answers for an unknown tool name is not modelled; `Dispatch` just returns no trace.
- The mix of awaited and non-awaited calls is not modelled. Every domain call is taken to return the transport's result synchronously.
- `json.dumps` text is not modelled. Envelopes are a `Success(result)` or `Failure(fault)` datatype, not byte-exact JSON.
- Exception message text is not modelled. Faults are structured values naming the offending value, not the f-string messages, which embed Python reprs.
- Requests.Interp: `str()` of a list or dict inside a request path stays an opaque piece. Its repr text is not modelled, so no contract states the text of such a path.
- Floating-point JSON numbers are left out of the `Json` datatype. As a result the model does not cover a float parameter's truthiness (`0.0` is falsy in the required-field checks and the optional-field tests) and does not cover `str()` of a float inside a path.
- src/server/app.py, the example scripts and the tests are not part of this model. They are an HTTP routing stub and network-driven scripts.
- src/api/external_locations.py holds no code.
- The per-kind `update_<kind>_permissions` wrappers and `update_workspace_object_permissions` have no tool. They are modelled as `Permissions.UpdateKindPermissions` and `Permissions.UpdateWorkspaceObjectPermissions` but are not reachable from `Server`.
- One object kind per wrapper family is modelled, not one function per wrapper. `Permissions.ObjectKind` lists the thirteen kinds with wrappers (cluster, job, notebook, warehouse, dashboard, query, alert, repo, serving endpoint, pipeline, instance pool, cluster policy, token). Each wrapper is the generic call with that kind's literal.
