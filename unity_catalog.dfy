/**
  Unity Catalog storage credentials and credentials. Create and update pick at
  most one cloud-credential key by precedence and add the other optional
  fields only when they are truthy; get, update and delete address one
  credential by name in the path.
 */
module UnityCatalog {
  import opened Wrappers
  import opened Values
  import opened Requests

  const StorageCredentialsBase: string := "/api/2.1/unity-catalog/storage-credentials"
  const CredentialsBase: string := "/api/2.1/unity-catalog/credentials"

  /** The storage-credential chain `if aws: ... elif azure: ... elif gcp: ...`:
      at most one key, for the first truthy argument in the order aws, azure, gcp. */
  function StorageCloudKey(aws: Json, azure: Json, gcp: Json): (ms: Members)
    ensures |ms| <= 1
    ensures Has(ms, "aws_credentials") <==> Truthy(aws)
    ensures Has(ms, "azure_managed_identity") <==> !Truthy(aws) && Truthy(azure)
    ensures Has(ms, "gcp_service_account") <==> !Truthy(aws) && !Truthy(azure) && Truthy(gcp)
    ensures forall k :: Has(ms, k) ==> k == "aws_credentials" || k == "azure_managed_identity" || k == "gcp_service_account"
    ensures Truthy(aws) ==> Get(ms, "aws_credentials") == aws
    ensures !Truthy(aws) && Truthy(azure) ==> Get(ms, "azure_managed_identity") == azure
    ensures !Truthy(aws) && !Truthy(azure) && Truthy(gcp) ==> Get(ms, "gcp_service_account") == gcp
  {
    if Truthy(aws) then Member("aws_credentials", aws)
    else if Truthy(azure) then Member("azure_managed_identity", azure)
    else Optional("gcp_service_account", gcp)
  }

  /** The credential chain `if aws: ... elif azure: ...`: no gcp branch, and azure goes under azure_service_principal. */
  function CloudKey(aws: Json, azure: Json): (ms: Members)
    ensures |ms| <= 1
    ensures Has(ms, "aws_credentials") <==> Truthy(aws)
    ensures Has(ms, "azure_service_principal") <==> !Truthy(aws) && Truthy(azure)
    ensures forall k :: Has(ms, k) ==> k == "aws_credentials" || k == "azure_service_principal"
    ensures Truthy(aws) ==> Get(ms, "aws_credentials") == aws
    ensures !Truthy(aws) && Truthy(azure) ==> Get(ms, "azure_service_principal") == azure
  {
    if Truthy(aws) then Member("aws_credentials", aws)
    else Optional("azure_service_principal", azure)
  }

  /** A body made of a name part, a cloud-key part and the optional comment, in that order. */
  function Body(names: Members, cloud: Members, comment: Json): (ms: Members)
    ensures forall k :: Has(ms, k) <==> Has(names, k) || Has(cloud, k) || (k == "comment" && Truthy(comment))
    ensures forall k :: Has(names, k) ==> Get(ms, k) == Get(names, k)
    ensures forall k :: !Has(names, k) && k != "comment" ==> Get(ms, k) == Get(cloud, k)
    ensures !Has(names, "comment") && !Has(cloud, "comment") ==> Get(ms, "comment") == (if Truthy(comment) then comment else Null)
  {
    var c := Optional("comment", comment);
    forall k ensures Has(names + cloud + c, k) <==> Has(names, k) || Has(cloud, k) || Has(c, k)
      ensures Get(names + cloud + c, k) == if Has(names, k) then Get(names, k)
        else if Has(cloud, k) then Get(cloud, k) else Get(c, k)
    {
      GetParts3(names, cloud, c, k);
    }
    names + cloud + c
  }

  /** The create_storage_credential body. */
  function CreateStorageBody(name: Json, aws: Json, azure: Json, gcp: Json, comment: Json): (ms: Members)
    ensures ms != [] && ms[0] == ("name", name)
  {
    Body(Member("name", name), StorageCloudKey(aws, azure, gcp), comment)
  }

  /** The update_storage_credential body. */
  function UpdateStorageBody(newName: Json, aws: Json, azure: Json, gcp: Json, comment: Json): (ms: Members)
    ensures Truthy(newName) ==> ms != [] && ms[0] == ("name", newName)
  {
    Body(Optional("name", newName), StorageCloudKey(aws, azure, gcp), comment)
  }

  /** The create_credential body. */
  function CreateCredentialBody(name: Json, aws: Json, azure: Json, comment: Json): (ms: Members)
    ensures ms != [] && ms[0] == ("name", name)
  {
    Body(Member("name", name), CloudKey(aws, azure), comment)
  }

  /** The update_credential body. */
  function UpdateCredentialBody(newName: Json, aws: Json, azure: Json, comment: Json): (ms: Members)
    ensures Truthy(newName) ==> ms != [] && ms[0] == ("name", newName)
  {
    Body(Optional("name", newName), CloudKey(aws, azure), comment)
  }

  /** The name part of a create body ({"name": name}) or of an update body (`if new_name:`). */
  ghost predicate OnlyName(names: Members) {
    forall k :: Has(names, k) ==> k == "name"
  }

  /** The storage-credential if/elif chain and `if comment:` applied to a dict holding at most "name". */
  method AddStorageFields(data: Members, aws: Json, azure: Json, gcp: Json, comment: Json) returns (r: Members)
    requires OnlyName(data)
    ensures r == Body(data, StorageCloudKey(aws, azure, gcp), comment)
  {
    r := data;
    if Truthy(aws) {
      r := Insert(r, "aws_credentials", aws);
    } else if Truthy(azure) {
      r := Insert(r, "azure_managed_identity", azure);
    } else if Truthy(gcp) {
      r := Insert(r, "gcp_service_account", gcp);
    }
    GetAppend(data, StorageCloudKey(aws, azure, gcp), "comment");
    r := InsertIfTruthy(r, "comment", comment);
  }

  /** The credential if/elif chain and `if comment:` applied to a dict holding at most "name". */
  method AddCredentialFields(data: Members, aws: Json, azure: Json, comment: Json) returns (r: Members)
    requires OnlyName(data)
    ensures r == Body(data, CloudKey(aws, azure), comment)
  {
    r := data;
    if Truthy(aws) {
      r := Insert(r, "aws_credentials", aws);
    } else if Truthy(azure) {
      r := Insert(r, "azure_service_principal", azure);
    }
    GetAppend(data, CloudKey(aws, azure), "comment");
    r := InsertIfTruthy(r, "comment", comment);
  }

  // Storage credentials

  /** create_storage_credential: POST of {"name": name} extended by the cloud key and the comment. */
  function CreateStorageCredential(name: Json, aws: Json, azure: Json, gcp: Json, comment: Json): (r: Outcome)
    ensures r.Sent? && r.request.verb == POST && r.request.query.None?
    ensures r.request.path == Text(StorageCredentialsBase)
    ensures r.request.body == Some(Object(CreateStorageBody(name, aws, azure, gcp, comment)))
  {
    Sent(Request(POST, Text(StorageCredentialsBase), None, Some(Object(CreateStorageBody(name, aws, azure, gcp, comment)))))
  }

  /** create_storage_credential as the source builds it, key by key. */
  method BuildCreateStorageCredential(name: Json, aws: Json, azure: Json, gcp: Json, comment: Json) returns (r: Outcome)
    ensures r == CreateStorageCredential(name, aws, azure, gcp, comment)
  {
    var data := [("name", name)];
    assert data == Member("name", name);
    data := AddStorageFields(data, aws, azure, gcp, comment);
    r := Sent(Request(POST, Text(StorageCredentialsBase), None, Some(Object(data))));
  }

  /** get_storage_credential. */
  function GetStorageCredential(name: Json): (r: Outcome)
    ensures r.Sent? && r.request.verb == GET && r.request.query.None? && r.request.body.None?
    ensures name.Str? ==> r.request.path == Text(StorageCredentialsBase + "/" + name.s)
  {
    Sent(Request(GET, Under(StorageCredentialsBase, name), None, None))
  }

  /** update_storage_credential: PATCH on the credential's path; the body starts empty and
      gains "name" only for a truthy new name. */
  function UpdateStorageCredential(name: Json, newName: Json, aws: Json, azure: Json, gcp: Json, comment: Json): (r: Outcome)
    ensures r.Sent? && r.request.verb == PATCH && r.request.query.None?
    ensures r.request.path == GetStorageCredential(name).request.path
    ensures r.request.body == Some(Object(UpdateStorageBody(newName, aws, azure, gcp, comment)))
  {
    Sent(Request(PATCH, Under(StorageCredentialsBase, name), None,
      Some(Object(UpdateStorageBody(newName, aws, azure, gcp, comment)))))
  }

  /** update_storage_credential as the source builds it, key by key from an empty dict. */
  method BuildUpdateStorageCredential(name: Json, newName: Json, aws: Json, azure: Json, gcp: Json, comment: Json) returns (r: Outcome)
    ensures r == UpdateStorageCredential(name, newName, aws, azure, gcp, comment)
  {
    var data: Members := [];
    data := InsertIfTruthy(data, "name", newName);
    assert data == Optional("name", newName);
    data := AddStorageFields(data, aws, azure, gcp, comment);
    r := Sent(Request(PATCH, Under(StorageCredentialsBase, name), None, Some(Object(data))));
  }

  /** delete_storage_credential. */
  function DeleteStorageCredential(name: Json): (r: Outcome)
    ensures r.Sent? && r.request.verb == DELETE && r.request.query.None? && r.request.body.None?
    ensures r.request.path == GetStorageCredential(name).request.path
  {
    Sent(Request(DELETE, Under(StorageCredentialsBase, name), None, None))
  }

  /** list_storage_credentials: the query always goes out, holding max_results only when it is truthy. */
  function ListStorageCredentials(maxResults: Json): (r: Outcome)
    ensures r.Sent? && r.request.verb == GET && r.request.body.None?
    ensures r.request.path == Text(StorageCredentialsBase)
    ensures r.request.query.Some?
    ensures forall k :: Has(r.request.query.value, k) <==> k == "max_results" && Truthy(maxResults)
    ensures Truthy(maxResults) ==> r.request.query.value == [("max_results", maxResults)]
    ensures !Truthy(maxResults) ==> r.request.query.value == []
  {
    Sent(Request(GET, Text(StorageCredentialsBase), Some(Optional("max_results", maxResults)), None))
  }

  /** list_storage_credentials as the source builds its params dict. */
  method BuildListStorageCredentials(maxResults: Json) returns (r: Outcome)
    ensures r == ListStorageCredentials(maxResults)
  {
    var params := InsertIfTruthy([], "max_results", maxResults);
    assert params == Optional("max_results", maxResults);
    r := Sent(Request(GET, Text(StorageCredentialsBase), Some(params), None));
  }

  // Credentials

  /** create_credential: POST of {"name": name} extended by the aws-or-azure key and the comment. */
  function CreateCredential(name: Json, aws: Json, azure: Json, comment: Json): (r: Outcome)
    ensures r.Sent? && r.request.verb == POST && r.request.query.None?
    ensures r.request.path == Text(CredentialsBase)
    ensures r.request.body == Some(Object(CreateCredentialBody(name, aws, azure, comment)))
  {
    Sent(Request(POST, Text(CredentialsBase), None, Some(Object(CreateCredentialBody(name, aws, azure, comment)))))
  }

  /** create_credential as the source builds it, key by key. */
  method BuildCreateCredential(name: Json, aws: Json, azure: Json, comment: Json) returns (r: Outcome)
    ensures r == CreateCredential(name, aws, azure, comment)
  {
    var data := [("name", name)];
    assert data == Member("name", name);
    data := AddCredentialFields(data, aws, azure, comment);
    r := Sent(Request(POST, Text(CredentialsBase), None, Some(Object(data))));
  }

  /** list_credentials: takes no argument and sends no query. */
  function ListCredentials(): (r: Outcome)
    ensures r.Sent? && r.request.verb == GET && r.request.query.None? && r.request.body.None?
    ensures Render(r.request.path) == Some("/api/2.1/unity-catalog/credentials")
  {
    RenderText(CredentialsBase);
    Sent(Request(GET, Text(CredentialsBase), None, None))
  }

  /** update_credential: PATCH on the credential's path, with a body that starts empty. */
  function UpdateCredential(name: Json, newName: Json, aws: Json, azure: Json, comment: Json): (r: Outcome)
    ensures r.Sent? && r.request.verb == PATCH && r.request.query.None?
    ensures name.Str? ==> r.request.path == Text(CredentialsBase + "/" + name.s)
    ensures r.request.body == Some(Object(UpdateCredentialBody(newName, aws, azure, comment)))
  {
    Sent(Request(PATCH, Under(CredentialsBase, name), None, Some(Object(UpdateCredentialBody(newName, aws, azure, comment)))))
  }

  /** update_credential as the source builds it, key by key from an empty dict. */
  method BuildUpdateCredential(name: Json, newName: Json, aws: Json, azure: Json, comment: Json) returns (r: Outcome)
    ensures r == UpdateCredential(name, newName, aws, azure, comment)
  {
    var data: Members := [];
    data := InsertIfTruthy(data, "name", newName);
    assert data == Optional("name", newName);
    data := AddCredentialFields(data, aws, azure, comment);
    r := Sent(Request(PATCH, Under(CredentialsBase, name), None, Some(Object(data))));
  }

  /** delete_credential. */
  function DeleteCredential(name: Json): (r: Outcome)
    ensures r.Sent? && r.request.verb == DELETE && r.request.query.None? && r.request.body.None?
    ensures r.request.path == UpdateCredential(name, Null, Null, Null, Null).request.path
  {
    Sent(Request(DELETE, Under(CredentialsBase, name), None, None))
  }

  // Properties of the bodies

  /** The storage-credential create body carries the name, and the comment exactly when it is truthy. */
  lemma StorageCreateNameComment(name: Json, aws: Json, azure: Json, gcp: Json, comment: Json, ms: Members)
    requires ms == CreateStorageBody(name, aws, azure, gcp, comment)
    ensures Has(ms, "name") && Get(ms, "name") == name
    ensures Has(ms, "comment") <==> Truthy(comment)
    ensures Get(ms, "comment") == (if Truthy(comment) then comment else Null)
    ensures forall k :: Has(ms, k) ==> k == "name" || k == "comment" || Has(StorageCloudKey(aws, azure, gcp), k)
  {
    var names := Member("name", name);
    var cloud := StorageCloudKey(aws, azure, gcp);
    assert ms == Body(names, cloud, comment);
    assert !Has(names, "comment") && !Has(cloud, "comment");
  }

  /** The storage-credential create body holds exactly one cloud key, chosen by the
      precedence aws, azure, gcp, when any configuration is truthy. */
  lemma StorageCreateCloudKey(name: Json, aws: Json, azure: Json, gcp: Json, comment: Json, ms: Members)
    requires ms == CreateStorageBody(name, aws, azure, gcp, comment)
    ensures Has(ms, "aws_credentials") <==> Truthy(aws)
    ensures Has(ms, "azure_managed_identity") <==> !Truthy(aws) && Truthy(azure)
    ensures Has(ms, "gcp_service_account") <==> !Truthy(aws) && !Truthy(azure) && Truthy(gcp)
  {
    var names := Member("name", name);
    var cloud := StorageCloudKey(aws, azure, gcp);
    assert ms == Body(names, cloud, comment);
  }

  /** The chosen cloud key carries its configuration unchanged. */
  lemma StorageCreateCloudValue(name: Json, aws: Json, azure: Json, gcp: Json, comment: Json, ms: Members)
    requires ms == CreateStorageBody(name, aws, azure, gcp, comment)
    ensures Truthy(aws) ==> Get(ms, "aws_credentials") == aws
    ensures !Truthy(aws) && Truthy(azure) ==> Get(ms, "azure_managed_identity") == azure
    ensures !Truthy(aws) && !Truthy(azure) && Truthy(gcp) ==> Get(ms, "gcp_service_account") == gcp
  {
    var names := Member("name", name);
    var cloud := StorageCloudKey(aws, azure, gcp);
    assert ms == Body(names, cloud, comment);
    assert !Has(names, "aws_credentials") && !Has(names, "azure_managed_identity") && !Has(names, "gcp_service_account");
  }

  /** The storage-credential update body carries the new name and the comment,
      each only when truthy. */
  lemma StorageUpdateNameComment(newName: Json, aws: Json, azure: Json, gcp: Json, comment: Json, ms: Members)
    requires ms == UpdateStorageBody(newName, aws, azure, gcp, comment)
    ensures Has(ms, "name") <==> Truthy(newName)
    ensures Has(ms, "comment") <==> Truthy(comment)
  {
    var names := Optional("name", newName);
    var cloud := StorageCloudKey(aws, azure, gcp);
    assert ms == Body(names, cloud, comment);
    assert !Has(cloud, "name") && !Has(cloud, "comment");
  }

  /** The storage-credential update body's chosen credential key holds the argument that won the precedence. */
  lemma StorageUpdateCloudValue(newName: Json, aws: Json, azure: Json, gcp: Json, comment: Json, ms: Members)
    requires ms == UpdateStorageBody(newName, aws, azure, gcp, comment)
    ensures Truthy(aws) ==> Get(ms, "aws_credentials") == aws
    ensures !Truthy(aws) && Truthy(azure) ==> Get(ms, "azure_managed_identity") == azure
    ensures !Truthy(aws) && !Truthy(azure) && Truthy(gcp) ==> Get(ms, "gcp_service_account") == gcp
  {
    var names := Optional("name", newName);
    var cloud := StorageCloudKey(aws, azure, gcp);
    assert ms == Body(names, cloud, comment);
    assert !Has(names, "aws_credentials") && !Has(names, "azure_managed_identity") && !Has(names, "gcp_service_account");
  }

  /** The storage-credential update body's cloud key follows the same precedence as on create. */
  lemma StorageUpdateCloudKey(newName: Json, aws: Json, azure: Json, gcp: Json, comment: Json, ms: Members)
    requires ms == UpdateStorageBody(newName, aws, azure, gcp, comment)
    ensures Has(ms, "aws_credentials") <==> Truthy(aws)
    ensures Has(ms, "azure_managed_identity") <==> !Truthy(aws) && Truthy(azure)
    ensures Has(ms, "gcp_service_account") <==> !Truthy(aws) && !Truthy(azure) && Truthy(gcp)
  {
    var names := Optional("name", newName);
    var cloud := StorageCloudKey(aws, azure, gcp);
    assert ms == Body(names, cloud, comment);
    assert !Has(names, "aws_credentials") && !Has(names, "azure_managed_identity") && !Has(names, "gcp_service_account");
  }

  /** The precedence in one equation: a truthy aws configuration makes the azure and
      gcp arguments irrelevant, and a truthy azure one makes gcp irrelevant. */
  lemma StoragePrecedence(name: Json, newName: Json, aws: Json, azure: Json, gcp: Json, comment: Json)
    ensures Truthy(aws) ==> CreateStorageCredential(name, aws, azure, gcp, comment) == CreateStorageCredential(name, aws, Null, Null, comment)
    ensures Truthy(aws) ==> UpdateStorageCredential(name, newName, aws, azure, gcp, comment) == UpdateStorageCredential(name, newName, aws, Null, Null, comment)
    ensures !Truthy(aws) && Truthy(azure) ==> CreateStorageCredential(name, aws, azure, gcp, comment) == CreateStorageCredential(name, Null, azure, Null, comment)
    ensures Truthy(aws) ==> CreateCredential(name, aws, azure, comment) == CreateCredential(name, aws, Null, comment)
  {
  }

  /** An update with nothing truthy to change still sends a PATCH, with an empty body. */
  lemma EmptyUpdates(name: Json)
    ensures UpdateStorageCredential(name, Null, Null, Null, Null, Null).request.body == Some(Object([]))
    ensures UpdateCredential(name, Null, Null, Null, Null).request.body == Some(Object([]))
  {
  }

  /** The credential create body carries the name, the cloud key aws before azure,
      and the comment exactly when it is truthy. */
  lemma CredentialCreateKeys(name: Json, aws: Json, azure: Json, comment: Json, ms: Members)
    requires ms == CreateCredentialBody(name, aws, azure, comment)
    ensures Has(ms, "name") && Get(ms, "name") == name
    ensures Has(ms, "aws_credentials") <==> Truthy(aws)
    ensures Has(ms, "azure_service_principal") <==> !Truthy(aws) && Truthy(azure)
    ensures Has(ms, "comment") <==> Truthy(comment)
  {
    var names := Member("name", name);
    var cloud := CloudKey(aws, azure);
    assert ms == Body(names, cloud, comment);
    assert !Has(names, "aws_credentials") && !Has(names, "azure_service_principal") && !Has(names, "comment");
  }

  /** The credential create body holds the winning cloud configuration and the comment unchanged. */
  lemma CredentialCreateValues(name: Json, aws: Json, azure: Json, comment: Json, ms: Members)
    requires ms == CreateCredentialBody(name, aws, azure, comment)
    ensures Truthy(aws) ==> Get(ms, "aws_credentials") == aws
    ensures !Truthy(aws) && Truthy(azure) ==> Get(ms, "azure_service_principal") == azure
    ensures Truthy(comment) ==> Get(ms, "comment") == comment
  {
    var names := Member("name", name);
    var cloud := CloudKey(aws, azure);
    assert ms == Body(names, cloud, comment);
    assert !Has(names, "aws_credentials") && !Has(names, "azure_service_principal") && !Has(names, "comment");
    assert !Has(cloud, "comment");
  }

  /** The credential create body holds no key beyond name, the two cloud keys and comment. */
  lemma CredentialCreateOnlyKeys(name: Json, aws: Json, azure: Json, comment: Json, ms: Members, k: string)
    requires ms == CreateCredentialBody(name, aws, azure, comment)
    requires Has(ms, k)
    ensures k in ["name", "aws_credentials", "azure_service_principal", "comment"]
  {
    assert ms == Body(Member("name", name), CloudKey(aws, azure), comment);
  }

  /** The credential update body: "name" carries the new name, never the one in the path. */
  lemma CredentialUpdateName(newName: Json, aws: Json, azure: Json, comment: Json, ms: Members)
    requires ms == UpdateCredentialBody(newName, aws, azure, comment)
    ensures Has(ms, "name") <==> Truthy(newName)
    ensures Get(ms, "name") == (if Truthy(newName) then newName else Null)
  {
    var names := Optional("name", newName);
    var cloud := CloudKey(aws, azure);
    assert ms == Body(names, cloud, comment);
    assert !Has(cloud, "name");
    if !Truthy(newName) {
      assert Get(ms, "name") == Get(cloud, "name");
    }
  }

  /** The credential update body's cloud key follows aws before azure. */
  lemma CredentialUpdateKeys(newName: Json, aws: Json, azure: Json, comment: Json, ms: Members)
    requires ms == UpdateCredentialBody(newName, aws, azure, comment)
    ensures Has(ms, "aws_credentials") <==> Truthy(aws)
    ensures Has(ms, "azure_service_principal") <==> !Truthy(aws) && Truthy(azure)
    ensures Has(ms, "comment") <==> Truthy(comment)
  {
    var names := Optional("name", newName);
    var cloud := CloudKey(aws, azure);
    assert ms == Body(names, cloud, comment);
  }

  /** The credential update body's chosen cloud key holds the argument that won the precedence. */
  lemma CredentialUpdateValues(newName: Json, aws: Json, azure: Json, comment: Json, ms: Members)
    requires ms == UpdateCredentialBody(newName, aws, azure, comment)
    ensures Truthy(aws) ==> Get(ms, "aws_credentials") == aws
    ensures !Truthy(aws) && Truthy(azure) ==> Get(ms, "azure_service_principal") == azure
  {
    var names := Optional("name", newName);
    var cloud := CloudKey(aws, azure);
    assert ms == Body(names, cloud, comment);
    assert !Has(names, "aws_credentials") && !Has(names, "azure_service_principal");
  }

  /** The storage-credential keys azure_managed_identity and gcp_service_account never
      occur in a credential update body. */
  lemma CredentialUpdateNoStorageKeys(newName: Json, aws: Json, azure: Json, comment: Json, ms: Members)
    requires ms == UpdateCredentialBody(newName, aws, azure, comment)
    ensures !Has(ms, "gcp_service_account") && !Has(ms, "azure_managed_identity")
  {
    var names := Optional("name", newName);
    var cloud := CloudKey(aws, azure);
    assert ms == Body(names, cloud, comment);
    assert !Has(names, "gcp_service_account") && !Has(cloud, "gcp_service_account");
    assert !Has(names, "azure_managed_identity") && !Has(cloud, "azure_managed_identity");
  }
}
