/**
  Git credentials: create checks the provider against an allow-list and
  builds its body key by key; update and delete carry the credential id in
  the body of a request on the fixed path /api/2.0/git-credentials.
 */
module GitCredentials {
  import opened Wrappers
  import opened Values
  import opened Requests

  /** GIT_PROVIDERS. */
  const GitProviders: seq<string> :=
    ["github", "gitlab", "bitbucket", "azureDevOpsServices", "azureDevOpsServicesAAD", "awsCodeCommit"]

  /** `git_provider in GIT_PROVIDERS`: only a string equals an element of that list. */
  predicate IsGitProvider(v: Json) {
    v.Str? && v.s in GitProviders
  }

  /** The one path every Git-credential request uses. */
  function CredentialsPath(): Path {
    Text("/api/2.0/git-credentials")
  }

  /** The create body: the three given fields, and the comment when it is truthy. */
  function CreateBody(provider: Json, username: Json, token: Json, comment: Json): (ms: Members)
    ensures Has(ms, "git_provider") && Has(ms, "git_username") && Has(ms, "personal_access_token")
    ensures Get(ms, "git_provider") == provider
    ensures Get(ms, "git_username") == username
    ensures Get(ms, "personal_access_token") == token
    ensures Has(ms, "comment") <==> Truthy(comment)
    ensures Truthy(comment) ==> Get(ms, "comment") == comment
    ensures forall k :: Has(ms, k) ==> k in ["git_provider", "git_username", "personal_access_token", "comment"]
  {
    var p := Member("git_provider", provider);
    var u := Member("git_username", username);
    var t := Member("personal_access_token", token);
    var c := Optional("comment", comment);
    forall k ensures Has(p + u + t + c, k) <==> Has(p, k) || Has(u, k) || Has(t, k) || Has(c, k)
      ensures Get(p + u + t + c, k) ==
        if Has(p, k) then Get(p, k) else if Has(u, k) then Get(u, k) else if Has(t, k) then Get(t, k) else Get(c, k)
    {
      GetParts4(p, u, t, c, k);
    }
    p + u + t + c
  }

  /** create_git_credential: POST of the create body, or ValueError for an unknown provider before any request. */
  function CreateGitCredential(provider: Json, username: Json, token: Json, comment: Json): (r: Outcome)
    ensures r.Raised? <==> !IsGitProvider(provider)
    ensures r.Raised? ==> r.fault == InvalidGitProvider(provider)
    ensures r.Sent? ==> r.request == Request(POST, CredentialsPath(), None, Some(Object(CreateBody(provider, username, token, comment))))
  {
    if !IsGitProvider(provider) then Raised(InvalidGitProvider(provider))
    else Sent(Request(POST, CredentialsPath(), None, Some(Object(CreateBody(provider, username, token, comment)))))
  }

  /** create_git_credential as the source writes it: a literal dict, then `data["comment"] = comment` when truthy. */
  method BuildCreateGitCredential(provider: Json, username: Json, token: Json, comment: Json) returns (r: Outcome)
    ensures r == CreateGitCredential(provider, username, token, comment)
  {
    if !IsGitProvider(provider) {
      return Raised(InvalidGitProvider(provider));
    }
    var data := [("git_provider", provider), ("git_username", username), ("personal_access_token", token)];
    assert data == Member("git_provider", provider) + Member("git_username", username) + Member("personal_access_token", token);
    if Truthy(comment) {
      GetParts3(Member("git_provider", provider), Member("git_username", username), Member("personal_access_token", token), "comment");
      data := Insert(data, "comment", comment);
    }
    assert data == CreateBody(provider, username, token, comment);
    r := Sent(Request(POST, CredentialsPath(), None, Some(Object(data))));
  }

  /** list_git_credentials. */
  function ListGitCredentials(): (r: Outcome)
    ensures r.Sent? && r.request.verb == GET && r.request.body.None? && r.request.query.None?
    ensures Render(r.request.path) == Some("/api/2.0/git-credentials")
  {
    RenderText("/api/2.0/git-credentials");
    Sent(Request(GET, CredentialsPath(), None, None))
  }

  /** The update body: the credential id, then each optional field exactly when it is truthy. */
  function UpdateBody(id: Json, provider: Json, username: Json, token: Json, comment: Json): (ms: Members)
    ensures ms != [] && ms[0] == ("credential_id", id)
  {
    Member("credential_id", id) + Optional("git_provider", provider) + Optional("git_username", username)
      + Optional("personal_access_token", token) + Optional("comment", comment)
  }

  /** The update body always names the credential. */
  lemma UpdateBodyId(id: Json, provider: Json, username: Json, token: Json, comment: Json, ms: Members)
    requires ms == UpdateBody(id, provider, username, token, comment)
    ensures Has(ms, "credential_id")
    ensures Get(ms, "credential_id") == id
  {
    var a, b, c := Member("credential_id", id), Optional("git_provider", provider), Optional("git_username", username);
    var d, e := Optional("personal_access_token", token), Optional("comment", comment);
    GetParts5(a, b, c, d, e, "credential_id");
  }

  /** Each optional field of the update body is there exactly when its argument is
      truthy, and then carries that argument unchanged. */
  lemma UpdateBodyField(id: Json, provider: Json, username: Json, token: Json, comment: Json, ms: Members, k: string, v: Json)
    requires ms == UpdateBody(id, provider, username, token, comment)
    requires (k, v) in [("git_provider", provider), ("git_username", username), ("personal_access_token", token), ("comment", comment)]
    ensures Has(ms, k) <==> Truthy(v)
    ensures Truthy(v) ==> Get(ms, k) == v
  {
    var a, b, c := Member("credential_id", id), Optional("git_provider", provider), Optional("git_username", username);
    var d, e := Optional("personal_access_token", token), Optional("comment", comment);
    GetParts5(a, b, c, d, e, k);
  }

  /** The update body holds no key but the credential id and the four optional fields. */
  lemma UpdateBodyOnlyKeys(id: Json, provider: Json, username: Json, token: Json, comment: Json, ms: Members, k: string)
    requires ms == UpdateBody(id, provider, username, token, comment)
    requires Has(ms, k)
    ensures k in ["credential_id", "git_provider", "git_username", "personal_access_token", "comment"]
  {
    var a, b, c := Member("credential_id", id), Optional("git_provider", provider), Optional("git_username", username);
    var d, e := Optional("personal_access_token", token), Optional("comment", comment);
    GetParts5(a, b, c, d, e, k);
  }

  /** update_git_credential: a provider is validated only when one is given. */
  function UpdateGitCredential(id: Json, provider: Json, username: Json, token: Json, comment: Json): (r: Outcome)
    ensures r.Raised? <==> Truthy(provider) && !IsGitProvider(provider)
    ensures r.Raised? ==> r.fault == InvalidGitProvider(provider)
    ensures r.Sent? ==> r.request == Request(PATCH, CredentialsPath(), None, Some(Object(UpdateBody(id, provider, username, token, comment))))
  {
    if Truthy(provider) && !IsGitProvider(provider) then Raised(InvalidGitProvider(provider))
    else Sent(Request(PATCH, CredentialsPath(), None, Some(Object(UpdateBody(id, provider, username, token, comment)))))
  }

  /** update_git_credential as the source writes it: start from the id and insert each truthy field in turn. */
  method BuildUpdateGitCredential(id: Json, provider: Json, username: Json, token: Json, comment: Json) returns (r: Outcome)
    ensures r == UpdateGitCredential(id, provider, username, token, comment)
  {
    ghost var a := Member("credential_id", id);
    ghost var b := Optional("git_provider", provider);
    ghost var c := Optional("git_username", username);
    ghost var d := Optional("personal_access_token", token);
    var data := [("credential_id", id)];
    if Truthy(provider) && !IsGitProvider(provider) {
      return Raised(InvalidGitProvider(provider));
    }
    data := InsertIfTruthy(data, "git_provider", provider);
    GetAppend(a, b, "git_username");
    data := InsertIfTruthy(data, "git_username", username);
    GetParts3(a, b, c, "personal_access_token");
    data := InsertIfTruthy(data, "personal_access_token", token);
    GetParts4(a, b, c, d, "comment");
    data := InsertIfTruthy(data, "comment", comment);
    r := Sent(Request(PATCH, CredentialsPath(), None, Some(Object(data))));
  }

  /** delete_git_credential: DELETE with body exactly {"credential_id": id}. */
  function DeleteGitCredential(id: Json): (r: Outcome)
    ensures r.Sent? && r.request.verb == DELETE && r.request.query.None?
    ensures r.request.body == Some(Object([("credential_id", id)]))
    ensures r.request.path == ListGitCredentials().request.path
  {
    Sent(Request(DELETE, CredentialsPath(), None, Some(Object([("credential_id", id)]))))
  }

  /** The credential id never reaches the path: update and delete use the same path as list and create. */
  lemma IdTravelsInBody(id: Json, provider: Json, username: Json, token: Json, comment: Json)
    ensures UpdateGitCredential(id, provider, username, token, comment).Sent? ==>
      UpdateGitCredential(id, provider, username, token, comment).request.path == ListGitCredentials().request.path
    ensures DeleteGitCredential(id).request.path == ListGitCredentials().request.path
    ensures CreateGitCredential(provider, username, token, comment).Sent? ==>
      CreateGitCredential(provider, username, token, comment).request.path == ListGitCredentials().request.path
  {
  }
}
