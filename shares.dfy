/**
  Unity Catalog share permissions: every permission a change adds or
  removes must be SELECT or USAGE before the PATCH is sent.
 */
module Shares {
  import opened Wrappers
  import opened Values
  import opened Requests

  /** SHARE_PERMISSIONS. */
  const SharePermissions: seq<string> := ["SELECT", "USAGE"]

  /** `perm in SHARE_PERMISSIONS`: a list, so compared by equality, and only a string is equal. */
  predicate IsSharePermission(v: Json) {
    v.Str? && v.s in SharePermissions
  }

  /** f"/api/2.1/unity-catalog/shares/{name}/permissions". */
  function SharePath(name: Json): (p: Path)
    ensures name.Str? ==> p == Text("/api/2.1/unity-catalog/shares/" + name.s + "/permissions")
  {
    if name.Str? then
      TextAppend("/api/2.1/unity-catalog/shares/", name.s);
      TextAppend("/api/2.1/unity-catalog/shares/" + name.s, "/permissions");
      Text("/api/2.1/unity-catalog/shares/") + Interp(name) + Text("/permissions")
    else Text("/api/2.1/unity-catalog/shares/") + Interp(name) + Text("/permissions")
  }

  /** The inner loop body at one permission. */
  function PermissionFault(perm: Json): (r: Option<Fault>)
    ensures r.None? <==> IsSharePermission(perm)
    ensures r.Some? ==> r.value == InvalidSharePermission(perm)
  {
    if IsSharePermission(perm) then None else Some(InvalidSharePermission(perm))
  }

  /** `for perm in perms: if perm not in SHARE_PERMISSIONS: raise`: on a list, the
      first unknown permission; anything else that is not iterable raises TypeError. */
  function PermissionsFault(perms: Json): (r: Option<Fault>)
    ensures perms.List? ==> (r.None? <==> forall i :: 0 <= i < |perms.items| ==> IsSharePermission(perms.items[i]))
    ensures perms.List? && r.Some? ==>
      exists i :: (0 <= i < |perms.items| && r == Some(InvalidSharePermission(perms.items[i]))
        && forall j :: 0 <= j < i ==> IsSharePermission(perms.items[j]))
    ensures perms.Null? || perms.Bool? || perms.Int? ==> r == Some(NotIterable(perms))
  {
    match Iterate(perms)
    case Error(f) => Some(f)
    case Value(items) =>
      var r := FirstFailure(items, PermissionFault);
      assert r.None? <==> forall i :: 0 <= i < |items| ==> IsSharePermission(items[i]) by {
        assert r.None? <==> forall i :: 0 <= i < |items| ==> PermissionFault(items[i]).None?;
      }
      r
  }

  /** `if key in change: for perm in change[key]: ...`, for key "add" or "remove". */
  function ListFault(change: Json, key: string): (r: Option<Fault>)
    ensures change.Null? || change.Bool? || change.Int? ==> r == Some(NotContainer(change))
    ensures change.Object? && !Has(change.members, key) ==> r.None?
    ensures change.Object? && Has(change.members, key) ==> r == PermissionsFault(Get(change.members, key))
  {
    match Contains(change, key)
    case Error(f) => Some(f)
    case Value(present) =>
      if !present then None
      else
        match Subscript(change, key)
        case Error(f) => Some(f)
        case Value(perms) => PermissionsFault(perms)
  }

  /** The outer loop body at one change: its "add" list is checked before its "remove" list. */
  function ChangeFault(change: Json): (r: Option<Fault>)
    ensures ListFault(change, "add").Some? ==> r == ListFault(change, "add")
    ensures ListFault(change, "add").None? ==> r == ListFault(change, "remove")
  {
    if ListFault(change, "add").Some? then ListFault(change, "add") else ListFault(change, "remove")
  }

  /** The validation loop of update_share_permissions: what it raises first, if anything. */
  function ChangesFault(changes: Json): (r: Option<Fault>)
    ensures changes.Null? || changes.Bool? || changes.Int? ==> r == Some(NotIterable(changes))
    ensures changes.List? ==> (r.None? <==> forall i :: 0 <= i < |changes.items| ==> ChangeFault(changes.items[i]).None?)
    ensures changes.List? && r.Some? ==>
      exists i :: 0 <= i < |changes.items| && ChangeFault(changes.items[i]) == r &&
        forall j :: 0 <= j < i ==> ChangeFault(changes.items[j]).None?
  {
    match Iterate(changes)
    case Error(f) => Some(f)
    case Value(items) => FirstFailure(items, ChangeFault)
  }

  /** A dict whose "add" and "remove" members, where present, are lists. */
  predicate IsChange(change: Json) {
    change.Object? &&
    (Has(change.members, "add") ==> Get(change.members, "add").List?) &&
    (Has(change.members, "remove") ==> Get(change.members, "remove").List?)
  }

  /** The documented shape of `changes`: a list of such dicts. */
  predicate IsChangeList(changes: Json) {
    changes.List? && forall i :: 0 <= i < |changes.items| ==> IsChange(changes.items[i])
  }

  /** Every permission of the member `key` of a change, if it has one, is SELECT or USAGE. */
  predicate ListValid(ms: Members, key: string) {
    Has(ms, key) ==>
      (Get(ms, key).List? && forall j :: 0 <= j < |Get(ms, key).items| ==> IsSharePermission(Get(ms, key).items[j]))
  }

  /** Every permission that any change adds or removes is SELECT or USAGE. */
  predicate ChangesValid(changes: Json)
    requires IsChangeList(changes)
  {
    forall i :: 0 <= i < |changes.items| ==>
      ListValid(changes.items[i].members, "add") && ListValid(changes.items[i].members, "remove")
  }

  /** On one well-shaped change, the list check passes exactly when the list is valid. */
  lemma ListFaultOnChange(change: Json, key: string)
    requires IsChange(change) && (key == "add" || key == "remove")
    ensures ListFault(change, key).None? <==> ListValid(change.members, key)
  {
    var ms := change.members;
    if Has(ms, key) {
      assert Contains(change, key) == Value(true);
      assert Subscript(change, key) == Value(Get(ms, key));
      assert Iterate(Get(ms, key)) == Value(Get(ms, key).items);
    }
  }

  /** On a list of well-shaped changes the validation passes exactly when every
      added and every removed permission is SELECT or USAGE. */
  lemma ChangesFaultOnChangeList(changes: Json)
    requires IsChangeList(changes)
    ensures ChangesFault(changes).None? <==> ChangesValid(changes)
  {
    assert Iterate(changes) == Value(changes.items);
    forall i | 0 <= i < |changes.items|
      ensures ChangeFault(changes.items[i]).None? <==>
        ListValid(changes.items[i].members, "add") && ListValid(changes.items[i].members, "remove")
    {
      ListFaultOnChange(changes.items[i], "add");
      ListFaultOnChange(changes.items[i], "remove");
    }
  }

  /** A change with neither an "add" nor a "remove" key passes, and so does an empty list of changes. */
  lemma ChangeWithoutListsPasses(ms: Members)
    requires !Has(ms, "add") && !Has(ms, "remove")
    ensures ChangeFault(Object(ms)).None?
    ensures ChangesFault(List([])).None?
    ensures ChangesFault(List([Object(ms)])).None?
  {
  }

  /** get_share_permissions: no validation. */
  function GetSharePermissions(name: Json): (r: Outcome)
    ensures r.Sent? && r.request == Request(GET, SharePath(name), None, None)
  {
    Sent(Request(GET, SharePath(name), None, None))
  }

  /** update_share_permissions: sends the changes unchanged, or raises what the validation loop raises first. */
  function UpdateSharePermissions(name: Json, changes: Json): (r: Outcome)
    ensures r.Raised? <==> ChangesFault(changes).Some?
    ensures r.Raised? ==> Some(r.fault) == ChangesFault(changes)
    ensures IsChangeList(changes) ==> (r.Sent? <==> ChangesValid(changes))
    ensures r.Sent? ==> r.request == Request(PATCH, SharePath(name), None, Some(Object([("changes", changes)])))
  {
    assert IsChangeList(changes) ==> (ChangesFault(changes).None? <==> ChangesValid(changes)) by {
      if IsChangeList(changes) { ChangesFaultOnChangeList(changes); }
    }
    match ChangesFault(changes)
    case Some(f) => Raised(f)
    case None => Sent(Request(PATCH, SharePath(name), None, Some(Object([("changes", changes)]))))
  }

  /** One bad permission anywhere, in an "add" or a "remove" list, stops the request. */
  lemma BadPermissionRejected(changes: Json, i: nat, key: string, j: nat)
    requires IsChangeList(changes) && i < |changes.items| && (key == "add" || key == "remove")
    requires Has(changes.items[i].members, key)
    requires j < |Get(changes.items[i].members, key).items|
    requires !IsSharePermission(Get(changes.items[i].members, key).items[j])
    ensures forall name :: UpdateSharePermissions(name, changes).Raised?
  {
    assert !ChangesValid(changes);
  }
}
