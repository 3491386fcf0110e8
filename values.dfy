/**
  JSON values as the tools receive them in their parameter bag and place
  them in request bodies, together with the Python readings of them that
  the source relies on: truthiness, `dict.get`, and `d[k] = v`.
 */
module Values {

  /** A JSON value. Python's None and JSON null are the one value Null.
      An object keeps its members in insertion order, as a Python dict does. */
  datatype Json =
    | Null
    | Bool(b: bool)
    | Int(i: int)
    | Str(s: string)
    | List(items: seq<Json>)
    | Object(members: seq<(string, Json)>)

  /** The members of an object, in order. */
  type Members = seq<(string, Json)>

  /** Python truthiness: None, False, 0, "", [] and {} are falsy. */
  predicate Truthy(v: Json) {
    match v
    case Null => false
    case Bool(b) => b
    case Int(i) => i != 0
    case Str(s) => s != ""
    case List(xs) => xs != []
    case Object(ms) => ms != []
  }

  /** `k in d` for a dict d. */
  predicate Has(ms: Members, k: string) {
    exists i :: 0 <= i < |ms| && ms[i].0 == k
  }

  /** `d.get(k)`: the value stored under k, or None when k is absent. */
  function Get(ms: Members, k: string): (v: Json)
    ensures !Has(ms, k) ==> v == Null
    ensures Has(ms, k) ==> exists i :: 0 <= i < |ms| && ms[i] == (k, v)
  {
    if ms == [] then Null
    else if ms[0].0 == k then ms[0].1
    else
      var v := Get(ms[1..], k);
      assert Has(ms[1..], k) ==> exists i :: 0 <= i < |ms| && ms[i] == (k, v) by {
        if Has(ms[1..], k) {
          var i :| 0 <= i < |ms[1..]| && ms[1..][i] == (k, v);
          assert ms[i + 1] == (k, v);
        }
      }
      assert Has(ms, k) ==> Has(ms[1..], k) by {
        if Has(ms, k) {
          var i :| 0 <= i < |ms| && ms[i].0 == k;
          assert i != 0;
          assert ms[1..][i - 1].0 == k;
        }
      }
      v
  }

  /** `d.get(k, default)`. */
  function GetOr(ms: Members, k: string, default: Json): (v: Json)
    ensures Has(ms, k) ==> v == Get(ms, k)
    ensures !Has(ms, k) ==> v == default
  {
    if Has(ms, k) then Get(ms, k) else default
  }

  /** A key is in a non-empty dict exactly when it is the first key or in the rest. */
  lemma HasFirst(ms: Members, k: string)
    requires ms != []
    ensures Has(ms, k) <==> ms[0].0 == k || Has(ms[1..], k)
  {
    if Has(ms, k) && ms[0].0 != k {
      var i :| 0 <= i < |ms| && ms[i].0 == k;
      assert ms[1..][i - 1].0 == k;
    }
    if Has(ms[1..], k) {
      var i :| 0 <= i < |ms[1..]| && ms[1..][i].0 == k;
      assert ms[i + 1].0 == k;
    }
  }

  /** Looking a key up in a concatenation finds it in the first part when it is there. */
  lemma {:induction false} GetAppend(a: Members, b: Members, k: string)
    ensures Has(a + b, k) <==> Has(a, k) || Has(b, k)
    ensures Get(a + b, k) == if Has(a, k) then Get(a, k) else Get(b, k)
  {
    if a == [] {
      assert a + b == b;
    } else {
      assert (a + b)[0] == a[0];
      assert (a + b)[1..] == a[1..] + b;
      GetAppend(a[1..], b, k);
      HasFirst(a, k);
      HasFirst(a + b, k);
    }
  }

  /** The dict after the Python assignment `d[k] = v`: a key already present
      keeps its place and takes the new value, a new key goes last. */
  function Insert(ms: Members, k: string, v: Json): (r: Members)
    ensures |r| == if Has(ms, k) then |ms| else |ms| + 1
    ensures !Has(ms, k) ==> r == ms + [(k, v)]
  {
    if ms == [] then [(k, v)]
    else if ms[0].0 == k then [(k, v)] + ms[1..]
    else
      assert Has(ms, k) <==> Has(ms[1..], k) by { HasTail(ms, k); }
      [ms[0]] + Insert(ms[1..], k, v)
  }

  /** A key that is not the first one is in the dict iff it is in the rest. */
  lemma HasTail(ms: Members, k: string)
    requires ms != [] && ms[0].0 != k
    ensures Has(ms, k) <==> Has(ms[1..], k)
  {
    if Has(ms, k) {
      var i :| 0 <= i < |ms| && ms[i].0 == k;
      assert ms[1..][i - 1].0 == k;
    }
    if Has(ms[1..], k) {
      var i :| 0 <= i < |ms[1..]| && ms[1..][i].0 == k;
      assert ms[i + 1].0 == k;
    }
  }

  /** After `d[k] = v`, `d.get(k)` is v and every other key reads as before. */
  lemma {:induction false} InsertGet(ms: Members, k: string, v: Json, j: string)
    ensures Has(Insert(ms, k, v), k) && Get(Insert(ms, k, v), k) == v
    ensures j != k ==> (Has(Insert(ms, k, v), j) <==> Has(ms, j))
    ensures j != k ==> Get(Insert(ms, k, v), j) == Get(ms, j)
  {
    var r := Insert(ms, k, v);
    if ms == [] {
      assert r[0].0 == k;
    } else if ms[0].0 == k {
      assert r[0].0 == k;
      if j != k {
        HasTail(r, j);
        HasTail(ms, j);
        assert r[1..] == ms[1..];
      }
    } else {
      InsertGet(ms[1..], k, v, j);
      assert r[0] == ms[0] && r[1..] == Insert(ms[1..], k, v);
      HasTail(r, k);
      if j != k && ms[0].0 != j {
        HasTail(r, j);
        HasTail(ms, j);
      }
      if ms[0].0 == j {
        assert r[0].0 == j;
      }
    }
  }

  /** A dict literal's member `k: v`. */
  function Member(k: string, v: Json): (ms: Members)
    ensures forall j :: Has(ms, j) <==> j == k
    ensures forall j :: Get(ms, j) == if j == k then v else Null
  {
    assert [(k, v)][0].0 == k;
    [(k, v)]
  }

  /** Lookups in a dict built from three consecutive parts. */
  lemma GetParts3(a: Members, b: Members, c: Members, k: string)
    ensures Has(a + b + c, k) <==> Has(a, k) || Has(b, k) || Has(c, k)
    ensures Get(a + b + c, k) == if Has(a, k) then Get(a, k) else if Has(b, k) then Get(b, k) else Get(c, k)
  {
    GetAppend(a + b, c, k);
    GetAppend(a, b, k);
  }

  /** Lookups in a dict built from four consecutive parts. */
  lemma GetParts4(a: Members, b: Members, c: Members, d: Members, k: string)
    ensures Has(a + b + c + d, k) <==> Has(a, k) || Has(b, k) || Has(c, k) || Has(d, k)
    ensures Get(a + b + c + d, k) ==
      if Has(a, k) then Get(a, k) else if Has(b, k) then Get(b, k) else if Has(c, k) then Get(c, k) else Get(d, k)
  {
    GetAppend(a + b + c, d, k);
    GetParts3(a, b, c, k);
  }

  /** Lookups in a dict built from five consecutive parts. */
  lemma GetParts5(a: Members, b: Members, c: Members, d: Members, e: Members, k: string)
    ensures Has(a + b + c + d + e, k) <==> Has(a, k) || Has(b, k) || Has(c, k) || Has(d, k) || Has(e, k)
    ensures Get(a + b + c + d + e, k) ==
      if Has(a, k) then Get(a, k) else if Has(b, k) then Get(b, k) else if Has(c, k) then Get(c, k)
      else if Has(d, k) then Get(d, k) else Get(e, k)
  {
    GetAppend(a + b + c + d, e, k);
    GetParts4(a, b, c, d, k);
  }

  /** The members a source line `if v: data[k] = v` contributes to a literal
      dict that does not hold k yet. */
  function Optional(k: string, v: Json): (ms: Members)
    ensures forall j :: Has(ms, j) <==> j == k && Truthy(v)
    ensures forall j :: Get(ms, j) == if j == k && Truthy(v) then v else Null
  {
    if Truthy(v) then Member(k, v) else []
  }

  /** The source's `if v: data[k] = v` on a dict that does not hold k yet. */
  method InsertIfTruthy(data: Members, k: string, v: Json) returns (r: Members)
    requires !Has(data, k)
    ensures r == data + Optional(k, v)
  {
    r := data;
    if Truthy(v) {
      r := Insert(r, k, v);
    }
  }
}
