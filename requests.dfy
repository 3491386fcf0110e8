/**
  What a domain function hands to the transport: one HTTP request
  description, or the exception it raised before building one. Also the
  Python operations the validators apply to untyped JSON values.
 */
module Requests {
  import opened Wrappers
  import opened Values

  datatype Method = GET | POST | PUT | PATCH | DELETE

  /** One piece of a request path: a character, or an interpolated list or
      dict, whose Python repr text is not modelled. */
  datatype Piece = Ch(c: char) | Opaque(v: Json)

  type Path = seq<Piece>

  /** The path pieces that spell out s. */
  function Text(s: string): (p: Path)
    ensures |p| == |s| && forall i :: 0 <= i < |s| ==> p[i] == Ch(s[i])
  {
    seq(|s|, i requires 0 <= i < |s| => Ch(s[i]))
  }

  lemma TextAppend(a: string, b: string)
    ensures Text(a + b) == Text(a) + Text(b)
  {
    assert forall i :: 0 <= i < |a + b| ==> Text(a + b)[i] == (Text(a) + Text(b))[i];
  }

  /** The text of a path, when every piece of it is a character. */
  function Render(p: Path): (r: Option<string>)
    ensures r.Some? <==> forall i :: 0 <= i < |p| ==> p[i].Ch?
    ensures r.Some? ==> |r.value| == |p| && forall i :: 0 <= i < |p| ==> r.value[i] == p[i].c
  {
    if p == [] then Some([])
    else if p[0].Opaque? then None
    else
      match Render(p[1..])
      case None => None
      case Some(rest) => Some([p[0].c] + rest)
  }

  /** Text is the inverse of rendering. */
  lemma RenderText(s: string)
    ensures Render(Text(s)) == Some(s)
  {
    var r := Render(Text(s));
    assert r.Some?;
    assert |r.value| == |s|;
    assert forall i :: 0 <= i < |s| ==> r.value[i] == Text(s)[i].c == s[i];
    assert r.value == s;
  }

  /** A string made only of decimal digits. */
  predicate IsDigits(s: string) {
    forall i :: 0 <= i < |s| ==> '0' <= s[i] <= '9'
  }

  /** The number a string of decimal digits denotes, most significant digit first. */
  function DigitsValue(s: string): nat
    requires IsDigits(s)
  {
    if s == [] then 0 else DigitsValue(s[..|s| - 1]) * 10 + (s[|s| - 1] - '0') as nat
  }

  /** Python's str() of a non-negative integer, in decimal: digits only, with
      a leading zero exactly for zero itself. */
  function Digits(n: nat): (r: string)
    ensures r != [] && IsDigits(r)
    ensures r[0] == '0' <==> n == 0
  {
    var d := ['0' + (n % 10) as char];
    if n < 10 then d else Digits(n / 10) + d
  }

  /** The digits read back give the number. */
  lemma {:induction false} DigitsRoundTrip(n: nat)
    ensures DigitsValue(Digits(n)) == n
  {
    if n >= 10 {
      DigitsRoundTrip(n / 10);
      var s := Digits(n);
      assert s[..|s| - 1] == Digits(n / 10);
    }
  }

  /** Python's str() of an integer. */
  function Decimal(i: int): string {
    if i < 0 then "-" + Digits(-i) else Digits(i)
  }

  /** Python's int() of a decimal numeral: an optional minus sign, then digits. */
  function ReadInt(s: string): Option<int> {
    if |s| > 1 && s[0] == '-' && IsDigits(s[1..]) then Some(-(DigitsValue(s[1..]) as int))
    else if s != [] && IsDigits(s) then Some(DigitsValue(s))
    else None
  }

  /** The digits of n read back as n. */
  lemma ReadDigits(n: nat)
    ensures ReadInt(Digits(n)) == Some(n)
  {
    DigitsRoundTrip(n);
    var s := Digits(n);
    assert s[0] != '-';
  }

  /** A minus sign before the digits of n reads back as -n. */
  lemma ReadNegative(n: nat)
    ensures ReadInt("-" + Digits(n)) == Some(-(n as int))
  {
    DigitsRoundTrip(n);
    var s := "-" + Digits(n);
    assert s[1..] == Digits(n);
  }

  /** str() of an integer reads back as that integer, so distinct integers
      render as distinct text. */
  lemma DecimalRoundTrip(i: int)
    ensures ReadInt(Decimal(i)) == Some(i)
  {
    if i < 0 { ReadNegative(-i); } else { ReadDigits(i); }
  }

  /** The pieces `f"{v}"` contributes to a path: str(v) for None, booleans,
      integers and strings; an opaque piece for a list or dict. */
  function Interp(v: Json): (p: Path)
    ensures Render(p).Some? <==> !v.List? && !v.Object?
    ensures v.Null? ==> Render(p) == Some("None")
    ensures v.Bool? ==> Render(p) == Some(if v.b then "True" else "False")
    ensures v.Int? ==> Render(p) == Some(Decimal(v.i))
    ensures v.Str? ==> Render(p) == Some(v.s)
    ensures v.List? || v.Object? ==> p == [Opaque(v)]
  {
    RenderText("None"); RenderText("True"); RenderText("False");
    match v
    case Null => Text("None")
    case Bool(b) => if b then Text("True") else Text("False")
    case Int(i) => RenderText(Decimal(i)); Text(Decimal(i))
    case Str(s) => RenderText(s); Text(s)
    case List(_) => [Opaque(v)]
    case Object(_) => [Opaque(v)]
  }

  /** f"{base}/{name}": a string name is spliced in verbatim. */
  function Under(base: string, name: Json): (p: Path)
    ensures name.Str? ==> p == Text(base + "/" + name.s)
    ensures name.Null? ==> p == Text(base + "/None")
  {
    TextAppend(base, "/");
    if name.Str? then TextAppend(base + "/", name.s); Text(base + "/") + Interp(name)
    else if name.Null? then TextAppend(base + "/", "None"); Text(base + "/") + Interp(name)
    else Text(base + "/") + Interp(name)
  }

  /** The request handed to the transport (make_api_request): HTTP method, path,
      the `params` argument when one is passed, the `data` argument when one is passed. */
  datatype Request = Request(verb: Method, path: Path, query: Option<Members>, body: Option<Json>)

  /** What the transport gives back: the parsed response body, or the error
      it raised (its str() text). */
  datatype Reply = Response(body: Json) | ApiError(message: string)

  /** The exceptions of the core, and the handlers' missing-field answer. */
  datatype Fault =
    | Required(field: string)                  // handler answer "<field> is required"
    | InvalidObjectType(objectType: Json)      // ValueError
    | InvalidPermissionLevel(level: Json)      // ValueError
    | InvalidSharePermission(permission: Json) // ValueError
    | InvalidGitProvider(provider: Json)       // ValueError
    | NotIterable(value: Json)                 // TypeError from `for x in value`
    | NotContainer(value: Json)                // TypeError from `key in value`
    | NotKeyed(value: Json)                    // TypeError from `value[key]` on a list or str
    | MissingKey(key: string)                  // KeyError
    | Unhashable(value: Json)                  // TypeError from a dict membership test
    | WrongArity(callee: string, given: nat, accepted: nat) // TypeError from a call with too many arguments
    | Remote(message: string)                  // raised by the transport

  /** A domain function's outcome: the one request it sends, or what it raised first. */
  datatype Outcome = Sent(request: Request) | Raised(fault: Fault)

  /** The value of a Python expression that may raise. */
  datatype Attempt<+T> = Value(value: T) | Error(fault: Fault)

  /** `for x in v`: the items of a list, the keys of a dict, the
      one-character strings of a str; anything else is not iterable. */
  function Iterate(v: Json): (r: Attempt<seq<Json>>)
    ensures v.List? ==> r == Value(v.items)
    ensures v.Null? || v.Bool? || v.Int? ==> r == Error(NotIterable(v))
    ensures v.Object? ==> r.Value? && |r.value| == |v.members|
    ensures v.Object? ==> forall i :: 0 <= i < |v.members| ==> r.value[i] == Str(v.members[i].0)
    ensures v.Str? ==> r.Value? && |r.value| == |v.s|
    ensures v.Str? ==> forall i :: 0 <= i < |v.s| ==> r.value[i] == Str([v.s[i]])
  {
    match v
    case List(xs) => Value(xs)
    case Object(ms) => Value(seq(|ms|, i requires 0 <= i < |ms| => Str(ms[i].0)))
    case Str(s) => Value(seq(|s|, i requires 0 <= i < |s| => Str([s[i]])))
    case _ => Error(NotIterable(v))
  }

  /** `needle in hay` for two strings: needle occurs as a substring. */
  predicate Occurs(needle: string, hay: string)
    decreases |hay|
  {
    |needle| <= |hay| && (hay[..|needle|] == needle || Occurs(needle, hay[1..]))
  }

  /** `key in v`: a dict key, a list element equal to the string, a
      substring of a str; None, booleans and integers are no container. */
  function Contains(v: Json, key: string): (r: Attempt<bool>)
    ensures v.Object? ==> r == Value(Has(v.members, key))
    ensures v.List? ==> r == Value(Str(key) in v.items)
    ensures v.Str? ==> r == Value(Occurs(key, v.s))
    ensures v.Null? || v.Bool? || v.Int? ==> r == Error(NotContainer(v))
  {
    match v
    case Object(ms) => Value(Has(ms, key))
    case List(xs) => Value(Str(key) in xs)
    case Str(s) => Value(Occurs(key, s))
    case _ => Error(NotContainer(v))
  }

  /** `v[key]` for a str key, where `key in v` already held. */
  function Subscript(v: Json, key: string): (r: Attempt<Json>)
    ensures v.Object? && Has(v.members, key) ==> r == Value(Get(v.members, key))
    ensures v.List? || v.Str? ==> r == Error(NotKeyed(v))
  {
    match v
    case Object(ms) => if Has(ms, key) then Value(Get(ms, key)) else Error(MissingKey(key))
    case _ => Error(NotKeyed(v))
  }

  /** The first failure of a loop that checks each item in turn and raises
      on the first bad one. */
  function FirstFailure<T>(xs: seq<T>, check: T -> Option<Fault>): (r: Option<Fault>)
    ensures r.None? <==> forall i :: 0 <= i < |xs| ==> check(xs[i]).None?
    ensures r.Some? ==>
      exists i :: 0 <= i < |xs| && check(xs[i]) == r && forall j :: 0 <= j < i ==> check(xs[j]).None?
  {
    if xs == [] then None
    else if check(xs[0]).Some? then check(xs[0])
    else
      var r := FirstFailure(xs[1..], check);
      assert r.Some? ==>
        exists i :: 0 <= i < |xs| && check(xs[i]) == r && forall j :: 0 <= j < i ==> check(xs[j]).None?
      by {
        if r.Some? {
          var i :| 0 <= i < |xs[1..]| && check(xs[1..][i]) == r &&
            forall j :: 0 <= j < i ==> check(xs[1..][j]).None?;
          assert check(xs[i + 1]) == r;
          forall j | 0 <= j < i + 1 ensures check(xs[j]).None? {
            if j > 0 { assert xs[j] == xs[1..][j - 1]; }
          }
        }
      }
      assert (forall i :: 0 <= i < |xs| ==> check(xs[i]).None?) <==>
        (forall i :: 0 <= i < |xs[1..]| ==> check(xs[1..][i]).None?) by {
        if forall i :: 0 <= i < |xs[1..]| ==> check(xs[1..][i]).None? {
          forall i | 0 <= i < |xs| ensures check(xs[i]).None? {
            if i > 0 { assert xs[i] == xs[1..][i - 1]; }
          }
        }
      }
      r
  }
}
