/** Decoded JSON values as the client sees them after `json.loads`, and the
    handful of Python operations the client applies to them: truthiness,
    `x[key]`, `x[i]`, `len`, iteration, `.values()` and `str()`. Each
    operation that raises in Python returns `None` here. */
module PyJson {
  import opened Wrappers

  /** A value produced by `json.loads`. An object keeps its members in
      insertion order; as a Python dict its keys are distinct. */
  datatype Json =
    | JNull
    | JBool(b: bool)
    | JInt(i: int)
    | JString(s: string)
    | JArray(items: seq<Json>)
    | JObject(members: seq<(string, Json)>)

  /** `json.dumps` and `json.loads`, taken as given. `loads` answers `None`
      where Python raises a decoding error. */
  datatype Codec = Codec(dumps: Json -> string, loads: string -> Option<Json>)

  /** Every object in `j`, at any depth, has distinct keys, as every dict
      `json.loads` produces does. */
  ghost predicate DistinctKeys(j: Json) {
    match j
    case JArray(items) => forall i :: 0 <= i < |items| ==> DistinctKeys(items[i])
    case JObject(ms) =>
      && (forall i, k :: 0 <= i < k < |ms| ==> ms[i].0 != ms[k].0)
      && (forall i :: 0 <= i < |ms| ==> DistinctKeys(ms[i].1))
    case _ => true
  }

  /** The codec decodes what it encodes, for every value a dict can hold: a
      dict with a repeated key keeps only its last value, so such values are
      not expected back. */
  ghost predicate RoundTrips(codec: Codec) {
    forall j :: DistinctKeys(j) ==> codec.loads(codec.dumps(j)) == Some(j)
  }

  /** Python's `bool(x)`. */
  predicate Truthy(j: Json) {
    match j
    case JNull => false
    case JBool(b) => b
    case JInt(i) => i != 0
    case JString(s) => s != ""
    case JArray(xs) => xs != []
    case JObject(ms) => ms != []
  }

  /** Dict lookup: the value stored under `key`. */
  function Lookup(ms: seq<(string, Json)>, key: string): (r: Option<Json>)
    ensures r.Some? <==> exists i :: 0 <= i < |ms| && ms[i].0 == key
    ensures r.Some? ==> exists i :: 0 <= i < |ms| && ms[i] == (key, r.value)
  {
    if ms == [] then None
    else if ms[0].0 == key then Some(ms[0].1)
    else
      var r := Lookup(ms[1..], key);
      assert r.Some? ==> exists i :: 0 <= i < |ms| && ms[i] == (key, r.value) by {
        if r.Some? {
          var i :| 0 <= i < |ms[1..]| && ms[1..][i] == (key, r.value);
          assert ms[i + 1] == (key, r.value);
        }
      }
      assert (exists i :: 0 <= i < |ms| && ms[i].0 == key) ==> r.Some? by {
        if exists i :: 0 <= i < |ms| && ms[i].0 == key {
          var i :| 0 <= i < |ms| && ms[i].0 == key;
          assert ms[1..][i - 1].0 == key;
        }
      }
      r
  }

  /** A member under another key does not affect a lookup. */
  lemma LookupSkip(m: (string, Json), ms: seq<(string, Json)>, key: string)
    requires m.0 != key
    ensures Lookup([m] + ms, key) == Lookup(ms, key)
  {
    assert ([m] + ms)[1..] == ms;
  }

  /** `x[key]` with a string key: only a dict has string keys; a list or a
      string raises TypeError and a missing key raises KeyError. */
  function Item(j: Json, key: string): Option<Json> {
    match j
    case JObject(ms) => Lookup(ms, key)
    case _ => None
  }

  /** `x[i]` with a non-negative integer index: a list gives its element, a
      string a one-character string; a dict (whose keys are strings) raises
      KeyError, anything else TypeError, and an index too large IndexError. */
  function At(j: Json, i: nat): Option<Json> {
    match j
    case JArray(xs) => if i < |xs| then Some(xs[i]) else None
    case JString(s) => if i < |s| then Some(JString([s[i]])) else None
    case _ => None
  }

  /** `len(x)`: defined for strings, lists and dicts only. */
  function Len(j: Json): Option<nat> {
    match j
    case JString(s) => Some(|s|)
    case JArray(xs) => Some(|xs|)
    case JObject(ms) => Some(|ms|)
    case _ => None
  }

  /** `list(x)`, or what a `for` loop over `x` visits: the elements of a
      list, the characters of a string, the keys of a dict. */
  function Iterate(j: Json): Option<seq<Json>> {
    match j
    case JArray(xs) => Some(xs)
    case JString(s) => Some(seq(|s|, i requires 0 <= i < |s| => JString([s[i]])))
    case JObject(ms) => Some(seq(|ms|, i requires 0 <= i < |ms| => JString(ms[i].0)))
    case _ => None
  }

  /** `dict(x).values()` for a dict `x`. */
  function Values(j: Json): (r: Option<seq<Json>>)
    ensures r.Some? <==> j.JObject?
    ensures r.Some? ==> |r.value| == |j.members| && forall i :: 0 <= i < |r.value| ==> r.value[i] == j.members[i].1
  {
    match j
    case JObject(ms) => Some(seq(|ms|, i requires 0 <= i < |ms| => ms[i].1))
    case _ => None
  }

  /** `list(f(x) for x in xs)` where `f` may raise: all the results, or a
      failure as soon as one call fails. */
  function ListOf<A, B>(xs: seq<A>, f: A -> Option<B>): (r: Option<seq<B>>)
    ensures r.Some? <==> forall i :: 0 <= i < |xs| ==> f(xs[i]).Some?
    ensures r.Some? ==> |r.value| == |xs| && forall i :: 0 <= i < |xs| ==> f(xs[i]) == Some(r.value[i])
  {
    if xs == [] then Some([])
    else
      match f(xs[0])
      case None => None
      case Some(y) =>
        match ListOf(xs[1..], f)
        case None =>
          assert exists i :: 1 <= i < |xs| && f(xs[i]).None? by {
            var k :| 0 <= k < |xs[1..]| && f(xs[1..][k]).None?;
            assert f(xs[k + 1]).None?;
          }
          None
        case Some(ys) =>
          assert forall i :: 1 <= i < |xs| ==> f(xs[i]) == Some(ys[i - 1]) by {
            forall i | 1 <= i < |xs| ensures f(xs[i]) == Some(ys[i - 1]) {
              assert xs[1..][i - 1] == xs[i];
            }
          }
          Some([y] + ys)
  }

  // ---------------------------------------------------------------------
  // str() and repr()

  function DigitChar(d: nat): char
    requires d < 10
  {
    "0123456789"[d]
  }

  function HexChar(d: nat): char
    requires d < 16
  {
    "0123456789abcdef"[d]
  }

  /** The decimal digits of `n`, most significant first. */
  function Digits(n: nat): string
    decreases n
  {
    if n < 10 then [DigitChar(n)] else Digits(n / 10) + [DigitChar(n % 10)]
  }

  /** `str(i)` for an integer. */
  function IntStr(i: int): string {
    if i < 0 then "-" + Digits(-i) else Digits(i)
  }

  /** How `repr` writes one character of a string quoted with `q`. */
  function EscapeChar(c: char, q: char): string {
    if c == '\\' then "\\\\"
    else if c == q then ['\\', q]
    else if c == '\n' then "\\n"
    else if c == '\r' then "\\r"
    else if c == '\t' then "\\t"
    else if c as int < 0x20 || c as int == 0x7f then
      ['\\', 'x', HexChar(c as int / 16), HexChar(c as int % 16)]
    else [c]
  }

  function Escape(s: string, q: char): string {
    if s == [] then "" else EscapeChar(s[0], q) + Escape(s[1..], q)
  }

  /** `repr(s)` for a string: single quotes, unless the string holds a
      single quote and no double quote. */
  function StrRepr(s: string): string {
    var q := if '\'' in s && '"' !in s then '"' else '\'';
    [q] + Escape(s, q) + [q]
  }

  /** The parts joined by ", ", as in the repr of a list or a dict. */
  function JoinComma(parts: seq<string>): string {
    if parts == [] then ""
    else if |parts| == 1 then parts[0]
    else parts[0] + ", " + JoinComma(parts[1..])
  }

  /** `repr(x)`. */
  function Repr(j: Json): string {
    match j
    case JNull => "None"
    case JBool(b) => if b then "True" else "False"
    case JInt(i) => IntStr(i)
    case JString(s) => StrRepr(s)
    case JArray(xs) =>
      "[" + JoinComma(seq(|xs|, i requires 0 <= i < |xs| => Repr(xs[i]))) + "]"
    case JObject(ms) =>
      "{" + JoinComma(seq(|ms|, i requires 0 <= i < |ms| => StrRepr(ms[i].0) + ": " + Repr(ms[i].1))) + "}"
  }

  /** `str(x)`: a string is itself, everything else its repr. */
  function PyStr(j: Json): string {
    match j
    case JString(s) => s
    case _ => Repr(j)
  }
}
