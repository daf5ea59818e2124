/** Decoded JSON values as the Python backend sees them after `json.loads`, together with the
    few Python operations the backend applies to them: truthiness, `len`, `dict.get`, the `in`
    operator and `str` of a non-negative integer. Each partial operation returns `None` where
    Python raises (`TypeError`, `AttributeError`). */
module Json {

  datatype Option<+T> = None | Some(value: T) {
    function GetOr(default: T): T {
      match this
      case Some(v) => v
      case None => default
    }
  }

  /** A decoded JSON document. Numbers are kept as reals; only their truthiness matters here. */
  datatype Json =
    | JNull
    | JBool(b: bool)
    | JNumber(n: real)
    | JString(s: string)
    | JArray(elems: seq<Json>)
    | JObject(fields: map<string, Json>)

  /** Python truthiness (`if x:`, `not x`) of a decoded value. */
  predicate Truthy(j: Json) {
    match j
    case JNull => false
    case JBool(b) => b
    case JNumber(n) => n != 0.0
    case JString(s) => s != ""
    case JArray(a) => a != []
    case JObject(m) => |m| != 0
  }

  /** Python `len(j)`: defined on dicts, lists and strings, a `TypeError` otherwise. */
  function Len(j: Json): (r: Option<nat>)
    ensures r.Some? ==> (Truthy(j) <==> r.value > 0)
  {
    match j
    case JObject(m) => Some(|m|)
    case JArray(a) => Some(|a|)
    case JString(s) => Some(|s|)
    case _ => None
  }

  /** `m.get(key, default)` on a dict already known to be one. */
  function Field(m: map<string, Json>, key: string, default: Json): Json {
    if key in m then m[key] else default
  }

  /** Python `j.get(key, default)`: only dicts have `.get`; anything else raises `AttributeError`. */
  function Get(j: Json, key: string, default: Json): Option<Json> {
    if j.JObject? then Some(Field(j.fields, key, default)) else None
  }

  /** Whether `p` occurs as a contiguous block of `s` (Python `p in s` on two strings). */
  predicate IsSubstring(p: string, s: string)
    decreases |s|
  {
    |p| <= |s| && (s[..|p|] == p || IsSubstring(p, s[1..]))
  }

  /** `p` starts at offset `i` of `s`. */
  predicate OccursAt(p: string, s: string, i: int) {
    0 <= i && i + |p| <= |s| && s[i..i + |p|] == p
  }

  /** The prefix-by-prefix search of `IsSubstring` finds `p` exactly when it occurs at some offset. */
  lemma {:induction false} SubstringAtOffset(p: string, s: string)
    ensures IsSubstring(p, s) <==> exists i :: OccursAt(p, s, i)
    decreases |s|
  {
    if |p| <= |s| {
      if s[..|p|] == p {
        assert OccursAt(p, s, 0);
      } else {
        SubstringAtOffset(p, s[1..]);
        if IsSubstring(p, s[1..]) {
          var i :| OccursAt(p, s[1..], i);
          assert s[1..][i..i + |p|] == s[i + 1..i + 1 + |p|];
          assert OccursAt(p, s, i + 1);
        }
        if i :| OccursAt(p, s, i) {
          assert i != 0;
          assert s[1..][i - 1..i - 1 + |p|] == s[i..i + |p|];
          assert OccursAt(p, s[1..], i - 1);
        }
      }
    } else {
      if i :| OccursAt(p, s, i) {
        assert false;
      }
    }
  }

  /** Python `key in container` for a string `key`: key membership in a dict, element equality in a
      list, substring search in a string; numbers, booleans and `None` raise `TypeError`. */
  function Contains(container: Json, key: string): (r: Option<bool>)
    ensures container.JString? ==> r == Some(exists i :: OccursAt(key, container.s, i))
  {
    match container
    case JObject(m) => Some(key in m)
    case JArray(a) => Some(JString(key) in a)
    case JString(s) => SubstringAtOffset(key, s); Some(IsSubstring(key, s))
    case _ => None
  }

  /** The character of a decimal digit. */
  function DigitChar(d: nat): (c: char)
    requires d < 10
    ensures '0' <= c <= '9' && c as int - '0' as int == d
  {
    "0123456789"[d]
  }

  /** Python `str(n)` (and `f"{n}"`) for a non-negative integer: its decimal digits. */
  function NatToString(n: nat): (s: string)
    ensures |s| > 0
    ensures forall i :: 0 <= i < |s| ==> '0' <= s[i] <= '9'
    ensures |s| > 1 ==> s[0] != '0'
    decreases n
  {
    if n < 10 then [DigitChar(n)] else NatToString(n / 10) + [DigitChar(n % 10)]
  }

  /** The number a string of decimal digits denotes (the reading of `NatToString` back). */
  function DecimalValue(s: string): nat
    requires forall i :: 0 <= i < |s| ==> '0' <= s[i] <= '9'
    decreases |s|
  {
    if s == [] then 0
    else 10 * DecimalValue(s[..|s| - 1]) + (s[|s| - 1] as int - '0' as int)
  }

  /** Reading the printed count back gives the count: the summary strings lose no information. */
  lemma {:induction false} DecimalRoundTrip(n: nat)
    ensures DecimalValue(NatToString(n)) == n
    decreases n
  {
    var s := NatToString(n);
    if n >= 10 {
      DecimalRoundTrip(n / 10);
      assert s[..|s| - 1] == NatToString(n / 10);
    }
  }

  /** Distinct counts print as distinct strings. */
  lemma NatToStringInjective(m: nat, n: nat)
    requires NatToString(m) == NatToString(n)
    ensures m == n
  {
    DecimalRoundTrip(m);
    DecimalRoundTrip(n);
  }
}
