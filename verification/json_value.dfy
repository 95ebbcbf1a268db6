/** The JSON document model shared by the remote engine and the thread-message
    serialisers, together with the jsoncpp coercions the engine relies on
    (`isMember`, `operator[]`, `asString`, `asBool`). */
module JsonValue {
  import opened Wrappers

  /** A floating-point number, kept opaque. The model observes only what the
      jsoncpp coercions read from it: its printed form (`asString`) and
      whether it is zero or NaN (`asBool`). */
  datatype Double = Double(printed: string, zeroOrNaN: bool)

  /** A jsoncpp `Json::Value`. Objects are keyed maps: jsoncpp keeps members
      in a `std::map`, so member order carries no information. */
  datatype Json =
    | JNull
    | JBool(b: bool)
    | JInt(i: int)
    | JUInt(n: nat)
    | JReal(d: Double)
    | JString(s: string)
    | JArray(items: seq<Json>)
    | JObject(fields: map<string, Json>)

  /** The one-member object `{key: value}`. */
  function Object1(key: string, value: Json): (r: Json)
    ensures r.JObject? && r.fields.Keys == {key} && r.fields[key] == value
  {
    JObject(map[key := value])
  }

  /** What `isMember(key)` followed by `operator[](key)` observes of a value.
      jsoncpp answers member queries only on null (never a member) and on
      objects; on any other kind it throws. */
  datatype Lookup = Absent | Present(value: Json) | NotAnObject

  function Member(j: Json, key: string): (r: Lookup)
    ensures r.NotAnObject? <==> !(j.JNull? || j.JObject?)
    ensures r.Present? <==> j.JObject? && key in j.fields
    ensures r.Present? ==> r.value == j.fields[key]
  {
    match j
    case JNull => Absent
    case JObject(fields) => if key in fields then Present(fields[key]) else Absent
    case _ => NotAnObject
  }

  /** jsoncpp `asString`: None where jsoncpp throws (arrays and objects). */
  function AsString(j: Json): (r: Option<string>)
    ensures r.None? <==> j.JArray? || j.JObject?
    ensures j.JString? ==> r == Some(j.s)
    ensures j.JNull? ==> r == Some("")
  {
    match j
    case JNull => Some("")
    case JBool(b) => Some(if b then "true" else "false")
    case JInt(i) => Some(IntToString(i))
    case JUInt(n) => Some(NatToString(n))
    case JReal(d) => Some(d.printed)
    case JString(s) => Some(s)
    case JArray(_) => None
    case JObject(_) => None
  }

  /** jsoncpp `asBool`: None where jsoncpp throws (strings, arrays, objects). */
  function AsBool(j: Json): (r: Option<bool>)
    ensures r.None? <==> j.JString? || j.JArray? || j.JObject?
    ensures j.JBool? ==> r == Some(j.b)
    ensures j.JNull? ==> r == Some(false)
  {
    match j
    case JNull => Some(false)
    case JBool(b) => Some(b)
    case JInt(i) => Some(i != 0)
    case JUInt(n) => Some(n != 0)
    case JReal(d) => Some(!d.zeroOrNaN)
    case _ => None
  }

  predicate IsDigits(s: string) {
    forall k :: 0 <= k < |s| ==> '0' <= s[k] <= '9'
  }

  function Digit(d: nat): (c: char)
    requires d < 10
    ensures '0' <= c <= '9' && c as int - '0' as int == d
  {
    (d + '0' as int) as char
  }

  /** The decimal text jsoncpp prints for an unsigned integer. */
  function NatToString(n: nat): (r: string)
    ensures 1 <= |r| && IsDigits(r)
    decreases n
  {
    if n < 10 then [Digit(n)] else NatToString(n / 10) + [Digit(n % 10)]
  }

  /** The decimal text jsoncpp prints for a signed integer. */
  function IntToString(i: int): (r: string)
    ensures i >= 0 ==> r == NatToString(i)
    ensures i < 0 ==> |r| >= 2 && r[0] == '-' && r[1..] == NatToString(-i)
  {
    if i < 0 then "-" + NatToString(-i) else NatToString(i)
  }

  /** Reading a digit string back as a number: the reference the printer is
      checked against. */
  function DecimalValue(s: string): nat
    requires IsDigits(s)
  {
    if s == [] then 0 else 10 * DecimalValue(s[..|s| - 1]) + (s[|s| - 1] as int - '0' as int)
  }

  /** Printing an unsigned integer loses nothing. */
  lemma {:induction false} DecimalRoundTrip(n: nat)
    ensures DecimalValue(NatToString(n)) == n
    decreases n
  {
    if n >= 10 {
      DecimalRoundTrip(n / 10);
      var s := NatToString(n);
      assert s[..|s| - 1] == NatToString(n / 10);
    }
  }

  /** `NatToString` is one-to-one: distinct numbers print differently. */
  lemma NatToStringInjective(m: nat, n: nat)
    requires NatToString(m) == NatToString(n)
    ensures m == n
  {
    DecimalRoundTrip(m);
    DecimalRoundTrip(n);
  }

  /** `asString` on an unsigned number prints it in decimal, so distinct
      unsigned numbers read as distinct strings. */
  lemma AsStringDistinguishesUnsigned(m: nat, n: nat)
    requires m != n
    ensures AsString(JUInt(m)).Some? && AsString(JUInt(n)).Some?
    ensures AsString(JUInt(m)) != AsString(JUInt(n))
  {
    if AsString(JUInt(m)) == AsString(JUInt(n)) {
      NatToStringInjective(m, n);
    }
  }

  /** The same for signed numbers: a minus sign never starts a digit
      string, so a negative and a non-negative number print differently. */
  lemma AsStringDistinguishesIntegers(a: int, b: int)
    requires a != b
    ensures AsString(JInt(a)).Some? && AsString(JInt(b)).Some?
    ensures AsString(JInt(a)) != AsString(JInt(b))
  {
    if a >= 0 && b >= 0 {
      if NatToString(a) == NatToString(b) {
        NatToStringInjective(a, b);
      }
    } else if a < 0 && b < 0 {
      if NatToString(-a) == NatToString(-b) {
        NatToStringInjective(-a, -b);
      }
    } else if a >= 0 {
      assert NatToString(a)[0] != '-' && IntToString(b)[0] == '-';
    } else {
      assert NatToString(b)[0] != '-' && IntToString(a)[0] == '-';
    }
  }

  /** A signed and an unsigned number read as the same string exactly when
      they are the same integer: jsoncpp's choice of kind does not matter. */
  lemma AsStringIntegerKindsAgree(i: int, n: nat)
    ensures AsString(JInt(i)) == AsString(JUInt(n)) <==> i == n
  {
    if i >= 0 {
      if NatToString(i) == NatToString(n) {
        NatToStringInjective(i, n);
      }
    } else {
      assert NatToString(n)[0] != '-' && IntToString(i)[0] == '-';
    }
  }

  /** The elements of a JSON array built the way the serialisers build theirs:
      start from an empty `Json::arrayValue` and `append` each element's JSON
      in order. */
  function Elements<T>(xs: seq<T>, f: T -> Json): (r: seq<Json>)
    ensures |r| == |xs|
    ensures forall k :: 0 <= k < |xs| ==> r[k] == f(xs[k])
  {
    if xs == [] then [] else Elements(xs[..|xs| - 1], f) + [f(xs[|xs| - 1])]
  }

  /** Decoding every element of an array, failing if any element fails. */
  function DecodeAll<T>(items: seq<Json>, dec: Json -> Option<T>): (r: Option<seq<T>>)
    ensures r.Some? ==> |r.value| == |items|
  {
    if items == [] then Some([])
    else match (DecodeAll(items[..|items| - 1], dec), dec(items[|items| - 1]))
      case (Some(init), Some(last)) => Some(init + [last])
      case _ => None
  }

  /** An element decoder that inverts the element encoder inverts the whole
      array. */
  lemma {:induction false} DecodeAllElements<T>(xs: seq<T>, f: T -> Json, dec: Json -> Option<T>)
    requires forall k :: 0 <= k < |xs| ==> dec(f(xs[k])) == Some(xs[k])
    ensures DecodeAll(Elements(xs, f), dec) == Some(xs)
  {
    if xs != [] {
      var init := xs[..|xs| - 1];
      assert forall k :: 0 <= k < |init| ==> dec(f(init[k])) == Some(init[k]) by {
        forall k | 0 <= k < |init| ensures dec(f(init[k])) == Some(init[k]) {
          assert init[k] == xs[k];
        }
      }
      DecodeAllElements(init, f, dec);
      var e := Elements(xs, f);
      assert e[..|e| - 1] == Elements(init, f);
      assert e[|e| - 1] == f(xs[|xs| - 1]);
      assert init + [xs[|xs| - 1]] == xs;
    }
  }
}
