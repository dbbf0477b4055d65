/** PHP-side values: a decoded JSON request body (what `json_decode($input, true)`
    leaves in a PHP array) and the handful of PHP operations the services apply to
    it: `isset`, `??`, `array_key_exists`, `is_array`, `foreach`, the `(int)` cast
    and the conversion of a value to a string. */
module Values {

  datatype Option<+T> = None | Some(value: T) {
    /** `$x ?? $default` on an optional value. */
    function GetOr(default: T): T {
      if Some? then value else default
    }
  }

  /** A decoded JSON value. JSON arrays and JSON objects both become PHP arrays;
      an object keeps its keys in document order, because `foreach` visits them
      in that order. Floating-point numbers are not part of this model. */
  datatype Json =
    | Null
    | Bool(b: bool)
    | Int(i: int)
    | Str(s: string)
    | List(items: seq<Json>)
    | Object(members: seq<Member>)

  datatype Member = Member(key: string, value: Json)

  /** The value stored under `key` in an object's members. `json_decode` lets a later
      duplicate key overwrite an earlier one, so the last member with the key wins. */
  function LookupMember(ms: seq<Member>, key: string): (r: Option<Json>)
    ensures r.Some? <==> exists i :: 0 <= i < |ms| && ms[i].key == key
    ensures r.Some? ==> Member(key, r.value) in ms
  {
    if ms == [] then None
    else if ms[|ms| - 1].key == key then Some(ms[|ms| - 1].value)
    else LookupMember(ms[..|ms| - 1], key)
  }

  /** `$a[$key]` for a string key that is not numeric. A JSON list has only integer
      keys, so it never holds such a key; a scalar holds no keys at all. */
  function Lookup(a: Json, key: string): Option<Json> {
    if a.Object? then LookupMember(a.members, key) else None
  }

  /** `$a[$key]` as an expression: null when the key is absent. */
  function Field(a: Json, key: string): (v: Json)
    ensures KeyExists(a, key) ==> Some(v) == Lookup(a, key)
    ensures !KeyExists(a, key) ==> v == Null
  {
    Lookup(a, key).GetOr(Null)
  }

  /** `array_key_exists($key, $a)`: true even when the stored value is null. */
  predicate KeyExists(a: Json, key: string) {
    Lookup(a, key).Some?
  }

  /** `isset($a[$key])`: the key is present and its value is not null. */
  predicate IsSet(a: Json, key: string) {
    Lookup(a, key).Some? && !Lookup(a, key).value.Null?
  }

  /** `isset` is `array_key_exists` without the null: a key bound to null exists but is
      not set, and those are the only keys on which the two disagree. */
  lemma IssetVersusKeyExists(a: Json, key: string)
    ensures IsSet(a, key) ==> KeyExists(a, key)
    ensures (KeyExists(a, key) && !IsSet(a, key)) <==> Lookup(a, key) == Some(Null)
  {
  }

  /** `$a[$key] ?? $default`. */
  function Coalesce(a: Json, key: string, default: Json): (r: Json)
    ensures IsSet(a, key) ==> Some(r) == Lookup(a, key)
    ensures !IsSet(a, key) ==> r == default
  {
    if IsSet(a, key) then Lookup(a, key).value else default
  }

  /** `is_array($v)`. */
  predicate IsArray(v: Json) {
    v.List? || v.Object?
  }

  /** The values `foreach ($v as $x)` visits, in order. */
  function Elements(v: Json): (r: seq<Json>)
    requires IsArray(v)
    ensures v.List? ==> r == v.items
    ensures v.Object? ==> |r| == |v.members| && forall i :: 0 <= i < |r| ==> r[i] == v.members[i].value
  {
    if v.List? then v.items else seq(|v.members|, i requires 0 <= i < |v.members| => v.members[i].value)
  }

  /** An array literal `[$key => $value]`. */
  function Single(key: string, value: Json): (r: Json)
    ensures Lookup(r, key) == Some(value)
    ensures Field(r, key) == value
  {
    Object([Member(key, value)])
  }

  // ---------------------------------------------------------------- digits

  predicate IsDigit(c: char) {
    '0' <= c <= '9'
  }

  predicate AllDigits(s: string) {
    forall i :: 0 <= i < |s| ==> IsDigit(s[i])
  }

  /** The length of the run of decimal digits that starts `s`. */
  function DigitRun(s: string): (n: nat)
    ensures n <= |s|
    ensures AllDigits(s[..n])
    ensures n < |s| ==> !IsDigit(s[n])
  {
    if s == [] || !IsDigit(s[0]) then 0
    else
      var n := 1 + DigitRun(s[1..]);
      assert s[..n] == [s[0]] + s[1..][..n - 1];
      n
  }

  function DigitValue(c: char): nat
    requires IsDigit(c)
  {
    (c as int - '0' as int) as nat
  }

  /** The number a string of decimal digits denotes (leading zeros allowed). */
  function DigitsValue(d: string): nat
    requires AllDigits(d)
  {
    if d == [] then 0 else 10 * DigitsValue(d[..|d| - 1]) + DigitValue(d[|d| - 1])
  }

  function DigitChar(k: nat): (c: char)
    requires k < 10
    ensures IsDigit(c) && DigitValue(c) == k
  {
    ('0' as int + k) as char
  }

  /** The decimal digits of a natural number, without leading zeros. */
  function NatToString(n: nat): (s: string)
    ensures |s| > 0 && AllDigits(s)
    decreases n
  {
    if n < 10 then [DigitChar(n)] else NatToString(n / 10) + [DigitChar(n % 10)]
  }

  /** PHP's `(string)$i` for an integer. */
  function IntToString(i: int): string {
    if i < 0 then "-" + NatToString(-i) else NatToString(i)
  }

  /** Reading back the digits of a number gives the number. */
  lemma {:induction false} NatToStringRoundTrip(n: nat)
    ensures DigitsValue(NatToString(n)) == n
    decreases n
  {
    var s := NatToString(n);
    if n >= 10 {
      NatToStringRoundTrip(n / 10);
      assert s[..|s| - 1] == NatToString(n / 10);
    }
  }

  /** The leading run of digits of a string of digits followed by a non-digit is exactly
      those digits: a digit run stops at the first character that is not a digit. */
  lemma {:induction false} DigitRunOfDigits(d: string, rest: string)
    requires AllDigits(d)
    requires rest == [] || !IsDigit(rest[0])
    ensures DigitRun(d + rest) == |d|
    decreases |d|
  {
    if d != [] {
      assert (d + rest)[1..] == d[1..] + rest;
      DigitRunOfDigits(d[1..], rest);
    }
  }

  // ---------------------------------------------------------------- conversions

  predicate IsSpace(c: char) {
    c == ' ' || c == '\t' || c == '\n' || c == '\r' || c == '\U{B}' || c == '\U{C}'
  }

  function SkipSpace(s: string): (t: string)
    ensures |t| <= |s| && t == s[|s| - |t|..]
    ensures t == [] || !IsSpace(t[0])
  {
    if s != [] && IsSpace(s[0]) then SkipSpace(s[1..]) else s
  }

  /** `m` times 10 to the power `k`. */
  function TimesPow10(m: nat, k: nat): nat {
    if k == 0 then m else 10 * TimesPow10(m, k - 1)
  }

  /** `m` divided by 10 to the power `k`, truncated. */
  function DivPow10(m: nat, k: nat): nat {
    if k == 0 then m else DivPow10(m / 10, k - 1)
  }

  /** `m` times 10 to the power `e`, truncated toward zero when `e` is negative. */
  function Scale(m: nat, e: int): nat {
    if e >= 0 then TimesPow10(m, e) else DivPow10(m, -e)
  }

  /** The exponent that starts `r`: `e` or `E`, an optional sign and at least one
      digit. A string that does not start with one has exponent 0. */
  function Exponent(r: string): int {
    if |r| < 2 || (r[0] != 'e' && r[0] != 'E') then 0
    else if IsDigit(r[1]) then
      var x := r[1..];
      DigitsValue(x[..DigitRun(x)])
    else if |r| >= 3 && (r[1] == '-' || r[1] == '+') && IsDigit(r[2]) then
      var x := r[2..];
      var n: int := DigitsValue(x[..DigitRun(x)]);
      if r[1] == '-' then -n else n
    else 0
  }

  /** The magnitude of the number that starts `u`, truncated toward zero: digits,
      then optionally `.` and fraction digits, then optionally an exponent. A string
      that starts with none of these gives 0. */
  function LeadingNumber(u: string): nat {
    var n := DigitRun(u);
    var whole := u[..n];
    var r := u[n..];
    if r != [] && r[0] == '.' then
      var f := r[1..];
      var k := DigitRun(f);
      Scale(DigitsValue(whole + f[..k]), Exponent(f[k..]) - k)
    else
      Scale(DigitsValue(whole), Exponent(r))
  }

  /** PHP's `(int)` cast of a string: leading white space, an optional sign, then the
      longest leading number in integer or floating-point notation ("12", "1.5",
      "1e3", "2.5E-1"), truncated toward zero; anything after it is ignored, and a
      string without a leading number gives 0. */
  function StringToInt(s: string): int {
    var t := SkipSpace(s);
    if t != [] && (t[0] == '-' || t[0] == '+') then
      var n: int := LeadingNumber(t[1..]);
      if t[0] == '-' then -n else n
    else
      LeadingNumber(t)
  }

  /** PHP's `(int)$v`. */
  function ToInt(v: Json): int {
    match v
    case Null => 0
    case Bool(b) => if b then 1 else 0
    case Int(i) => i
    case Str(s) => StringToInt(s)
    case List(items) => if items == [] then 0 else 1
    case Object(ms) => if ms == [] then 0 else 1
  }

  /** `(string)$v`, as PDO does to every statement parameter it binds as a string:
      true becomes "1", false and null become "", an array becomes "Array". */
  function ToText(v: Json): string {
    match v
    case Null => ""
    case Bool(b) => if b then "1" else ""
    case Int(i) => IntToString(i)
    case Str(s) => s
    case List(_) => "Array"
    case Object(_) => "Array"
  }

  /** The argument a `string` parameter receives when `v` is passed to it in PHP's
      coercive typing mode; None when the call throws a TypeError (an array, or null
      for a user-defined function). */
  function StringArg(v: Json): (r: Option<string>)
    ensures r.Some? <==> (v.Bool? || v.Int? || v.Str?)
    ensures r.Some? ==> r.value == ToText(v)
  {
    if v.Bool? || v.Int? || v.Str? then Some(ToText(v)) else None
  }

  /** Appending digits: the digits of `a` move up by `|b|` decimal places. */
  lemma {:induction false} DigitsValueAppend(a: string, b: string)
    requires AllDigits(a) && AllDigits(b)
    ensures AllDigits(a + b)
    ensures DigitsValue(a + b) == TimesPow10(DigitsValue(a), |b|) + DigitsValue(b)
    decreases |b|
  {
    var ab := a + b;
    if b == [] {
      assert ab == a;
    } else {
      assert ab[..|ab| - 1] == a + b[..|b| - 1];
      DigitsValueAppend(a, b[..|b| - 1]);
    }
  }

  /** A string of `k` digits denotes less than 10 to the power `k`. */
  lemma {:induction false} DigitsValueBound(d: string)
    requires AllDigits(d)
    ensures DigitsValue(d) < TimesPow10(1, |d|)
    decreases |d|
  {
    if d != [] {
      DigitsValueBound(d[..|d| - 1]);
    }
  }

  /** Shifting up by `k` places and adding less than 10 to the power `k`, then
      shifting back down, gives the number that was shifted. */
  lemma {:induction false} ShiftRoundTrip(x: nat, y: nat, k: nat)
    requires y < TimesPow10(1, k)
    ensures DivPow10(TimesPow10(x, k) + y, k) == x
    decreases k
  {
    if k > 0 {
      assert (TimesPow10(x, k) + y) / 10 == TimesPow10(x, k - 1) + y / 10;
      ShiftRoundTrip(x, y / 10, k - 1);
    }
  }

  /** A number made only of digits, up to a character that cannot continue a number,
      is the value of those digits. */
  lemma LeadingDigits(d: string, rest: string)
    requires AllDigits(d)
    requires rest == [] || !(IsDigit(rest[0]) || rest[0] == '.' || rest[0] == 'e' || rest[0] == 'E')
    ensures LeadingNumber(d + rest) == DigitsValue(d)
  {
    var u := d + rest;
    DigitRunOfDigits(d, rest);
    assert u[..|d|] == d;
    assert u[|d|..] == rest;
  }

  /** The `(int)` cast of a digit string is the number the digits denote. */
  lemma DigitStringToInt(d: string)
    requires |d| > 0 && AllDigits(d)
    ensures StringToInt(d) == DigitsValue(d)
  {
    assert IsDigit(d[0]);
    assert SkipSpace(d) == d;
    LeadingDigits(d, []);
    assert d + [] == d;
  }

  /** The same for a digit string after a minus sign. */
  lemma NegativeDigitStringToInt(d: string)
    requires |d| > 0 && AllDigits(d)
    ensures StringToInt("-" + d) == -(DigitsValue(d) as int)
  {
    var s := "-" + d;
    assert s[0] == '-';
    assert SkipSpace(s) == s;
    assert s[1..] == d;
    LeadingDigits(d, []);
    assert d + [] == d;
  }

  /** A string that starts with a digit is cast as the number it starts with. */
  lemma UnsignedStringToInt(s: string)
    requires s != [] && IsDigit(s[0])
    ensures StringToInt(s) == LeadingNumber(s)
  {
    assert SkipSpace(s) == s;
  }

  /** An exponent of digits only is the value of those digits. */
  lemma DigitsExponent(e: string)
    requires |e| > 0 && AllDigits(e)
    ensures Exponent("e" + e) == DigitsValue(e)
  {
    var r := "e" + e;
    assert r[1..] == e;
    DigitRunOfDigits(e, []);
    assert e + [] == e;
  }

  /** Digits, `e` and exponent digits: the cast multiplies by that power of ten. */
  lemma ExponentStringToInt(d: string, e: string)
    requires |d| > 0 && AllDigits(d) && |e| > 0 && AllDigits(e)
    ensures StringToInt(d + "e" + e) == TimesPow10(DigitsValue(d), DigitsValue(e))
  {
    var r := "e" + e;
    var s := d + r;
    assert d + "e" + e == s;
    UnsignedStringToInt(s);
    DigitRunOfDigits(d, r);
    assert s[..|d|] == d && s[|d|..] == r;
    DigitsExponent(e);
  }

  /** Digits, `.` and fraction digits denote all the digits scaled down by the
      length of the fraction. */
  lemma FractionNumber(d: string, f: string)
    requires AllDigits(d) && AllDigits(f)
    ensures AllDigits(d + f)
    ensures LeadingNumber(d + ("." + f)) == DivPow10(DigitsValue(d + f), |f|)
  {
    var r := "." + f;
    var s := d + r;
    DigitRunOfDigits(d, r);
    assert s[..|d|] == d && s[|d|..] == r;
    assert r[1..] == f;
    DigitRunOfDigits(f, []);
    assert f + [] == f;
    assert f[..|f|] == f && f[|f|..] == [];
  }

  /** Scaling the digits of `d + f` down by `|f|` places leaves the digits of `d`. */
  lemma DropFraction(d: string, f: string)
    requires AllDigits(d) && AllDigits(f)
    ensures AllDigits(d + f)
    ensures DivPow10(DigitsValue(d + f), |f|) == DigitsValue(d)
  {
    DigitsValueAppend(d, f);
    DigitsValueBound(f);
    ShiftRoundTrip(DigitsValue(d), DigitsValue(f), |f|);
  }

  /** Digits, `.` and fraction digits: the cast drops the fraction. */
  lemma FractionStringToInt(d: string, f: string)
    requires |d| > 0 && AllDigits(d) && AllDigits(f)
    ensures StringToInt(d + "." + f) == DigitsValue(d)
  {
    var s := d + ("." + f);
    assert d + "." + f == s;
    UnsignedStringToInt(s);
    FractionNumber(d, f);
    DropFraction(d, f);
  }

  /** Digits, `.`, fraction digits and a tail that cannot continue the fraction: the
      digits scaled by the tail's exponent less the length of the fraction. */
  lemma FractionExponentNumber(d: string, f: string, x: string)
    requires AllDigits(d) && AllDigits(f) && (x == [] || !IsDigit(x[0]))
    ensures AllDigits(d + f)
    ensures LeadingNumber(d + ("." + (f + x))) == Scale(DigitsValue(d + f), Exponent(x) - |f|)
  {
    var r := "." + (f + x);
    var s := d + r;
    DigitRunOfDigits(d, r);
    assert s[..|d|] == d && s[|d|..] == r;
    assert r[1..] == f + x;
    DigitRunOfDigits(f, x);
    assert (f + x)[..|f|] == f && (f + x)[|f|..] == x;
    assert AllDigits(d + f) by { DigitsValueAppend(d, f); }
    assert DigitRun(s) == |d| && DigitRun(f + x) == |f|;
  }

  /** The cases the cast's floating-point notation adds: an exponent, */
  lemma ExponentExample()
    ensures StringToInt("1e3") == 1000
  {
    assert "1e3" == "1" + "e" + "3";
    ExponentStringToInt("1", "3");
    assert DigitsValue("1") == 1 && DigitsValue("3") == 3;
    assert TimesPow10(1, 3) == 1000;
  }

  /** a fraction, */
  lemma FractionExample()
    ensures StringToInt("2.9") == 2
  {
    assert "2.9" == "2" + "." + "9";
    FractionStringToInt("2", "9");
  }

  /** and both. The string `"1.5e1"` is passed as a parameter fixed by the requires: with the
      literal written inside the ensures the verifier unfolds StringToInt on it eagerly,
      which costs far more than the stepwise proof below. */
  lemma FractionExponentExample(s: string)
    requires s == ['1', '.', '5', 'e', '1']
    ensures StringToInt(s) == 15
  {
    var d, f, x := ['1'], ['5'], ['e', '1'];
    assert s == d + ("." + (f + x));
    UnsignedStringToInt(s);
    FractionExponentNumber(d, f, x);
    DigitsExponent(['1']);
    assert x == "e" + ['1'];
    DigitsValueAppend(d, f);
    assert DigitsValue(d) == 1 && DigitsValue(f) == 5;
  }

  /** The `(int)` cast undoes the conversion of an integer to a string. */
  lemma IntTextRoundTrip(i: int)
    ensures ToInt(Str(ToText(Int(i)))) == i
  {
    var n: nat := if i < 0 then -i else i;
    NatToStringRoundTrip(n);
    if i < 0 {
      NegativeDigitStringToInt(NatToString(n));
    } else {
      DigitStringToInt(NatToString(n));
    }
  }

  /** PHP's truthiness of a string: "" and "0" are falsy. */
  predicate TruthyString(s: string) {
    s != "" && s != "0"
  }

  // ---------------------------------------------------------------- strings

  predicate StartsWith(s: string, prefix: string) {
    |prefix| <= |s| && s[..|prefix|] == prefix
  }

  /** `str_contains($haystack, $needle)`. */
  predicate Contains(haystack: string, needle: string) {
    exists i :: 0 <= i <= |haystack| - |needle| && OccursAt(haystack, needle, i)
  }

  predicate OccursAt(haystack: string, needle: string, i: int) {
    0 <= i <= |haystack| - |needle| && haystack[i..i + |needle|] == needle
  }

  /** PHP 8's `strtolower`: ASCII letters only. */
  function Lower(s: string): (r: string)
    ensures |r| == |s|
    ensures forall i :: 0 <= i < |s| ==> r[i] == LowerChar(s[i])
  {
    seq(|s|, i requires 0 <= i < |s| => LowerChar(s[i]))
  }

  function LowerChar(c: char): char {
    if 'A' <= c <= 'Z' then (c as int + 32) as char else c
  }
}
