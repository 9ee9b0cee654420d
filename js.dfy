/**
 * JavaScript values as they appear in Firestore documents, HTTP request bodies and
 * command-line arguments, together with the handful of coercions the Cloud Functions
 * rely on: truthiness and `||`, property reads, `Number(...)`, `String.prototype.trim`,
 * `toLowerCase`, `split` and `Array.prototype.join`.
 *
 * Numbers are exact reals: the functions only add, multiply and divide, and the
 * rounding of IEEE doubles is not part of this model.
 */
module Js {

  datatype Value =
    | Undefined
    | Null
    | Bool(b: bool)
    | Num(n: real)
    | Str(s: string)
    | Arr(items: seq<Value>)
    | Obj(fields: map<string, Value>)

  /** The body of a Firestore document: `doc.data()`. */
  type Doc = map<string, Value>

  /** Why a handler invocation was rejected. */
  datatype Error =
    | TypeError      // a property read of undefined/null, or a missing method such as `.trim`
    | NotFound       // `update` of a document (or `delete` of an index entry) that does not exist
    | ServiceError   // an external service refused the request

  datatype Result<T> = Ok(value: T) | Err(error: Error)

  /** How a handler invocation ended: it completed, or it was rejected with an error. */
  datatype Outcome = Done | Failed(error: Error)

  datatype Option<T> = None | Some(value: T)

  /** The result of `Number(...)`: a finite number or NaN. */
  datatype JsNumber = NaN | Finite(r: real)

  // ---------------------------------------------------------------------------
  // Subsequences
  // ---------------------------------------------------------------------------

  /** `b` is `a` with some elements left out, the rest in their original order. */
  predicate IsSubsequence<T(==)>(b: seq<T>, a: seq<T>)
    decreases |a|
  {
    if b == [] then true
    else if a == [] then false
    else if a[0] == b[0] then IsSubsequence(b[1..], a[1..])
    else IsSubsequence(b, a[1..])
  }

  /** A subsequence of `a` is a subsequence of `a` with an element put in front. */
  lemma {:induction false} SubsequenceDrop<T>(b: seq<T>, a: seq<T>, x: T)
    requires IsSubsequence(b, a)
    ensures IsSubsequence(b, [x] + a)
    decreases |a|, 1
  {
    assert ([x] + a)[1..] == a;
    if b != [] && b[0] == x {
      SubsequencePrefix(b, a);
    }
  }

  /** A subsequence of `a` with its head removed is still a subsequence of `a`. */
  lemma {:induction false} SubsequencePrefix<T>(b: seq<T>, a: seq<T>)
    requires b != [] && IsSubsequence(b, a)
    ensures IsSubsequence(b[1..], a)
    decreases |a|, 0
  {
    if a != [] {
      if a[0] == b[0] {
        if b[1..] != [] {
          SubsequencePrefix(b[1..], a[1..]);
          SubsequenceDrop(b[1..], a[1..], a[0]);
          assert [a[0]] + a[1..] == a;
        }
      } else {
        SubsequencePrefix(b, a[1..]);
        if b[1..] != [] {
          SubsequenceDrop(b[1..], a[1..], a[0]);
          assert [a[0]] + a[1..] == a;
        }
      }
    }
  }

  // ---------------------------------------------------------------------------
  // Truthiness, `||` and property reads
  // ---------------------------------------------------------------------------

  /** `Boolean(v)`: the falsy values are undefined, null, false, 0 and "". */
  predicate Truthy(v: Value)
    ensures Truthy(v) ==> v != Undefined && v != Null
    ensures v.Arr? || v.Obj? ==> Truthy(v)
  {
    match v
    case Undefined => false
    case Null => false
    case Bool(b) => b
    case Num(n) => n != 0.0
    case Str(s) => s != ""
    case Arr(_) => true
    case Obj(_) => true
  }

  /** `a || b`: one of the operands, and truthy exactly when one of them is. */
  function Or(a: Value, b: Value): (r: Value)
    ensures r == a || r == b
    ensures Truthy(r) <==> Truthy(a) || Truthy(b)
  {
    if Truthy(a) then a else b
  }

  /** `d.key` on a document body: a missing field reads as undefined. */
  function Field(d: Doc, key: string): Value {
    if key in d then d[key] else Undefined
  }

  /**
   * `v.key` for the plain data keys the functions read (none of them names a built-in
   * property of strings, numbers or arrays): it throws on undefined and null.
   */
  function Get(v: Value, key: string): (r: Result<Value>)
    ensures r.Err? <==> v == Undefined || v == Null
  {
    match v
    case Undefined => Err(TypeError)
    case Null => Err(TypeError)
    case Obj(m) => Ok(if key in m then m[key] else Undefined)
    case _ => Ok(Undefined)
  }

  /** `v?.key`: like `Get`, but undefined and null short-circuit to undefined. */
  function OptGet(v: Value, key: string): (r: Value)
    ensures Get(v, key).Ok? ==> r == Get(v, key).value
    ensures v == Undefined || v == Null ==> r == Undefined
  {
    match v
    case Obj(m) => if key in m then m[key] else Undefined
    case _ => Undefined
  }

  /** `typeof v === 'number'` */
  predicate IsNumber(v: Value) {
    v.Num?
  }

  /** `Array.isArray(v)` */
  predicate IsArray(v: Value) {
    v.Arr?
  }

  // ---------------------------------------------------------------------------
  // Characters and strings
  // ---------------------------------------------------------------------------

  /** WhiteSpace and LineTerminator code points of ECMAScript, which `trim` removes. */
  predicate IsJsSpace(c: char) {
    || c == ' ' || c == '\t' || c == '\n' || c == '\r'
    || c == '\U{000B}' || c == '\U{000C}' || c == '\U{00A0}' || c == '\U{FEFF}'
    || c == '\U{1680}' || ('\U{2000}' <= c <= '\U{200A}')
    || c == '\U{2028}' || c == '\U{2029}' || c == '\U{202F}' || c == '\U{205F}'
    || c == '\U{3000}'
  }

  /** The leading half of `s.trim()`: only leading white space goes, and what is left starts with none. */
  function TrimStart(s: string): (r: string)
    ensures |r| <= |s|
    ensures forall i | 0 <= i < |s| - |r| :: IsJsSpace(s[i])
    ensures r != [] ==> !IsJsSpace(r[0])
  {
    if s != [] && IsJsSpace(s[0]) then
      var r := TrimStart(s[1..]);
      assert forall i | 1 <= i < |s| - |r| :: s[i] == s[1..][i - 1];
      r
    else s
  }

  /** The trailing half of `s.trim()`: only trailing white space goes, and what is left ends with none. */
  function TrimEnd(s: string): (r: string)
    ensures |r| <= |s|
    ensures forall i | |r| <= i < |s| :: IsJsSpace(s[i])
    ensures r != [] ==> !IsJsSpace(r[|r| - 1])
  {
    if s != [] && IsJsSpace(s[|s| - 1]) then TrimEnd(s[..|s| - 1]) else s
  }

  /** `s.trim()` */
  function Trim(s: string): string {
    TrimEnd(TrimStart(s))
  }

  /** Trimming only removes characters: what is left is a piece of the string. */
  lemma {:induction false} TrimInside(s: string)
    ensures forall c | c in Trim(s) :: c in s
  {
    TrimStartSuffix(s);
    TrimEndPrefix(TrimStart(s));
  }

  lemma {:induction false} TrimStartSuffix(s: string)
    ensures TrimStart(s) == s[|s| - |TrimStart(s)|..]
    decreases |s|
  {
    if s != [] && IsJsSpace(s[0]) {
      TrimStartSuffix(s[1..]);
    }
  }

  lemma {:induction false} TrimEndPrefix(s: string)
    ensures TrimEnd(s) == s[..|TrimEnd(s)|]
    decreases |s|
  {
    if s != [] && IsJsSpace(s[|s| - 1]) {
      TrimEndPrefix(s[..|s| - 1]);
    }
  }

  /** Every character of `s` is white space. */
  predicate AllSpace(s: string) {
    forall i | 0 <= i < |s| :: IsJsSpace(s[i])
  }

  /** `s.trim() === ""` holds exactly for the strings made only of white space. */
  lemma TrimEmptyIffAllSpace(s: string)
    ensures Trim(s) == "" <==> AllSpace(s)
  {
    TrimStartEmpty(s);
    var t := TrimStart(s);
    if t != [] {
      TrimEndKeepsLead(t);
    }
  }

  /** TrimStart empties exactly the strings made of white space. */
  lemma {:induction false} TrimStartEmpty(s: string)
    ensures TrimStart(s) == [] <==> AllSpace(s)
  {
    if s != [] {
      TrimStartEmpty(s[1..]);
      if AllSpace(s[1..]) && IsJsSpace(s[0]) {
        forall i | 0 <= i < |s| ensures IsJsSpace(s[i]) {
          if i > 0 { assert s[i] == s[1..][i - 1]; }
        }
      }
      if AllSpace(s) {
        assert IsJsSpace(s[0]);
        forall i | 0 <= i < |s| - 1 ensures IsJsSpace(s[1..][i]) {
          assert s[1..][i] == s[i + 1];
        }
      }
    }
  }

  /**
   * `trim` removes exactly the white space around the text: text with no white space at
   * either end, padded on both sides with white space, trims back to itself.
   */
  lemma TrimPadded(lead: string, text: string, trail: string)
    requires AllSpace(lead) && AllSpace(trail)
    requires text != [] ==> !IsJsSpace(text[0]) && !IsJsSpace(text[|text| - 1])
    ensures Trim(lead + text + trail) == text
  {
    if text == [] {
      assert lead + text + trail == lead + trail;
      TrimEmptyIffAllSpace(lead + trail);
    } else {
      assert lead + text + trail == lead + (text + trail);
      TrimStartPadded(lead, text + trail);
      TrimEndPadded(text, trail);
    }
  }

  lemma {:induction false} TrimStartPadded(lead: string, rest: string)
    requires AllSpace(lead)
    requires rest != [] && !IsJsSpace(rest[0])
    ensures TrimStart(lead + rest) == rest
    decreases |lead|
  {
    if lead != [] {
      assert (lead + rest)[1..] == lead[1..] + rest;
      TrimStartPadded(lead[1..], rest);
    } else {
      assert lead + rest == rest;
    }
  }

  lemma {:induction false} TrimEndPadded(text: string, trail: string)
    requires AllSpace(trail)
    requires text != [] && !IsJsSpace(text[|text| - 1])
    ensures TrimEnd(text + trail) == text
    decreases |trail|
  {
    if trail != [] {
      assert (text + trail)[..|text + trail| - 1] == text + trail[..|trail| - 1];
      TrimEndPadded(text, trail[..|trail| - 1]);
    } else {
      assert text + trail == text;
    }
  }

  /** TrimEnd keeps a string that starts with a non-space character non-empty. */
  lemma {:induction false} TrimEndKeepsLead(s: string)
    requires s != [] && !IsJsSpace(s[0])
    ensures TrimEnd(s) != []
  {
    if IsJsSpace(s[|s| - 1]) {
      assert |s| >= 2;
      assert s[..|s| - 1][0] == s[0];
      TrimEndKeepsLead(s[..|s| - 1]);
    }
  }

  /** `s.toLowerCase()` for the ASCII letters. */
  function ToLowerAscii(s: string): (r: string)
    ensures |r| == |s|
    ensures forall i | 0 <= i < |s| ::
      r[i] == if 'A' <= s[i] <= 'Z' then (s[i] as int + 32) as char else s[i]
  {
    if s == [] then []
    else [if 'A' <= s[0] <= 'Z' then (s[0] as int + 32) as char else s[0]] + ToLowerAscii(s[1..])
  }

  /** `s.includes(sub)` */
  predicate Contains(s: string, sub: string)
    decreases |s|
  {
    StartsWith(s, sub) || (s != [] && Contains(s[1..], sub))
  }

  /** `s.startsWith(p)` */
  predicate StartsWith(s: string, p: string) {
    |p| <= |s| && s[..|p|] == p
  }

  /** `parts.join(sep)` on strings. */
  function Join(parts: seq<string>, sep: string): string {
    if parts == [] then ""
    else if |parts| == 1 then parts[0]
    else Join(parts[..|parts| - 1], sep) + sep + parts[|parts| - 1]
  }

  /** The index of the first `sep` in `s`, or |s|. */
  function IndexOfChar(s: string, sep: char): (k: nat)
    ensures k <= |s| && sep !in s[..k]
    ensures k < |s| ==> s[k] == sep
  {
    if s == [] then 0
    else if s[0] == sep then 0
    else 1 + IndexOfChar(s[1..], sep)
  }

  /** `s.split(sep)` for a one-character separator: never empty, "" gives [""]. */
  function Split(s: string, sep: char): (r: seq<string>)
    ensures |r| >= 1
    ensures forall i | 0 <= i < |r| :: sep !in r[i]
    decreases |s|
  {
    var k := IndexOfChar(s, sep);
    if k == |s| then [s] else [s[..k]] + Split(s[k + 1..], sep)
  }

  /** Joining the pieces of a split with the separator gives back the string. */
  lemma {:induction false} JoinSplit(s: string, sep: char)
    ensures Join(Split(s, sep), [sep]) == s
    decreases |s|
  {
    var k := IndexOfChar(s, sep);
    if k < |s| {
      var rest := Split(s[k + 1..], sep);
      assert Split(s, sep) == [s[..k]] + rest;
      JoinSplit(s[k + 1..], sep);
      JoinCons(s[..k], rest, [sep]);
      calc {
        Join(Split(s, sep), [sep]);
        s[..k] + [sep] + Join(rest, [sep]);
        s[..k] + [sep] + s[k + 1..];
        { assert s[k] == sep; }
        s;
      }
    } else {
      assert Split(s, sep) == [s];
    }
  }

  /** Splitting pieces joined with a separator none of them holds gives back the pieces. */
  lemma {:induction false} SplitJoin(parts: seq<string>, sep: char)
    requires |parts| >= 1
    requires forall i | 0 <= i < |parts| :: sep !in parts[i]
    ensures Split(Join(parts, [sep]), sep) == parts
    decreases |parts|
  {
    var head, tail := parts[0], parts[1..];
    if tail == [] {
      assert parts == [head];
    } else {
      assert parts == [head] + tail;
      JoinCons(head, tail, [sep]);
      var s := Join(parts, [sep]);
      assert s == head + [sep] + Join(tail, [sep]);
      var k := IndexOfChar(s, sep);
      assert s[|head|] == sep;
      assert s[..k] == head;
      assert s[k + 1..] == Join(tail, [sep]);
      SplitJoin(tail, sep);
    }
  }

  lemma {:induction false} JoinCons(head: string, tail: seq<string>, sep: string)
    requires |tail| >= 1
    ensures Join([head] + tail, sep) == head + sep + Join(tail, sep)
    decreases |tail|
  {
    var all := [head] + tail;
    if |tail| == 1 {
      assert all[..1] == [head];
    } else {
      assert all[..|all| - 1] == [head] + tail[..|tail| - 1];
      JoinCons(head, tail[..|tail| - 1], sep);
    }
  }

  // ---------------------------------------------------------------------------
  // Numbers and their decimal text
  // ---------------------------------------------------------------------------

  predicate IsDigit(c: char) {
    '0' <= c <= '9'
  }

  predicate AllDigits(s: string) {
    forall i | 0 <= i < |s| :: IsDigit(s[i])
  }

  /** The value of a string of decimal digits. */
  function DecimalValue(s: string): nat
    requires AllDigits(s)
  {
    if s == [] then 0
    else DecimalValue(s[..|s| - 1]) * 10 + (s[|s| - 1] as int - '0' as int)
  }

  /** The decimal text of a natural number, without leading zeros. */
  function NatToString(n: nat): (r: string)
    ensures |r| >= 1 && AllDigits(r)
  {
    if n < 10 then [('0' as int + n) as char]
    else NatToString(n / 10) + [('0' as int + n % 10) as char]
  }

  /** `String(i)` for an integer. */
  function IntToString(i: int): string {
    if i < 0 then "-" + NatToString(-i) else NatToString(i)
  }

  /** `Number(String(n)) === n`: the decimal text reads back as the same number. */
  lemma {:induction false} DecimalOfNatToString(n: nat)
    ensures DecimalValue(NatToString(n)) == n
  {
    if n >= 10 {
      DecimalOfNatToString(n / 10);
      var s := NatToString(n);
      assert s[..|s| - 1] == NatToString(n / 10);
    }
  }

  /** Different integers have different decimal texts (so they are distinct object keys). */
  lemma IntToStringInjective(a: int, b: int)
    requires IntToString(a) == IntToString(b)
    ensures a == b
  {
    DecimalOfNatToString(if a < 0 then -a else a);
    DecimalOfNatToString(if b < 0 then -b else b);
    assert a < 0 <==> IntToString(a)[0] == '-';
    assert b < 0 <==> IntToString(b)[0] == '-';
    if a < 0 {
      assert NatToString(-a) == IntToString(a)[1..] == IntToString(b)[1..] == NatToString(-b);
    }
  }

  /**
   * `Number(s)` for a string: blank text is 0 and a run of decimal digits (with
   * surrounding white space) is its value. Signs, fractions, exponents, radix prefixes
   * and "Infinity" are not modelled and read as NaN.
   */
  function StringToNumber(s: string): (r: JsNumber)
    ensures AllDigits(s) && s != "" ==> r == Finite(DecimalValue(s) as real)
  {
    var t := Trim(s);
    if t == "" then Finite(0.0)
    else if AllDigits(t) then Finite(DecimalValue(t) as real)
    else NaN
  }

  /** The longest run of decimal digits at the start of `s`. */
  function DigitPrefix(s: string): (r: string)
    ensures AllDigits(r) && StartsWith(s, r)
    ensures AllDigits(s) ==> r == s
  {
    if s != [] && IsDigit(s[0]) then [s[0]] + DigitPrefix(s[1..]) else []
  }

  /**
   * `parseInt(s)` with radix 10: leading white space and one sign are skipped, then the
   * longest run of digits is read; no digits give NaN. Hexadecimal `0x` prefixes are
   * not modelled.
   */
  function ParseInt(s: string): (r: JsNumber)
    ensures AllDigits(s) && s != "" ==> r == Finite(DecimalValue(s) as real)
  {
    var t := TrimStart(s);
    var signed := t != [] && (t[0] == '-' || t[0] == '+');
    var digits := DigitPrefix(if signed then t[1..] else t);
    if digits == [] then NaN
    else if t[0] == '-' then Finite(-(DecimalValue(digits) as real))
    else Finite(DecimalValue(digits) as real)
  }

  /**
   * `Number(v)`; an array converts through its text (`[]` is 0, `[5]` is 5). An object is
   * NaN: a Firestore Timestamp's `valueOf` conversion is not modelled.
   */
  function ToNumber(v: Value): JsNumber {
    match v
    case Undefined => NaN
    case Null => Finite(0.0)
    case Bool(b) => Finite(if b then 1.0 else 0.0)
    case Num(n) => Finite(n)
    case Str(s) => StringToNumber(s)
    case Arr(_) => StringToNumber(JoinText(v))
    case Obj(_) => NaN
  }

  /** `Number(v || 0)`: a missing or falsy field gives 0. */
  function NumberOrZero(v: Value): (r: JsNumber)
    ensures !Truthy(v) ==> r == Finite(0.0)
    ensures v.Num? ==> r == Finite(v.n)
  {
    ToNumber(Or(v, Num(0.0)))
  }

  /** `v >= k` for a number `k`: the value is converted with `Number`, NaN compares false. */
  predicate AtLeast(v: Value, k: real) {
    match ToNumber(v)
    case NaN => false
    case Finite(r) => r >= k
  }

  /** `v > k` for a number `k`. */
  predicate Above(v: Value, k: real) {
    match ToNumber(v)
    case NaN => false
    case Finite(r) => r > k
  }

  /**
   * The text `String(v)` gives for an element of `Array.prototype.join`; undefined and
   * null elements become "". Non-integer numbers, whose text is a floating-point
   * formatting question, are rendered as "".
   */
  function JoinText(v: Value): string
    decreases v
  {
    match v
    case Undefined => ""
    case Null => ""
    case Bool(b) => if b then "true" else "false"
    case Num(n) => if n == n.Floor as real then IntToString(n.Floor) else ""
    case Str(s) => s
    case Arr(items) => Join(seq(|items|, i requires 0 <= i < |items| => JoinText(items[i])), ",")
    case Obj(_) => "[object Object]"
  }

  /**
   * Undefined is NaN, a number is itself, any other falsy value (null, false, 0, "") is 0,
   * and so is the empty array.
   */
  lemma ToNumberSpec(v: Value)
    ensures v == Undefined ==> ToNumber(v) == NaN
    ensures v.Num? ==> ToNumber(v) == Finite(v.n)
    ensures !Truthy(v) && v != Undefined ==> ToNumber(v) == Finite(0.0)
    ensures v.Arr? && v.items == [] ==> ToNumber(v) == Finite(0.0)
  {
  }

  /** A string is its own text, undefined and null are empty, and a boolean's text is not a number. */
  lemma JoinTextSpec(v: Value)
    ensures v.Str? ==> JoinText(v) == v.s
    ensures v == Undefined || v == Null ==> JoinText(v) == ""
    ensures v.Bool? ==> StringToNumber(JoinText(v)) == NaN
  {
  }

  /** `String(v)`: like an array element's text, except that undefined and null are spelled out. */
  function ToText(v: Value): (r: string)
    ensures v.Str? ==> r == v.s
  {
    match v
    case Undefined => "undefined"
    case Null => "null"
    case _ => JoinText(v)
  }

  /** `Number([n])` for a natural number `n` is `n`: the array converts through the text of `n`. */
  lemma SingletonArrayNumber(n: nat)
    ensures ToNumber(Arr([Num(n as real)])) == Finite(n as real)
  {
    var t := NatToString(n);
    assert (n as real).Floor == n;
    assert JoinText(Num(n as real)) == t;
    var parts := seq(1, i requires 0 <= i < 1 => JoinText([Num(n as real)][i]));
    assert parts == [t];
    DecimalOfNatToString(n);
  }

  /** `items.join(sep)` */
  function ArrayJoin(items: seq<Value>, sep: string): string {
    Join(seq(|items|, i requires 0 <= i < |items| => JoinText(items[i])), sep)
  }
}
