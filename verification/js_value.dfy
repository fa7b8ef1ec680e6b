/**
 The JavaScript values the election store handles: the plain objects it keeps
 (elections, candidate applications), the primitives it compares with `===`,
 and the string conversion a template literal applies to an interpolated value.
 */
module JsValue {

  datatype Option<T> = None | Some(value: T)

  /** Number.MAX_SAFE_INTEGER: the integers a JavaScript number holds exactly. */
  const MaxSafeInteger: int := 9007199254740991

  type SafeInt = n: int | -MaxSafeInteger <= n <= MaxSafeInteger

  /** A reading of `Date.now()`: milliseconds since the epoch. */
  type Millis = n: nat | n <= MaxSafeInteger

  /** A JSON-like JavaScript value; numbers are the safe integers. */
  datatype Value =
    | Undefined
    | Null
    | Bool(b: bool)
    | Num(n: SafeInt)
    | Str(s: string)
    | Arr(items: seq<Value>)
    | Obj(props: map<string, Value>)
  {
    predicate IsPrimitive() { !Arr? && !Obj? }
  }

  /**
   Values that `===` compares by content. On these Dafny's `==` is exactly
   JavaScript's `===`, and no array or object is `===` to one of them.
   */
  type Primitive = v: Value | v.IsPrimitive() witness Undefined

  /** A plain object, by its own enumerable properties. */
  type Record = map<string, Value>

  /** Property read `r.key`: a missing property reads as `undefined`. */
  function Get(r: Record, key: string): Value
  {
    if key in r then r[key] else Undefined
  }

  predicate IsDigit(c: char) { '0' <= c <= '9' }

  predicate AllDigits(s: string) { forall i | 0 <= i < |s| :: IsDigit(s[i]) }

  function DigitChar(d: nat): (c: char)
    requires d < 10
    ensures IsDigit(c) && c as int - '0' as int == d
  {
    ('0' as int + d) as char
  }

  /** The decimal numeral of `n`, as `String(n)` writes a safe integer. */
  function NatToDecimal(n: nat): (s: string)
    ensures |s| >= 1 && AllDigits(s)
    ensures |s| > 1 ==> s[0] != '0'
    ensures n < 10 <==> |s| == 1
    decreases n
  {
    if n < 10 then [DigitChar(n)] else NatToDecimal(n / 10) + [DigitChar(n % 10)]
  }

  /** Reads a string of decimal digits as a number (the inverse of NatToDecimal). */
  function ParseDecimal(s: string): (n: nat)
    requires AllDigits(s)
    decreases |s|
  {
    if s == [] then 0 else 10 * ParseDecimal(s[..|s| - 1]) + (s[|s| - 1] as int - '0' as int)
  }

  lemma {:induction false} DecimalRoundTrip(n: nat)
    ensures ParseDecimal(NatToDecimal(n)) == n
  {
    if n >= 10 {
      var s := NatToDecimal(n);
      assert s[..|s| - 1] == NatToDecimal(n / 10);
      DecimalRoundTrip(n / 10);
    }
  }

  /** A canonical numeral (no leading zero) is the numeral of the number it denotes. */
  lemma {:induction false} DecimalCanonical(s: string)
    requires |s| >= 1 && AllDigits(s) && (|s| > 1 ==> s[0] != '0')
    ensures NatToDecimal(ParseDecimal(s)) == s
    decreases |s|
  {
    var init, last := s[..|s| - 1], s[|s| - 1];
    var d := last as int - '0' as int;
    if |s| == 1 {
      assert ParseDecimal(init) == 0;
    } else {
      assert init[0] == s[0];
      DecimalCanonical(init);
      var m := ParseDecimal(init);
      assert NatToDecimal(m) == init;
      assert m >= 1 by { assert NatToDecimal(0) == ['0']; }
      var n := ParseDecimal(s);
      assert n == 10 * m + d;
      assert n / 10 == m && n % 10 == d;
      assert NatToDecimal(n) == init + [DigitChar(d)];
      assert init + [last] == s;
    }
  }

  /** `String(n)` for a safe integer: an optional minus sign, then the digits of |n|, with no leading zero. */
  function IntToDecimal(n: int): (s: string)
    ensures n >= 0 ==> |s| >= 1 && AllDigits(s) && (|s| > 1 ==> s[0] != '0') && ParseDecimal(s) == n
    ensures n < 0 ==>
      |s| >= 2 && s[0] == '-' && AllDigits(s[1..]) && (|s| > 2 ==> s[1] != '0') && ParseDecimal(s[1..]) == -n
  {
    if n < 0 then
      DecimalRoundTrip(-n);
      assert ("-" + NatToDecimal(-n))[1..] == NatToDecimal(-n);
      "-" + NatToDecimal(-n)
    else
      DecimalRoundTrip(n);
      NatToDecimal(n)
  }

  /**
   Whether `String(v)` returns rather than throws. A plain object with an own
   `toString` property hides Object.prototype.toString behind a value that is
   not callable, and `valueOf` gives back the object itself, so the conversion
   throws a TypeError; an array throws when one of its elements does.
   */
  predicate Printable(v: Value)
    decreases v
  {
    match v
    case Obj(props) => "toString" !in props
    case Arr(items) => forall i | 0 <= i < |items| :: Printable(items[i])
    case _ => true
  }

  /**
   `String(v)`, the conversion a template literal applies to `${v}`. An array
   is joined with "," and its `null`/`undefined` elements print as empty
   strings; a plain object prints as "[object Object]". (Arrays of two or more
   elements: see ArrayPrintsHeadCommaRest.)
   */
  function ToStr(v: Value): (r: string)
    requires Printable(v)
    ensures v.Undefined? ==> r == "undefined"
    ensures v.Null? ==> r == "null"
    ensures v.Bool? ==> r == if v.b then "true" else "false"
    ensures v.Str? ==> r == v.s
    ensures v.Num? && v.n >= 0 ==>
      |r| >= 1 && AllDigits(r) && (|r| > 1 ==> r[0] != '0') && ParseDecimal(r) == v.n
    ensures v.Num? && v.n < 0 ==>
      |r| >= 2 && r[0] == '-' && AllDigits(r[1..]) && (|r| > 2 ==> r[1] != '0') && ParseDecimal(r[1..]) == -v.n
    ensures v.Arr? && v.items == [] ==> r == ""
    ensures v.Arr? && |v.items| == 1 ==> r == ElemStr(v.items[0])
    ensures v.Obj? ==> r == "[object Object]"
    decreases v, 1
  {
    match v
    case Undefined => "undefined"
    case Null => "null"
    case Bool(b) => if b then "true" else "false"
    case Num(n) => IntToDecimal(n)
    case Str(s) => s
    case Arr(items) =>
      assert |items| == 1 ==> JoinFrom(v, 1) == "";
      JoinFrom(v, 0)
    case Obj(_) => "[object Object]"
  }

  /** How `join` prints one element: `null` and `undefined` as "", anything else as `String(e)`. */
  function ElemStr(e: Value): (r: string)
    requires Printable(e)
    decreases e, 2
  {
    if e.Undefined? || e.Null? then "" else ToStr(e)
  }

  /** `a.join(",")` applied to the elements of `a` from index `i` on. */
  function JoinFrom(a: Value, i: nat): (r: string)
    requires a.Arr? && Printable(a) && i <= |a.items|
    decreases a, 0, |a.items| - i
  {
    if i == |a.items| then ""
    else (if i == 0 then "" else ",") + ElemStr(a.items[i]) + JoinFrom(a, i + 1)
  }

  /** Dropping the first element of an array shifts the rest of the join by one place. */
  lemma {:induction false} JoinShift(items: seq<Value>, i: nat)
    requires Printable(Arr(items)) && 2 <= i <= |items|
    ensures Printable(Arr(items[1..]))
    ensures JoinFrom(Arr(items), i) == JoinFrom(Arr(items[1..]), i - 1)
    decreases |items| - i
  {
    assert forall k | 0 <= k < |items| - 1 :: items[1..][k] == items[k + 1];
    if i < |items| {
      JoinShift(items, i + 1);
      assert Arr(items[1..]).items[i - 1] == items[i];
    }
  }

  /** A non-empty array prints as its first element followed by the join of the rest. */
  lemma ArrayUnfold(a: Value)
    requires a.Arr? && Printable(a) && |a.items| >= 1
    ensures ToStr(a) == ElemStr(a.items[0]) + JoinFrom(a, 1)
  {
    assert ToStr(a) == JoinFrom(a, 0);
  }

  /**
   An array of two or more elements prints as its first element, a ",", and
   the printed array of the remaining elements.
   */
  lemma ArrayPrintsHeadCommaRest(items: seq<Value>)
    requires |items| >= 2 && Printable(Arr(items))
    ensures Printable(Arr(items[1..]))
    ensures ToStr(Arr(items)) == ElemStr(items[0]) + "," + ToStr(Arr(items[1..]))
  {
    var a, b := Arr(items), Arr(items[1..]);
    JoinShift(items, 2);
    ArrayUnfold(a);
    ArrayUnfold(b);
    var e0, e1, rest := ElemStr(items[0]), ElemStr(b.items[0]), JoinFrom(b, 1);
    assert JoinFrom(a, 1) == "," + e1 + rest;
    Assoc3(e0, ",", e1 + rest);
  }

  /** Regrouping a concatenation of three strings. */
  lemma Assoc3(x: string, y: string, z: string)
    ensures x + (y + z) == x + y + z
  {
  }
}
