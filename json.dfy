/** JSON values as JavaScript sees them after `JSON.parse`, with the pieces of
    JavaScript semantics the event core applies to them: truthiness, property
    lookup, `Number(...)`, `Number.isInteger`, `String(...)`, and `JSON.parse`
    / `JSON.stringify` as an abstract codec. */
module JsValues {
  import opened Wrappers
  import opened JsText

  /** A number JSON text can write: a finite decimal, that is a real that
      some power of ten scales to an integer. The integers need no power. */
  ghost predicate IsDecimal(r: real) {
    r.Floor as real == r || exists k: nat :: ScaledIsInteger(r, k)
  }

  ghost predicate ScaledIsInteger(r: real, k: nat) {
    var x := r * Pow10(k) as real;
    x.Floor as real == x
  }

  type Decimal = r: real | IsDecimal(r) witness 0.0

  datatype JsValue =
    | JNull
    | JBool(b: bool)
    | JNum(n: Decimal)
    | JStr(s: string)
    | JArr(items: seq<JsValue>)
    | JObj(fields: map<string, JsValue>)

  /** A sanity check of the number type: it is narrower than `real`, since
      one third is not in it (no power of ten is a multiple of three). */
  lemma ThirdIsNotDecimal()
    ensures !IsDecimal(1.0 / 3.0)
  {
    var r := 1.0 / 3.0;
    assert r.Floor == 0;
    if k: nat :| ScaledIsInteger(r, k) {
      var x := r * Pow10(k) as real;
      var m := x.Floor;
      assert m as real * 3.0 == Pow10(k) as real;
      assert m * 3 == Pow10(k);
      Pow10ModThree(k);
    }
  }

  lemma OneAboveThrees(m: int)
    ensures (3 * m + 1) % 3 == 1
  {
  }

  lemma {:induction false} Pow10ModThree(k: nat)
    ensures Pow10(k) % 3 == 1
  {
    if k > 0 {
      Pow10ModThree(k - 1);
      var q := Pow10(k - 1) / 3;
      assert Pow10(k - 1) == 3 * q + 1;
      var m := 10 * q + 3;
      assert Pow10(k) == 3 * m + 1;
      OneAboveThrees(m);
    }
  }

  /** JavaScript truthiness; `undefined` is `None` where a value may be absent. */
  predicate Truthy(v: JsValue) {
    match v
    case JNull => false
    case JBool(b) => b
    case JNum(n) => n != 0.0
    case JStr(s) => s != ""
    case _ => true
  }

  predicate TruthyOpt(o: Option<JsValue>) {
    o.Some? && Truthy(o.value)
  }

  /** `v[key]` for the keys the core reads: only an object has them as own
      properties; anything else gives `undefined`. */
  function Get(v: JsValue, key: string): (r: Option<JsValue>)
    ensures r.Some? <==> v.JObj? && key in v.fields
    ensures r.Some? ==> r.value == v.fields[key]
  {
    if v.JObj? && key in v.fields then Some(v.fields[key]) else None
  }

  /** `a || b` when `a` may be `undefined`. */
  function Or(a: Option<JsValue>, b: Option<JsValue>): Option<JsValue> {
    if TruthyOpt(a) then a else b
  }

  // ---------------------------------------------------------------------
  // Number(...)
  // ---------------------------------------------------------------------

  /** A JavaScript number; finite values are exact reals in this model. */
  datatype Num = NaN | Infinity(negative: bool) | Finite(r: real)

  /** `Number.isInteger`. */
  predicate IsInteger(x: Num) {
    x.Finite? && x.r.Floor as real == x.r
  }

  function Pow10(k: nat): (p: nat)
    ensures p >= 1
  {
    if k == 0 then 1 else 10 * Pow10(k - 1)
  }

  /** Length of the longest prefix of digits. */
  function DigitRun(s: string): (n: nat)
    ensures n <= |s| && AllDigits(s[..n])
    ensures n == |s| || !IsDigit(s[n])
  {
    if s != [] && IsDigit(s[0]) then
      var n := 1 + DigitRun(s[1..]);
      assert s[..n] == [s[0]] + s[1..][..n - 1];
      n
    else 0
  }

  function Negate(x: Num): Num {
    match x
    case NaN => NaN
    case Infinity(neg) => Infinity(!neg)
    case Finite(r) => Finite(-r)
  }

  /** The optional exponent part `e[+-]digits` that follows a mantissa. */
  function WithExponent(mantissa: real, rest: string): Num {
    if rest == [] then Finite(mantissa)
    else if rest[0] != 'e' && rest[0] != 'E' then NaN
    else
      var e := rest[1..];
      var neg := e != [] && e[0] == '-';
      var digits := if e != [] && (e[0] == '-' || e[0] == '+') then e[1..] else e;
      if digits == [] || !AllDigits(digits) then NaN
      else if neg then Finite(mantissa / Pow10(DigitsValue(digits)) as real)
      else Finite(mantissa * Pow10(DigitsValue(digits)) as real)
  }

  /** An unsigned decimal literal: `Infinity`, or digits with an optional
      fraction and an optional exponent, with at least one digit. */
  function UnsignedDecimal(t: string): Num {
    if t == "Infinity" then Infinity(false)
    else
      var a := DigitRun(t);
      if a < |t| && t[a] == '.' then
        var f := t[a + 1..];
        var b := DigitRun(f);
        if a == 0 && b == 0 then NaN
        else
          assert AllDigits(t[..a] + f[..b]);
          WithExponent(DigitsValue(t[..a] + f[..b]) as real / Pow10(b) as real, f[b..])
      else if a == 0 then NaN
      else WithExponent(DigitsValue(t[..a]) as real, t[a..])
  }

  /** `Number(s)` for a string: whitespace around the literal is ignored and
      blank text is 0. */
  function StringToNumber(s: string): Num {
    var t := Trim(s);
    if t == [] then Finite(0.0)
    else if t[0] == '-' then Negate(UnsignedDecimal(t[1..]))
    else if t[0] == '+' then UnsignedDecimal(t[1..])
    else UnsignedDecimal(t)
  }

  /** `Number(v)`, with `None` for `undefined`. */
  function ToNumber(v: Option<JsValue>): Num {
    if v.None? then NaN else ValueToNumber(v.value)
  }

  /** `Number(v)` for a JSON value. An array converts through its string
      form: `[]` and `[null]` are 0, a one-element array converts as its
      element does, a longer one contains a comma and is NaN. */
  function ValueToNumber(v: JsValue): Num
    decreases v
  {
    match v
    case JNull => Finite(0.0)
    case JBool(b) => Finite(if b then 1.0 else 0.0)
    case JNum(n) => Finite(n)
    case JStr(s) => StringToNumber(s)
    case JObj(_) => NaN
    case JArr(xs) =>
      if |xs| == 0 then Finite(0.0)
      else if |xs| > 1 then NaN
      else match xs[0]
        case JNull => Finite(0.0)
        case JBool(_) => NaN
        case JObj(_) => NaN
        case _ => ValueToNumber(xs[0])
  }

  /** The decimal text `String(n)` writes for a counter converts back to
      exactly that counter. */
  lemma CounterTextRoundTrip(n: nat)
    ensures StringToNumber(NatToString(n)) == Finite(n as real)
  {
    var t := NatToString(n);
    DigitIsPlain(t[0]);
    DigitIsPlain(t[|t| - 1]);
    TrimUntouched(t);
    UnsignedOfDigits(t);
  }

  lemma DigitIsPlain(c: char)
    requires IsDigit(c)
    ensures !IsWhiteSpace(c) && c != '-' && c != '+'
  {
  }

  lemma UnsignedOfDigits(t: string)
    requires t != [] && AllDigits(t)
    ensures UnsignedDecimal(t) == Finite(DigitsValue(t) as real)
  {
    assert t != "Infinity" by { assert IsDigit(t[0]); }
    DigitRunOfDigits(t);
    assert t[..|t|] == t && t[|t|..] == [];
  }

  lemma {:induction false} DigitRunOfDigits(s: string)
    requires AllDigits(s)
    ensures DigitRun(s) == |s|
  {
    if s != [] {
      DigitRunOfDigits(s[1..]);
    }
  }

  /** `Number(String(n))` for the JSON number of a counter. */
  lemma NumberOfCounter(n: nat)
    ensures ToNumber(Some(JStr(NatToString(n)))) == Finite(n as real)
    ensures ToNumber(Some(JNum(n as real))) == Finite(n as real)
    ensures IsInteger(Finite(n as real))
  {
    CounterTextRoundTrip(n);
  }

  // ---------------------------------------------------------------------
  // String(...) and filter(Boolean).join(" ")
  // ---------------------------------------------------------------------

  /** `String(v)`. Integers below 1e21 print in plain decimal; other numbers
      print as "" in this model. */
  function Display(v: JsValue): string
    decreases v
  {
    match v
    case JNull => "null"
    case JBool(b) => if b then "true" else "false"
    case JNum(r) => if r.Floor as real == r then IntToString(r.Floor) else ""
    case JStr(s) => s
    case JArr(xs) =>
      Join(seq(|xs|, i requires 0 <= i < |xs| => if xs[i].JNull? then "" else Display(xs[i])), ",")
    case JObj(_) => "[object Object]"
  }

  /** The display texts of the truthy parts, in order: `parts.filter(Boolean)`
      before `join`. */
  function TruthyTexts(parts: seq<JsValue>): (r: seq<string>)
    ensures |r| <= |parts|
  {
    if parts == [] then []
    else if Truthy(parts[0]) then [Display(parts[0])] + TruthyTexts(parts[1..])
    else TruthyTexts(parts[1..])
  }

  /** `parts.filter(Boolean).join(" ")`. */
  function JoinTruthy(parts: seq<JsValue>): string {
    Join(TruthyTexts(parts), " ")
  }

  /** A space before a non-empty string, nothing before an empty one. */
  function Spaced(s: string): string {
    if s == "" then "" else " " + s
  }

  /** String values, in order. */
  function Strs(xs: seq<string>): (r: seq<JsValue>)
    ensures |r| == |xs|
  {
    seq(|xs|, i requires 0 <= i < |xs| => JStr(xs[i]))
  }

  /** Each piece with a space in front of it, the empty ones left out. */
  function SpacedAll(xs: seq<string>): string {
    if xs == [] then "" else Spaced(xs[0]) + SpacedAll(xs[1..])
  }

  /** Joining non-empty texts with spaces after a non-empty first one puts
      one space before each of them. */
  lemma {:induction false} JoinSpaced(a: string, ts: seq<string>)
    requires a != ""
    requires forall k :: 0 <= k < |ts| ==> ts[k] != ""
    ensures Join([a] + ts, " ") == a + SpacedAll(ts)
    decreases |ts|
  {
    if ts == [] {
      assert [a] + ts == [a];
    } else {
      var x := SpacedAll(ts[1..]);
      assert [ts[0]] + ts[1..] == ts;
      calc {
        Join([a] + ts, " ");
        { JoinCons(a, ts, " "); }
        a + " " + Join([ts[0]] + ts[1..], " ");
        { JoinSpaced(ts[0], ts[1..]); }
        a + " " + (ts[0] + x);
        { ConcatAssoc(a, " ", ts[0], x); }
        a + (" " + ts[0] + x);
      }
    }
  }

  lemma ConcatAssoc(a: string, b: string, c: string, d: string)
    ensures a + b + (c + d) == a + (b + c + d)
  {
  }

  /** Of string values, filter(Boolean) keeps exactly the non-empty ones, so
      spacing what it keeps is spacing them all. */
  lemma {:induction false} TruthyStrings(xs: seq<string>)
    ensures forall k :: 0 <= k < |TruthyTexts(Strs(xs))| ==> TruthyTexts(Strs(xs))[k] != ""
    ensures SpacedAll(TruthyTexts(Strs(xs))) == SpacedAll(xs)
    decreases |xs|
  {
    if xs != [] {
      var parts := Strs(xs);
      assert parts[0] == JStr(xs[0]) && parts[1..] == Strs(xs[1..]);
      TruthyStrings(xs[1..]);
      var tail := TruthyTexts(Strs(xs[1..]));
      if xs[0] != "" {
        assert TruthyTexts(parts) == [xs[0]] + tail;
        assert ([xs[0]] + tail)[1..] == tail;
      } else {
        assert TruthyTexts(parts) == tail;
      }
    }
  }

  /** Joining truthy string parts after a non-empty first one: every further
      non-empty part follows a single space, and empty parts leave no trace. */
  lemma JoinTruthyStrings(a: string, rest: seq<string>)
    requires a != ""
    ensures JoinTruthy(Strs([a] + rest)) == a + SpacedAll(rest)
  {
    var parts := Strs([a] + rest);
    assert parts[1..] == Strs(rest);
    assert TruthyTexts(parts) == [a] + TruthyTexts(Strs(rest));
    TruthyStrings(rest);
    JoinSpaced(a, TruthyTexts(Strs(rest)));
  }

  lemma JoinCons(x: string, ys: seq<string>, sep: string)
    ensures Join([x] + ys, sep) == x + (if ys == [] then "" else sep + Join(ys, sep))
  {
    assert ([x] + ys)[1..] == ys;
  }

  // ---------------------------------------------------------------------
  // JSON.parse / JSON.stringify
  // ---------------------------------------------------------------------

  /** `JSON.stringify` and `JSON.parse` (the latter failing with `None`). */
  datatype Codec = Codec(stringify: JsValue -> string, parse: string -> Option<JsValue>)

  /** A serialised value sits on one line of its own: it is not empty, does
      not start with whitespace and holds no line feed or carriage return
      (JSON.stringify escapes both). */
  predicate OneLine(s: string) {
    s != [] && !IsWhiteSpace(s[0]) && '\n' !in s && '\r' !in s
  }

  /** What the model relies on about JSON: parsing a serialisation gives the
      value back, serialisations are single non-blank lines, and blank text
      does not parse. */
  ghost predicate Lawful(c: Codec) {
    && (forall v :: c.parse(c.stringify(v)) == Some(v))
    && (forall v :: OneLine(c.stringify(v)))
    && (forall s :: AllWhiteSpace(s) ==> c.parse(s) == None)
  }
}
