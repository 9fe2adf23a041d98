/** The JavaScript values read by the backend's validators, with the
    conversions those validators rely on: truthiness, `typeof`, `String(v)`,
    property reads (which throw on `null` and `undefined`), `parseInt`,
    `parseFloat`, `Number(v)` and the relational operators. Numbers are
    integers here and doubles' rounding is not modelled: a numeric literal
    is read as the exact rational it spells. */
module JsValues {
  import opened Wrappers
  import opened Text

  datatype JsValue =
    | Undefined
    | Null
    | Bool(b: bool)
    | Num(n: int)
    | Str(s: string)
    | Arr(items: seq<JsValue>)
    | Obj(fields: map<string, JsValue>)

  /** A JavaScript number: finite, infinite or `NaN`. */
  datatype JsNumber = Finite(r: real) | PosInf | NegInf | NaN

  /** `!!v` */
  predicate Truthy(v: JsValue)
  {
    match v
    case Undefined => false
    case Null => false
    case Bool(b) => b
    case Num(n) => n != 0
    case Str(s) => s != ""
    case _ => true
  }

  /** `typeof v` */
  function TypeOf(v: JsValue): (t: string)
    ensures t == "string" <==> v.Str?
    ensures t == "boolean" <==> v.Bool?
    ensures t == "number" <==> v.Num?
    ensures t == "object" <==> v.Null? || v.Arr? || v.Obj?
  {
    match v
    case Undefined => "undefined"
    case Null => "object"
    case Bool(_) => "boolean"
    case Num(_) => "number"
    case Str(_) => "string"
    case _ => "object"
  }

  /** `String(v)`, as template literals and `parseInt` convert a value:
      an array is its items joined with commas, `null` and `undefined`
      items as empty strings. */
  function ToStr(v: JsValue): string
    decreases v, 1
  {
    match v
    case Undefined => "undefined"
    case Null => "null"
    case Bool(b) => if b then "true" else "false"
    case Num(n) => IntToString(n)
    case Str(s) => s
    case Arr(items) => JoinItems(items)
    case Obj(_) => "[object Object]"
  }

  /** `items.join(",")` */
  function JoinItems(items: seq<JsValue>): string
    decreases items, 0
  {
    if items == [] then ""
    else
      var head := if items[0].Undefined? || items[0].Null? then "" else ToStr(items[0]);
      if |items| == 1 then head else head + "," + JoinItems(items[1..])
  }

  /** The message V8 gives a property read on `null` or `undefined`. */
  function ReadError(v: JsValue, key: string): string
  {
    "Cannot read properties of " + ToStr(v) + " (reading '" + key + "')"
  }

  /** `v[key]` for a named key: a `TypeError` on `null` and `undefined`, an
      object's own field, the `length` of a string or an array, and
      `undefined` otherwise (inherited properties are not modelled). */
  function Get(v: JsValue, key: string): (r: Result<JsValue>)
    ensures r.Err? <==> v.Undefined? || v.Null?
    ensures v.Obj? ==> r == Ok(if key in v.fields then v.fields[key] else Undefined)
  {
    match v
    case Undefined => Err(ReadError(v, key))
    case Null => Err(ReadError(v, key))
    case Obj(f) => Ok(if key in f then f[key] else Undefined)
    case Str(s) => Ok(if key == "length" then Num(|s|) else Undefined)
    case Arr(items) => Ok(if key == "length" then Num(|items|) else Undefined)
    case _ => Ok(Undefined)
  }

  // ---------------------------------------------------------------------------
  // Characters and digits

  /** The white space and line terminators that `trim`, `parseInt` and
      `Number` skip. */
  predicate JsSpace(c: char)
  {
    c == '\t' || c == '\n' || c == '\U{B}' || c == '\U{C}' || c == '\r' || c == ' ' || c == '\U{A0}'
    || c == '\U{1680}' || ('\U{2000}' <= c <= '\U{200A}') || c == '\U{2028}' || c == '\U{2029}'
    || c == '\U{202F}' || c == '\U{205F}' || c == '\U{3000}' || c == '\U{FEFF}'
  }

  /** `s.trimStart()` */
  function TrimStart(s: string): (r: string)
    ensures |r| <= |s| && r == s[|s| - |r|..]
    ensures r != [] ==> !JsSpace(r[0])
    ensures forall i :: 0 <= i < |s| - |r| ==> JsSpace(s[i])
  {
    if s != [] && JsSpace(s[0]) then TrimStart(s[1..]) else s
  }

  /** `s.trimEnd()` */
  function TrimEnd(s: string): (r: string)
    ensures |r| <= |s| && r == s[..|r|]
    ensures r != [] ==> !JsSpace(r[|r| - 1])
    ensures forall i :: |r| <= i < |s| ==> JsSpace(s[i])
  {
    if s != [] && JsSpace(s[|s| - 1]) then TrimEnd(s[..|s| - 1]) else s
  }

  /** `s.trim()` */
  function Trim(s: string): string
  {
    TrimEnd(TrimStart(s))
  }

  /** The value of `c` as a digit in base `radix` (2 to 36), if it is one. */
  function DigitValue(c: char, radix: nat): (d: Option<nat>)
    requires 2 <= radix <= 36
    ensures d.Some? ==> d.value < radix
  {
    var v := if '0' <= c <= '9' then c as int - '0' as int
             else if 'a' <= c <= 'z' then c as int - 'a' as int + 10
             else if 'A' <= c <= 'Z' then c as int - 'A' as int + 10
             else 36;
    if v < radix then Some(v) else None
  }

  predicate AllRadixDigits(s: string, radix: nat)
    requires 2 <= radix <= 36
  {
    forall i :: 0 <= i < |s| ==> DigitValue(s[i], radix).Some?
  }

  /** The length of the longest prefix of `s` made of base-`radix` digits. */
  function DigitRun(s: string, radix: nat): (k: nat)
    requires 2 <= radix <= 36
    ensures k <= |s| && AllRadixDigits(s[..k], radix)
    ensures k < |s| ==> DigitValue(s[k], radix).None?
  {
    if s == [] || DigitValue(s[0], radix).None? then 0
    else
      var k := 1 + DigitRun(s[1..], radix);
      assert s[..k] == [s[0]] + s[1..][..k - 1];
      k
  }

  /** The value of a string of base-`radix` digits. */
  function RadixValue(s: string, radix: nat): nat
    requires 2 <= radix <= 36 && AllRadixDigits(s, radix)
  {
    if s == [] then 0
    else
      assert AllRadixDigits(s[..|s| - 1], radix);
      RadixValue(s[..|s| - 1], radix) * radix + DigitValue(s[|s| - 1], radix).value
  }

  /** In base ten, the digits' value is the decimal value. */
  lemma {:induction false} RadixValueDecimal(s: string)
    requires AllDigits(s)
    ensures AllRadixDigits(s, 10) && RadixValue(s, 10) == DigitsValue(s)
  {
    assert AllRadixDigits(s, 10) by {
      forall i | 0 <= i < |s| ensures DigitValue(s[i], 10).Some? {
        assert IsDigit(s[i]);
      }
    }
    if s != [] {
      RadixValueDecimal(s[..|s| - 1]);
    }
  }

  // ---------------------------------------------------------------------------
  // parseInt

  /** The digits `parseInt` reads after the sign: a `0x` prefix switches to
      base sixteen; `None` when no digit follows. */
  function ParseUnsigned(u: string): (r: Option<nat>)
  {
    var hex := |u| >= 2 && u[0] == '0' && (u[1] == 'x' || u[1] == 'X');
    var radix := if hex then 16 else 10;
    var body := if hex then u[2..] else u;
    var k := DigitRun(body, radix);
    if k == 0 then None else Some(RadixValue(body[..k], radix))
  }

  /** `parseInt(s)` with no radix: leading white space skipped, an optional
      sign, then the digits; `None` (NaN) when there are none. */
  function ParseIntString(s: string): (r: Option<int>)
  {
    var t := TrimStart(s);
    var negative := t != [] && t[0] == '-';
    var u := if t != [] && (t[0] == '-' || t[0] == '+') then t[1..] else t;
    match ParseUnsigned(u)
    case None => None
    case Some(m) => var v: int := m; Some(if negative then -v else v)
  }

  /** `parseInt(v)`: the value converted to a string first. */
  function ParseInt(v: JsValue): Option<int>
  {
    ParseIntString(ToStr(v))
  }

  /** A string made only of digits is one run of digits. */
  lemma DigitRunAll(s: string, radix: nat)
    requires 2 <= radix <= 36 && AllRadixDigits(s, radix)
    ensures DigitRun(s, radix) == |s|
  {
  }

  /** A run of digits stops at the first character that is not one. */
  lemma {:induction false} DigitRunStops(d: string, rest: string, radix: nat)
    requires 2 <= radix <= 36 && AllRadixDigits(d, radix)
    requires rest == [] || DigitValue(rest[0], radix).None?
    ensures DigitRun(d + rest, radix) == |d|
  {
    if d != [] {
      assert (d + rest)[1..] == d[1..] + rest;
      DigitRunStops(d[1..], rest, radix);
    }
  }

  /** Without leading white space or a sign, `parseInt` reads the digits
      from the first character on. */
  lemma ParseIntUnsigned(s: string)
    requires s != [] && !JsSpace(s[0]) && s[0] != '-' && s[0] != '+'
    ensures ParseUnsigned(s).None? ==> ParseIntString(s).None?
    ensures ParseUnsigned(s).Some? ==> ParseIntString(s) == Some(ParseUnsigned(s).value)
  {
    assert TrimStart(s) == s;
  }

  /** A leading minus sign negates what follows. */
  lemma ParseIntNegative(s: string)
    requires s != [] && s[0] == '-'
    ensures ParseUnsigned(s[1..]).None? ==> ParseIntString(s).None?
    ensures ParseUnsigned(s[1..]).Some? ==> ParseIntString(s) == Some(-(ParseUnsigned(s[1..]).value as int))
  {
    assert TrimStart(s) == s by {
      assert !JsSpace(s[0]);
    }
  }

  /** Decimal digits are read up to the first character that is not one. */
  lemma ParseUnsignedDecimal(digits: string, rest: string)
    requires |digits| >= 1 && AllDigits(digits)
    requires rest == [] || DigitValue(rest[0], 10).None?
    requires |digits| == 1 && rest != [] ==> rest[0] != 'x' && rest[0] != 'X'
    ensures ParseUnsigned(digits + rest) == Some(DigitsValue(digits))
  {
    var u := digits + rest;
    RadixValueDecimal(digits);
    DigitRunStops(digits, rest, 10);
    assert u[..|digits|] == digits;
    assert !(|u| >= 2 && u[0] == '0' && (u[1] == 'x' || u[1] == 'X')) by {
      if |digits| > 1 {
        assert IsDigit(digits[1]);
      }
    }
  }

  /** `parseInt` reads decimal digits and ignores whatever follows the
      first character that is not a digit. */
  lemma ParseIntTrailing(digits: string, rest: string)
    requires |digits| >= 1 && AllDigits(digits)
    requires rest == [] || DigitValue(rest[0], 10).None?
    requires |digits| == 1 && rest != [] ==> rest[0] != 'x' && rest[0] != 'X'
    ensures ParseIntString(digits + rest) == Some(DigitsValue(digits))
  {
    ParseUnsignedDecimal(digits, rest);
    var u := digits + rest;
    assert u[0] == digits[0] && IsDigit(digits[0]);
    ParseIntUnsigned(u);
  }

  /** After `0x`, `parseInt` reads hexadecimal digits. */
  lemma ParseIntHex(h: string)
    requires |h| >= 1 && AllRadixDigits(h, 16)
    ensures ParseIntString("0x" + h) == Some(RadixValue(h, 16))
  {
    var u := "0x" + h;
    assert u[0] == '0' && u[1] == 'x' && u[2..] == h;
    assert ParseUnsigned(u) == Some(RadixValue(h, 16)) by {
      DigitRunStops(h, [], 16);
      assert h + [] == h && h[..|h|] == h;
    }
    ParseIntUnsigned(u);
  }

  /** The digits of a natural number read back as that number. */
  lemma ParseUnsignedOfNat(m: nat)
    ensures ParseUnsigned(NatToString(m)) == Some(m)
  {
    var digits := NatToString(m);
    ParseNatToString(m);
    assert digits + [] == digits;
    ParseUnsignedDecimal(digits, []);
  }

  /** `parseInt` gives an integer back from its own rendering. */
  lemma ParseIntOfNum(n: int)
    ensures ParseInt(Num(n)) == Some(n)
  {
    var s := IntToString(n);
    assert ToStr(Num(n)) == s;
    if n < 0 {
      ParseUnsignedOfNat(-n);
      assert s[0] == '-' && s[1..] == NatToString(-n);
      ParseIntNegative(s);
    } else {
      ParseUnsignedOfNat(n);
      assert s == NatToString(n) && IsDigit(s[0]);
      ParseIntUnsigned(s);
    }
  }

  // ---------------------------------------------------------------------------
  // Decimal literals, parseFloat and Number

  function Pow10(e: int): (p: real)
    ensures p > 0.0
    decreases if e < 0 then -e else e
  {
    if e == 0 then 1.0 else if e > 0 then 10.0 * Pow10(e - 1) else Pow10(e + 1) / 10.0
  }

  /** The longest prefix of `s` of the form `[eE][+-]?digits`: its length
      (zero when there is none) and its value. */
  function ExponentPart(s: string): (r: (nat, int))
    ensures r.0 <= |s|
  {
    if s == [] || (s[0] != 'e' && s[0] != 'E') then (0, 0)
    else
      var signed := |s| > 1 && (s[1] == '+' || s[1] == '-');
      var digits := if signed then s[2..] else s[1..];
      var k := DigitRun(digits, 10);
      if k == 0 then (0, 0)
      else
        var e: int := RadixValue(digits[..k], 10);
        ((if signed then 2 else 1) + k, if signed && s[1] == '-' then -e else e)
  }

  /** The longest prefix of `s` that is an unsigned decimal literal
      (`Infinity`, `12`, `12.`, `12.5`, `.5`, each with an optional
      exponent): its length (zero when there is none) and its value. */
  function UnsignedDecimal(s: string): (r: (nat, JsNumber))
    ensures r.0 <= |s|
    ensures r.0 > 0 ==> !r.1.NaN? && !r.1.NegInf?
  {
    if |s| >= 8 && s[..8] == "Infinity" then (8, PosInf)
    else
      var a := DigitRun(s, 10);
      var rest := s[a..];
      var dot := rest != [] && rest[0] == '.';
      var b := if dot then DigitRun(rest[1..], 10) else 0;
      if a == 0 && b == 0 then (0, NaN)
      else
        var mantissa := a + (if dot then 1 + b else 0);
        var fraction := if dot then RadixValue(rest[1..][..b], 10) as real / Pow10(b) else 0.0;
        var e := ExponentPart(s[mantissa..]);
        (mantissa + e.0, Finite((RadixValue(s[..a], 10) as real + fraction) * Pow10(e.1)))
  }

  function Negate(x: JsNumber): JsNumber
  {
    match x
    case Finite(r) => Finite(-r)
    case PosInf => NegInf
    case NegInf => PosInf
    case NaN => NaN
  }

  /** `parseFloat(s)`: leading white space skipped, an optional sign and the
      longest decimal literal after it; `NaN` when there is none. */
  function ParseFloatString(s: string): (x: JsNumber)
  {
    var t := TrimStart(s);
    var negative := t != [] && t[0] == '-';
    var u := if t != [] && (t[0] == '-' || t[0] == '+') then t[1..] else t;
    var d := UnsignedDecimal(u);
    if d.0 == 0 then NaN else if negative then Negate(d.1) else d.1
  }

  function ParseFloat(v: JsValue): JsNumber
  {
    ParseFloatString(ToStr(v))
  }

  /** A run of digits is a whole decimal literal. */
  lemma UnsignedDecimalOfDigits(digits: string)
    requires |digits| >= 1 && AllDigits(digits)
    ensures UnsignedDecimal(digits) == (|digits|, Finite(DigitsValue(digits) as real))
  {
    RadixValueDecimal(digits);
    DigitRunAll(digits, 10);
    assert digits[..|digits|] == digits && digits[|digits|..] == [];
    assert !(|digits| >= 8 && digits[..8] == "Infinity") by {
      if |digits| >= 8 {
        assert IsDigit(digits[0]);
        assert digits[..8][0] == digits[0];
      }
    }
  }

  /** Without leading white space or a sign, `parseFloat` reads the literal
      from the first character on. */
  lemma ParseFloatUnsigned(s: string)
    requires s != [] && !JsSpace(s[0]) && s[0] != '-' && s[0] != '+'
    ensures ParseFloatString(s) == if UnsignedDecimal(s).0 == 0 then NaN else UnsignedDecimal(s).1
  {
    assert TrimStart(s) == s;
  }

  /** A leading minus sign negates the literal after it. */
  lemma ParseFloatNegative(s: string)
    requires s != [] && s[0] == '-'
    ensures ParseFloatString(s) == if UnsignedDecimal(s[1..]).0 == 0 then NaN else Negate(UnsignedDecimal(s[1..]).1)
  {
    assert TrimStart(s) == s by {
      assert !JsSpace(s[0]);
    }
  }

  /** `parseFloat` reads an integer back from its own rendering. */
  lemma ParseFloatOfNum(n: int)
    ensures ParseFloat(Num(n)) == Finite(n as real)
  {
    var s := IntToString(n);
    assert ToStr(Num(n)) == s;
    if n < 0 {
      ParseNatToString(-n);
      UnsignedDecimalOfDigits(NatToString(-n));
      assert s[0] == '-' && s[1..] == NatToString(-n);
      ParseFloatNegative(s);
    } else {
      ParseNatToString(n);
      UnsignedDecimalOfDigits(NatToString(n));
      assert s == NatToString(n) && IsDigit(s[0]);
      ParseFloatUnsigned(s);
    }
  }

  /** `Number(s)` for a string: white space around it ignored, the empty
      string zero, a whole `0x`/`0o`/`0b` literal or a whole signed decimal
      literal its value, anything else `NaN`. */
  function StringToNumber(s: string): (x: JsNumber)
  {
    var t := Trim(s);
    if t == [] then Finite(0.0)
    else
      var radix := if |t| >= 2 && t[0] == '0' then
                     (if t[1] == 'x' || t[1] == 'X' then 16 else if t[1] == 'o' || t[1] == 'O' then 8
                      else if t[1] == 'b' || t[1] == 'B' then 2 else 10)
                   else 10;
      if radix != 10 then
        var body := t[2..];
        if body != [] && DigitRun(body, radix) == |body| then
          assert body[..|body|] == body;
          Finite(RadixValue(body, radix) as real)
        else NaN
      else
        var negative := t[0] == '-';
        var u := if t[0] == '-' || t[0] == '+' then t[1..] else t;
        var d := UnsignedDecimal(u);
        if d.0 == 0 || d.0 != |u| then NaN else if negative then Negate(d.1) else d.1
  }

  /** `Number(v)` for a primitive value. */
  function ToNumber(v: JsValue): JsNumber
  {
    match v
    case Undefined => NaN
    case Null => Finite(0.0)
    case Bool(b) => Finite(if b then 1.0 else 0.0)
    case Num(n) => Finite(n as real)
    case Str(s) => StringToNumber(s)
    case _ => StringToNumber(ToStr(v))
  }

  /** `x < y` on numbers; false whenever `NaN` is involved. */
  predicate NumLess(x: JsNumber, y: JsNumber)
  {
    match (x, y)
    case (Finite(a), Finite(b)) => a < b
    case (NegInf, Finite(_)) => true
    case (NegInf, PosInf) => true
    case (Finite(_), PosInf) => true
    case _ => false
  }

  /** `a < b` on strings: character by character, a proper prefix first.
      Characters are compared as code points; JavaScript compares UTF-16
      code units, which orders the same except for characters above
      U+FFFF against those in U+E000..U+FFFF. */
  predicate StrLess(a: string, b: string)
  {
    if a == [] then b != []
    else if b == [] then false
    else if a[0] != b[0] then a[0] < b[0]
    else StrLess(a[1..], b[1..])
  }

  /** `ToPrimitive(v)`: arrays and objects become their string form. */
  function ToPrimitive(v: JsValue): (p: JsValue)
    ensures !p.Arr? && !p.Obj?
  {
    if v.Arr? || v.Obj? then Str(ToStr(v)) else v
  }

  /** `a > b`: two strings compare as strings, anything else as numbers. */
  predicate Greater(a: JsValue, b: JsValue)
  {
    var pa, pb := ToPrimitive(a), ToPrimitive(b);
    if pa.Str? && pb.Str? then StrLess(pb.s, pa.s) else NumLess(ToNumber(pb), ToNumber(pa))
  }

  /** On two numbers `>` is the integers' order. */
  lemma GreaterNums(a: int, b: int)
    ensures Greater(Num(a), Num(b)) <==> a > b
  {
  }

  /** A string that will not parse never compares: `"abc" > 1` and
      `1 > "abc"` are both false. */
  lemma GreaterNaN(a: JsValue, b: JsValue)
    requires !ToPrimitive(a).Str? || !ToPrimitive(b).Str?
    requires ToNumber(ToPrimitive(a)).NaN? || ToNumber(ToPrimitive(b)).NaN?
    ensures !Greater(a, b) && !Greater(b, a)
  {
  }
}
