/** The configuration schema and the two hand-written value parsers of the
    configuration file: the `rrggbb` colour string and the keyboard
    `GridRange` mini-language (`n`, `:`, `x:y`, `x->y`, `x<-y`). Only the
    visitor bodies are modelled; the deserializer machinery around them is
    not. */
module Config {
  import opened Primitives
  import Frame

  // ---------------------------------------------------------------------
  // Integer parsing as `from_str_radix` does it

  /** `char::to_digit(radix)`: the value of an ASCII digit or letter, if it
      is a digit of that radix. */
  function DigitValue(c: char, radix: nat): (d: Option<nat>)
    requires 2 <= radix <= 36
    ensures d.Some? ==> d.value < radix
  {
    var v :=
      if '0' <= c <= '9' then (c as int) - ('0' as int)
      else if 'a' <= c <= 'z' then (c as int) - ('a' as int) + 10
      else if 'A' <= c <= 'Z' then (c as int) - ('A' as int) + 10
      else 36;
    if v < radix then Some(v) else None
  }

  /** The value of a non-empty run of digits, most significant first. */
  function DigitsValue(s: string, radix: nat): Option<nat>
    requires 2 <= radix <= 36
  {
    if s == [] then None
    else
      var last := DigitValue(s[|s| - 1], radix);
      if last.None? then None
      else if |s| == 1 then last
      else
        match DigitsValue(s[..|s| - 1], radix)
        case None => None
        case Some(high) => Some(high * radix + last.value)
  }

  /** `uN::from_str_radix(s, radix)` for an unsigned type whose values are
      below `bound`: an optional leading '+', then at least one digit, and a
      value that fits. A value grows with every digit, so the step-by-step
      overflow check rejects exactly the values at or above `bound`. */
  function ParseUnsigned(s: string, radix: nat, bound: nat): (r: Option<nat>)
    requires 2 <= radix <= 36
    ensures r.Some? ==> r.value < bound
  {
    var digits := if |s| > 0 && s[0] == '+' then s[1..] else s;
    match DigitsValue(digits, radix)
    case None => None
    case Some(v) => if v < bound then Some(v) else None
  }

  function ParseU8(s: string): (r: Option<uint8>)
  {
    match ParseUnsigned(s, 10, 0x100)
    case None => None
    case Some(v) => Some(v)
  }

  // ---------------------------------------------------------------------
  // Colours

  datatype Color = Color(rgb: Rgb)

  datatype ConfigError =
    | UnexpectedColorValue
    | InvalidDigit
    | OutOfRange(value: int)
    | InvalidGridRange

  /** Length in bytes of the UTF-8 encoding of `s` (`str::len`). */
  function Utf8Len(s: string): nat
  {
    if s == [] then 0
    else
      var c := s[0] as int;
      (if c < 0x80 then 1 else if c < 0x800 then 2 else if c < 0x1_0000 then 3 else 4)
        + Utf8Len(s[1..])
  }

  /** An ASCII string is one byte per character. */
  lemma {:induction false} Utf8LenAscii(s: string)
    requires forall i :: 0 <= i < |s| ==> (s[i] as int) < 0x80
    ensures Utf8Len(s) == |s|
  {
    if s != [] {
      assert forall i :: 0 <= i < |s| - 1 ==> s[1..][i] == s[i + 1];
      Utf8LenAscii(s[1..]);
    }
  }

  /** `ColorVisitor::visit_str`: six bytes read as one base-16 `u32`, whose
      bits 23..16, 15..8 and 7..0 are red, green and blue. */
  function VisitColorStr(v: string): (r: Result<Color, ConfigError>)
    ensures Utf8Len(v) != 6 ==> r == Err(UnexpectedColorValue)
    ensures Utf8Len(v) == 6 && ParseUnsigned(v, 16, TWO_32).None? ==> r == Err(InvalidDigit)
  {
    if Utf8Len(v) != 6 then Err(UnexpectedColorValue)
    else
      match ParseUnsigned(v, 16, TWO_32)
      case None => Err(InvalidDigit)
      case Some(rgb) =>
        Ok(Color(Rgb((rgb / 0x1_0000) % 0x100, (rgb / 0x100) % 0x100, rgb % 0x100)))
  }

  function HexChar(n: nat): (c: char)
    requires n < 16
    ensures DigitValue(c, 16) == Some(n)
    ensures (c as int) < 0x80
  {
    "0123456789abcdef"[n]
  }

  function HexPair(x: uint8): (s: string)
    ensures |s| == 2
  {
    [HexChar(x / 16), HexChar(x % 16)]
  }

  /** The colour written back as a lower-case `rrggbb` string. */
  function FormatColor(c: Color): (s: string)
    ensures |s| == 6
  {
    HexPair(c.rgb.r) + HexPair(c.rgb.g) + HexPair(c.rgb.b)
  }

  /** Appending a digit shifts the value one place and adds the digit. */
  lemma DigitsValueSnoc(s: string, c: char, radix: nat)
    requires 2 <= radix <= 36
    requires DigitsValue(s, radix).Some? && DigitValue(c, radix).Some?
    ensures DigitsValue(s + [c], radix) == Some(DigitsValue(s, radix).value * radix + DigitValue(c, radix).value)
  {
    assert (s + [c])[..|s|] == s;
  }

  /** Two hex digits appended to a digit string shift it one byte. */
  lemma HexPairSnoc(s: string, x: uint8)
    requires DigitsValue(s, 16).Some?
    ensures DigitsValue(s + HexPair(x), 16) == Some(DigitsValue(s, 16).value * 0x100 + x)
  {
    DigitsValueSnoc(s, HexChar(x / 16), 16);
    DigitsValueSnoc(s + [HexChar(x / 16)], HexChar(x % 16), 16);
    assert s + HexPair(x) == s + [HexChar(x / 16)] + [HexChar(x % 16)];
  }

  lemma ColorChannels(r: uint8, g: uint8, b: uint8)
    ensures var n: int := (r as int) * 0x1_0000 + (g as int) * 0x100 + b as int;
      (n / 0x1_0000) % 0x100 == r && (n / 0x100) % 0x100 == g && n % 0x100 == b
  {
    var n: int := (r as int) * 0x1_0000 + (g as int) * 0x100 + b as int;
    assert n / 0x100 == r * 0x100 + g;
    assert n / 0x1_0000 == r;
  }

  lemma ColorRoundTrip(c: Color)
    ensures VisitColorStr(FormatColor(c)) == Ok(c)
  {
    var r, g, b := c.rgb.r, c.rgb.g, c.rgb.b;
    var s2 := HexPair(r);
    var s4 := s2 + HexPair(g);
    var s := s4 + HexPair(b);
    assert s == FormatColor(c);
    assert forall i | 0 <= i < 6 :: (s[i] as int) < 0x80;
    Utf8LenAscii(s);
    assert DigitsValue([s2[0]], 16) == Some(r / 16);
    DigitsValueSnoc([s2[0]], s2[1], 16);
    assert [s2[0]] + [s2[1]] == s2;
    HexPairSnoc(s2, g);
    HexPairSnoc(s4, b);
    var n: int := (r as int) * 0x1_0000 + (g as int) * 0x100 + b as int;
    assert DigitsValue(s, 16) == Some(n);
    assert s[0] != '+';
    assert ParseUnsigned(s, 16, TWO_32) == Some(n);
    ColorChannels(r, g, b);
  }

  /** A six-byte string with a character that is neither a hex digit nor a
      leading '+' is rejected. */
  lemma {:induction false} DigitsValueRejects(s: string, radix: nat, i: nat)
    requires 2 <= radix <= 36
    requires i < |s| && DigitValue(s[i], radix).None?
    ensures DigitsValue(s, radix).None?
  {
    if i < |s| - 1 {
      DigitsValueRejects(s[..|s| - 1], radix, i);
    }
  }

  lemma ColorRejectsNonHex(v: string, i: nat)
    requires Utf8Len(v) == 6 && i < |v| && DigitValue(v[i], 16).None?
    requires i > 0 || v[0] != '+'
    ensures VisitColorStr(v) == Err(InvalidDigit)
  {
    if v[0] == '+' {
      assert v[1..][i - 1] == v[i];
      DigitsValueRejects(v[1..], 16, i - 1);
    } else {
      DigitsValueRejects(v, 16, i);
    }
  }

  // ---------------------------------------------------------------------
  // Keyboard grid ranges

  /** `RangeInclusive<u8>`: `start..=end`. */
  datatype Span = Span(start: uint8, end: uint8)

  datatype GridRange = Range(span: Span) | Direction(span: Span) | All

  /** `GridRangeVisitor::visit_i64`. */
  function VisitI64(v: int64): (r: Result<GridRange, ConfigError>)
    ensures r.Ok? <==> 0 <= v < Frame.MAX_COLUMN
    ensures r.Ok? ==> r.value.Range? && r.value.span.start == r.value.span.end == v
    ensures r.Err? ==> r.error == OutOfRange(v)
  {
    if !(0 <= v < Frame.MAX_COLUMN) then Err(OutOfRange(v)) else Ok(Range(Span(v, v)))
  }

  /** `GridRangeVisitor::visit_u64`. */
  function VisitU64(v: uint64): (r: Result<GridRange, ConfigError>)
    ensures r.Ok? <==> v < Frame.MAX_COLUMN
    ensures r.Ok? ==> r.value.Range? && r.value.span.start == r.value.span.end == v
    ensures r.Err? ==> r.error == OutOfRange(v)
  {
    if !(0 <= v < Frame.MAX_COLUMN) then Err(OutOfRange(v)) else Ok(Range(Span(v, v)))
  }

  /** `char::is_numeric`, restricted to ASCII digits. No accepted string
      changes: a non-ASCII numeric character can only end up inside a side,
      where the u8 parse rejects it. */
  predicate IsNumeric(c: char) { '0' <= c <= '9' }

  predicate AllNumeric(s: string) { forall i :: 0 <= i < |s| ==> IsNumeric(s[i]) }

  /** Length of the numeric prefix that `skip_while(is_numeric)` passes. */
  function NumericPrefix(v: string): (n: nat)
    ensures n <= |v| && AllNumeric(v[..n])
    ensures n < |v| ==> !IsNumeric(v[n])
  {
    if v == [] || !IsNumeric(v[0]) then 0
    else
      var n := 1 + NumericPrefix(v[1..]);
      assert forall i | 1 <= i < n :: v[..n][i] == v[1..][..n - 1][i - 1];
      n
  }

  datatype Separator = Colon | LeftArrow | RightArrow

  function SidesToRange(left: string, right: string, sep: Separator): Option<GridRange>
  {
    match (ParseU8(left), ParseU8(right))
    case (Some(l), Some(r)) =>
      Some(match sep
        case Colon => Range(if l < r then Span(l, r) else Span(r, l))
        case LeftArrow => Direction(Span(r, l))
        case RightArrow => Direction(Span(l, r)))
    case _ => None
  }

  /** The grid-range string read as the visitor reads it: the numeric
      prefix, then a separator, then the right side; a string that is all
      numeric is a single index. */
  function GridStr(v: string): (r: Result<GridRange, ConfigError>)
  {
    if v == ":" then Ok(All)
    else
      var i := NumericPrefix(v);
      var parsed :=
        if i == |v| then
          (match ParseU8(v) case Some(n) => Some(Range(Span(n, n))) case None => None)
        else if v[i] == ':' then SidesToRange(v[..i], v[i + 1..], Colon)
        else if v[i] == '-' then
          if i + 1 < |v| && v[i + 1] == '>' then SidesToRange(v[..i], v[i + 2..], RightArrow) else None
        else if v[i] == '<' then
          if i + 1 < |v| && v[i + 1] == '-' then SidesToRange(v[..i], v[i + 2..], LeftArrow) else None
        else None;
      match parsed
      case Some(g) => Ok(g)
      case None => Err(InvalidGridRange)
  }

  /** `GridRangeVisitor::visit_str`, scanning the characters one at a time
      as the `chars` iterator does, with the same early returns. */
  method VisitGridStr(v: string) returns (r: Result<GridRange, ConfigError>)
    ensures r == GridStr(v)
  {
    if v == ":" {
      return Ok(All);
    }
    var i := 0;
    while i < |v| && IsNumeric(v[i])
      invariant 0 <= i <= |v|
      invariant AllNumeric(v[..i])
    {
      i := i + 1;
    }
    assert i == NumericPrefix(v);
    var parsed: Option<GridRange>;
    if i == |v| {
      var n := ParseU8(v);
      parsed := if n.Some? then Some(Range(Span(n.value, n.value))) else None;
    } else {
      var c := v[i];
      var j: nat, sep: Separator;
      if c == ':' {
        j, sep := i + 1, Colon;
      } else if c == '-' {
        if i + 1 < |v| && v[i + 1] == '>' {
          j, sep := i + 2, RightArrow;
        } else {
          return Err(InvalidGridRange);
        }
      } else if c == '<' {
        if i + 1 < |v| && v[i + 1] == '-' {
          j, sep := i + 2, LeftArrow;
        } else {
          return Err(InvalidGridRange);
        }
      } else {
        return Err(InvalidGridRange);
      }
      parsed := SidesToRange(v[..i], v[j..], sep);
    }
    r := if parsed.Some? then Ok(parsed.value) else Err(InvalidGridRange);
  }

  // ---------------------------------------------------------------------
  // What the grid-range language accepts

  lemma NumericPrefixOfJoin(l: string, rest: string)
    requires AllNumeric(l) && rest != [] && !IsNumeric(rest[0])
    ensures NumericPrefix(l + rest) == |l|
    ensures (l + rest)[..|l|] == l
  {
    var v := l + rest;
    assert v[..|l|] == l;
  }

  /** `"x:y"` is the range from the smaller to the larger side, in either order. */
  lemma GridColon(l: string, rt: string)
    requires AllNumeric(l) && l != []
    ensures GridStr(l + ":" + rt) ==
      if ParseU8(l).Some? && ParseU8(rt).Some? then
        Ok(Range(Span(Min(ParseU8(l).value, ParseU8(rt).value), Max(ParseU8(l).value, ParseU8(rt).value))))
      else Err(InvalidGridRange)
  {
    var v := l + ":" + rt;
    assert v == l + (":" + rt);
    NumericPrefixOfJoin(l, ":" + rt);
    assert v[|l| + 1..] == rt;
  }

  /** `"x->y"` is the direction from x to y. */
  lemma GridRightArrow(l: string, rt: string)
    requires AllNumeric(l)
    ensures GridStr(l + "->" + rt) ==
      if ParseU8(l).Some? && ParseU8(rt).Some? then
        Ok(Direction(Span(ParseU8(l).value, ParseU8(rt).value)))
      else Err(InvalidGridRange)
  {
    var v := l + "->" + rt;
    assert v == l + ("->" + rt);
    NumericPrefixOfJoin(l, "->" + rt);
    assert v[|l| + 2..] == rt;
  }

  /** `"x<-y"` is the direction from y to x: the start is the arrow's tail. */
  lemma GridLeftArrow(l: string, rt: string)
    requires AllNumeric(l)
    ensures GridStr(l + "<-" + rt) ==
      if ParseU8(l).Some? && ParseU8(rt).Some? then
        Ok(Direction(Span(ParseU8(rt).value, ParseU8(l).value)))
      else Err(InvalidGridRange)
  {
    var v := l + "<-" + rt;
    assert v == l + ("<-" + rt);
    NumericPrefixOfJoin(l, "<-" + rt);
    assert v[|l| + 2..] == rt;
  }

  /** A bare number is a one-cell range for every u8, with no MAX_COLUMN
      check (unlike an integer value in the file). */
  lemma GridSingle(v: string)
    requires AllNumeric(v) && v != []
    ensures GridStr(v) == if ParseU8(v).Some? then Ok(Range(Span(ParseU8(v).value, ParseU8(v).value)))
                          else Err(InvalidGridRange)
  {
    assert v != ":";
  }

  /** Every separator other than ':', "->" and "<-" is rejected, as is a
      string whose left side is empty. */
  lemma GridRejects(v: string)
    ensures var i := NumericPrefix(v);
      i < |v| && v[i] != ':' && v[i] != '-' && v[i] != '<' ==> GridStr(v) == Err(InvalidGridRange)
    ensures var i := NumericPrefix(v);
      i < |v| && v[i] == '-' && (i + 1 == |v| || v[i + 1] != '>') ==> GridStr(v) == Err(InvalidGridRange)
    ensures var i := NumericPrefix(v);
      i < |v| && v[i] == '<' && (i + 1 == |v| || v[i + 1] != '-') ==> GridStr(v) == Err(InvalidGridRange)
    ensures v != ":" && NumericPrefix(v) == 0 ==> GridStr(v) == Err(InvalidGridRange)
  {
    if v != ":" && NumericPrefix(v) == 0 {
      assert ParseU8(v[..0]).None?;
      if v == [] {
        assert ParseU8(v).None?;
      }
    }
  }

  // ---------------------------------------------------------------------
  // The configuration schema

  datatype Input = Input(property: string, maxValue: Option<real>, autoRaise: bool)

  datatype Keyboard = Keyboard(column: GridRange, row: GridRange)

  datatype EffectType = Meter(fill: bool)

  datatype Output = Output(color: string, keyboard: Option<Keyboard>, effectType: EffectType)

  datatype NumKeysSelector = Pad | Row

  datatype PositionEffectData = PositionEffectData(numkeys: NumKeysSelector)

  datatype PredefinedEffectData = Position(position: PositionEffectData)

  datatype EffectData =
    | Custom(input: Input, output: Output)
    | Predefined(data: PredefinedEffectData)

  datatype Effect = Effect(altitude: int32, data: EffectData)

  datatype ConfigFile = ConfigFile(colors: map<string, Color>, effect: seq<Effect>)
}
