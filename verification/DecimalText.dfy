/** parseDecimal and formatDecimalParts of src/shared/decimal/decimal.js.
    The regular expression is described twice: as a matcher that reads a text
    from left to right, and as the set of texts a Spelling can produce. */
module DecimalText {
  import opened Common
  import opened Decimal
  import opened DecimalDivision

  // ---- digits --------------------------------------------------------------

  predicate IsDigit(c: char) { '0' <= c <= '9' }

  predicate AllDigits(s: string) { forall i :: 0 <= i < |s| ==> IsDigit(s[i]) }

  function DigitsValue(s: string): (n: nat)
    requires AllDigits(s)
  {
    if s == [] then 0 else 10 * DigitsValue(s[..|s| - 1]) + (s[|s| - 1] as int - '0' as int)
  }

  /** BigInt's decimal digits. */
  function DigitsOf(n: nat): (s: string)
    ensures AllDigits(s) && |s| >= 1
  {
    if n < 10 then [('0' as int + n) as char] else DigitsOf(n / 10) + [('0' as int + n % 10) as char]
  }

  lemma {:induction false} DigitsOfValue(n: nat)
    ensures DigitsValue(DigitsOf(n)) == n
    ensures |DigitsOf(n)| > 1 ==> DigitsOf(n)[0] != '0'
    ensures n > 0 ==> DigitsOf(n)[0] != '0'
  {
    var s := DigitsOf(n);
    if n < 10 {
      assert s[..0] == [];
      assert DigitsValue(s) == 10 * DigitsValue(s[..0]) + (s[0] as int - '0' as int);
    } else {
      DigitsOfValue(n / 10);
      assert s[..|s| - 1] == DigitsOf(n / 10);
    }
  }

  function Zeros(k: nat): (s: string)
    ensures |s| == k && AllDigits(s)
  {
    seq(k, _ => '0')
  }

  lemma {:induction false} LeadingZeros(k: nat, s: string)
    requires AllDigits(s)
    ensures AllDigits(Zeros(k) + s) && DigitsValue(Zeros(k) + s) == DigitsValue(s)
    decreases |s|, k
  {
    var t := Zeros(k) + s;
    if s != [] {
      LeadingZeros(k, s[..|s| - 1]);
      assert t[..|t| - 1] == Zeros(k) + s[..|s| - 1];
    } else if k > 0 {
      LeadingZeros(k - 1, s);
      assert t[..k - 1] == Zeros(k - 1) + s;
    } else {
      assert t == s;
    }
  }

  /** replace(/^0+(?=\d)/, ''): leading zeros go as long as a digit follows. */
  function StripLeadingZeros(s: string): (r: string)
    requires AllDigits(s)
    ensures AllDigits(r) && |r| <= |s| && (s != [] ==> r != [])
  {
    if |s| >= 2 && s[0] == '0' then StripLeadingZeros(s[1..]) else s
  }

  lemma {:induction false} StripKeepsValue(s: string)
    requires AllDigits(s)
    ensures DigitsValue(StripLeadingZeros(s)) == DigitsValue(s)
  {
    if |s| >= 2 && s[0] == '0' {
      StripKeepsValue(s[1..]);
      LeadingZeros(1, s[1..]);
      assert s == Zeros(1) + s[1..];
    }
  }

  // ---- spellings -----------------------------------------------------------

  datatype Sign = NoSign | Plus | Minus

  datatype Exponent = Exponent(marker: char, sign: Sign, digits: string)

  datatype Spelling = Spelling(sign: Sign, integer: string, fraction: Option<string>, exponent: Option<Exponent>)

  predicate WellFormed(sp: Spelling) {
    && sp.integer != [] && AllDigits(sp.integer)
    && (sp.fraction.Some? ==> AllDigits(sp.fraction.value))
    && (sp.exponent.Some? ==>
          && (sp.exponent.value.marker == 'e' || sp.exponent.value.marker == 'E')
          && sp.exponent.value.digits != [] && AllDigits(sp.exponent.value.digits))
  }

  function SpellSign(sign: Sign): string {
    match sign
    case NoSign => ""
    case Plus => "+"
    case Minus => "-"
  }

  function SpellExponent(e: Option<Exponent>): string {
    match e
    case None => ""
    case Some(x) => [x.marker] + (SpellSign(x.sign) + x.digits)
  }

  function SpellFraction(f: Option<string>): string {
    match f
    case None => ""
    case Some(digits) => "." + digits
  }

  /** Every text the regular expression accepts, and nothing else. */
  function Spell(sp: Spelling): string {
    SpellSign(sp.sign) + (sp.integer + (SpellFraction(sp.fraction) + SpellExponent(sp.exponent)))
  }

  // ---- the matcher ---------------------------------------------------------

  function TakeSign(s: string): (r: (Sign, string)) {
    if s != [] && s[0] == '+' then (Plus, s[1..])
    else if s != [] && s[0] == '-' then (Minus, s[1..])
    else (NoSign, s)
  }

  function TakeDigits(s: string): (r: (string, string))
    ensures r.0 + r.1 == s && AllDigits(r.0)
    ensures r.1 == [] || !IsDigit(r.1[0])
  {
    if s != [] && IsDigit(s[0]) then
      var (digits, rest) := TakeDigits(s[1..]);
      ([s[0]] + digits, rest)
    else ([], s)
  }

  function MatchExponent(s: string): (r: Option<Option<Exponent>>) {
    if s == [] then Some(None)
    else if s[0] != 'e' && s[0] != 'E' then None
    else
      var (sign, afterSign) := TakeSign(s[1..]);
      var (digits, rest) := TakeDigits(afterSign);
      if digits == [] || rest != [] then None else Some(Some(Exponent(s[0], sign, digits)))
  }

  function Match(s: string): (r: Option<Spelling>) {
    var (sign, afterSign) := TakeSign(s);
    var (integer, afterInteger) := TakeDigits(afterSign);
    if integer == [] then None
    else
      var dotted := afterInteger != [] && afterInteger[0] == '.';
      var (fraction, rest) := if dotted then TakeDigits(afterInteger[1..]) else ([], afterInteger);
      match MatchExponent(rest)
      case None => None
      case Some(e) => Some(Spelling(sign, integer, if dotted then Some(fraction) else None, e))
  }

  lemma {:induction false} TakeDigitsOf(d: string, rest: string)
    requires AllDigits(d) && (rest == [] || !IsDigit(rest[0]))
    ensures TakeDigits(d + rest) == (d, rest)
  {
    var s := d + rest;
    if d == [] {
      assert s == rest;
    } else {
      TakeDigitsOf(d[1..], rest);
      assert s[1..] == d[1..] + rest && s[0] == d[0];
      assert d == [d[0]] + d[1..];
    }
  }

  lemma TakeSignOf(sign: Sign, rest: string)
    requires rest != [] && IsDigit(rest[0])
    ensures TakeSign(SpellSign(sign) + rest) == (sign, rest)
  {
    var s := SpellSign(sign) + rest;
    if sign == NoSign {
      assert s == rest;
    } else {
      assert s[1..] == rest;
    }
  }

  lemma MatchExponentSpelled(e: Option<Exponent>)
    requires e.Some? ==>
      && (e.value.marker == 'e' || e.value.marker == 'E')
      && e.value.digits != [] && AllDigits(e.value.digits)
    ensures MatchExponent(SpellExponent(e)) == Some(e)
  {
    if e.Some? {
      var s := SpellExponent(e);
      assert s[1..] == SpellSign(e.value.sign) + e.value.digits;
      TakeSignOf(e.value.sign, e.value.digits);
      TakeDigitsOf(e.value.digits, []);
      assert e.value.digits + [] == e.value.digits;
    }
  }

  /** Reading back a spelling finds exactly that spelling: the grammar is
      unambiguous and the greedy matcher never needs to back up. */
  lemma MatchSpelled(sp: Spelling)
    requires WellFormed(sp)
    ensures Match(Spell(sp)) == Some(sp)
  {
    hide TakeSign, TakeDigits, MatchExponent, SpellSign;
    var tail := SpellFraction(sp.fraction) + SpellExponent(sp.exponent);
    assert tail != [] ==> !IsDigit(tail[0]);
    TakeSignOf(sp.sign, sp.integer + tail);
    TakeDigitsOf(sp.integer, tail);
    MatchExponentSpelled(sp.exponent);
    if sp.fraction.Some? {
      assert tail[1..] == sp.fraction.value + SpellExponent(sp.exponent);
      TakeDigitsOf(sp.fraction.value, SpellExponent(sp.exponent));
    } else {
      assert tail == SpellExponent(sp.exponent);
    }
  }

  lemma MatchExponentSound(s: string)
    ensures MatchExponent(s).Some? ==> SpellExponent(MatchExponent(s).value) == s
  {
    if MatchExponent(s).Some? && s != [] {
      var (sign, afterSign) := TakeSign(s[1..]);
      assert s[1..] == SpellSign(sign) + afterSign;
      assert s == [s[0]] + s[1..];
    }
  }

  lemma MatchExponentForm(s: string)
    ensures MatchExponent(s).Some? && MatchExponent(s).value.Some? ==>
      var e := MatchExponent(s).value.value;
      (e.marker == 'e' || e.marker == 'E') && e.digits != [] && AllDigits(e.digits)
  {
  }

  lemma MatchSound(s: string)
    ensures Match(s).Some? ==> WellFormed(Match(s).value) && Spell(Match(s).value) == s
  {
    hide TakeSign, TakeDigits, MatchExponent, SpellSign, SpellExponent;
    if Match(s).Some? {
      var (sign, afterSign) := TakeSign(s);
      TakeSignSound(s);
      var (integer, afterInteger) := TakeDigits(afterSign);
      var dotted := afterInteger != [] && afterInteger[0] == '.';
      var (fraction, rest) := if dotted then TakeDigits(afterInteger[1..]) else ([], afterInteger);
      MatchExponentSound(rest);
      MatchExponentForm(rest);
      var sp := Match(s).value;
      assert afterInteger == SpellFraction(sp.fraction) + SpellExponent(sp.exponent) by {
        if dotted {
          assert afterInteger == ['.'] + afterInteger[1..];
        }
      }
    }
  }

  lemma TakeSignSound(s: string)
    ensures s == SpellSign(TakeSign(s).0) + TakeSign(s).1
  {
  }

  // ---- meaning -------------------------------------------------------------

  function Signed(sign: Sign, n: int): int { if sign == Minus then -n else n }

  function ExponentOf(sp: Spelling): int
    requires WellFormed(sp)
  {
    match sp.exponent
    case None => 0
    case Some(e) => Signed(e.sign, DigitsValue(e.digits))
  }

  function FractionDigits(sp: Spelling): string { if sp.fraction.Some? then sp.fraction.value else "" }

  function TenTo(k: int): (x: real) { if k >= 0 then PowReal(k) else 1.0 / PowReal(-k) }

  /** What a spelling denotes: its digits, shifted by exponent and point. */
  function Denotes(sp: Spelling): real
    requires WellFormed(sp)
  {
    Signed(sp.sign, DigitsValue(sp.integer + FractionDigits(sp))) as real * TenTo(ExponentOf(sp) - |FractionDigits(sp)|)
  }

  function Interpret(sp: Spelling): (r: Result<Parts, DecimalError>)
    requires WellFormed(sp)
  {
    var exponent := ExponentOf(sp);
    if exponent > MAX_POW10 || exponent < -MAX_POW10 then Err(ExponentOutOfRange)
    else
      var coefficient := Signed(sp.sign, DigitsValue(StripLeadingZeros(sp.integer + FractionDigits(sp))));
      var scale := |FractionDigits(sp)| - exponent;
      if scale < 0 then Ok(Normalize(Parts(coefficient * Pow10(-scale), 0)))
      else Ok(Normalize(Parts(coefficient, scale)))
  }

  lemma InterpretDenotes(sp: Spelling)
    requires WellFormed(sp)
    ensures Interpret(sp).Ok? <==> -MAX_POW10 <= ExponentOf(sp) <= MAX_POW10
    ensures Interpret(sp).Ok? ==> Canonical(Interpret(sp).value) && Value(Interpret(sp).value) == Denotes(sp)
  {
    hide Value, Pow10, PowReal, TenTo, DigitsValue, StripLeadingZeros, Normalize;
    var digits := sp.integer + FractionDigits(sp);
    StripKeepsValue(digits);
    var c := Signed(sp.sign, DigitsValue(digits));
    var scale := |FractionDigits(sp)| - ExponentOf(sp);
    Shifted(c, scale);
    NormalizeKeepsValue(if scale < 0 then Parts(c * Pow10(-scale), 0) else Parts(c, scale));
  }

  lemma Shifted(c: int, scale: int)
    ensures scale < 0 ==> Value(Parts(c * Pow10(-scale), 0)) == c as real * TenTo(-scale)
    ensures scale >= 0 ==> Value(Parts(c, scale)) == c as real * TenTo(-scale)
  {
    if scale < 0 {
      ProductAsReal(c, Pow10(-scale));
      assert PowReal(0) == 1.0;
    } else if scale == 0 {
      assert PowReal(0) == 1.0;
    } else {
      TimesReciprocal(c as real, PowReal(scale));
    }
  }

  lemma TimesReciprocal(c: real, p: real)
    requires p > 0.0
    ensures c * (1.0 / p) == c / p
  {
    assert (1.0 / p) * p == 1.0;
    assert (c * (1.0 / p)) * p == c * ((1.0 / p) * p);
    DivIs(c, p, c * (1.0 / p));
  }

  // ---- parsing -------------------------------------------------------------

  predicate IsSpace(c: char) {
    || '\t' <= c <= '\r' || c == ' ' || c == '\U{A0}' || c == '\U{1680}' || '\U{2000}' <= c <= '\U{200A}'
    || c == '\U{2028}' || c == '\U{2029}' || c == '\U{202F}' || c == '\U{205F}' || c == '\U{3000}' || c == '\U{FEFF}'
  }

  predicate AllSpaces(s: string) { forall i :: 0 <= i < |s| ==> IsSpace(s[i]) }

  function TrimStart(s: string): string { if s != [] && IsSpace(s[0]) then TrimStart(s[1..]) else s }

  function TrimEnd(s: string): string { if s != [] && IsSpace(s[|s| - 1]) then TrimEnd(s[..|s| - 1]) else s }

  function ParseDecimal(text: string): (r: Result<Parts, DecimalError>) {
    match Match(TrimEnd(TrimStart(text)))
    case None => Err(InvalidText)
    case Some(sp) => MatchSound(TrimEnd(TrimStart(text))); Interpret(sp)
  }

  lemma {:induction false} TrimStartOf(pad: string, s: string)
    requires AllSpaces(pad) && s != [] && !IsSpace(s[0])
    ensures TrimStart(pad + s) == s
  {
    if pad == [] {
      assert pad + s == s;
    } else {
      TrimStartOf(pad[1..], s);
      assert (pad + s)[1..] == pad[1..] + s;
    }
  }

  lemma {:induction false} TrimEndOf(s: string, pad: string)
    requires AllSpaces(pad) && s != [] && !IsSpace(s[|s| - 1])
    ensures TrimEnd(s + pad) == s
  {
    var t := s + pad;
    if pad == [] {
      assert t == s;
    } else {
      TrimEndOf(s, pad[..|pad| - 1]);
      assert t[..|t| - 1] == s + pad[..|pad| - 1];
    }
  }

  lemma SpelledEnds(sp: Spelling)
    requires WellFormed(sp)
    ensures Spell(sp) != [] && !IsSpace(Spell(sp)[0]) && !IsSpace(Spell(sp)[|Spell(sp)| - 1])
  {
    var s := Spell(sp);
    var tail := SpellFraction(sp.fraction) + SpellExponent(sp.exponent);
    assert s == SpellSign(sp.sign) + (sp.integer + tail);
    if tail == [] {
      assert s[|s| - 1] == sp.integer[|sp.integer| - 1];
    } else {
      assert s[|s| - 1] == tail[|tail| - 1];
    }
  }

  /** parseDecimal accepts a text exactly when, spaces aside, it is a spelling
      whose exponent is within range, and then it means what it denotes. */
  lemma ParseSpelled(before: string, sp: Spelling, after: string)
    requires WellFormed(sp) && AllSpaces(before) && AllSpaces(after)
    ensures ParseDecimal(before + (Spell(sp) + after)) == Interpret(sp)
    ensures Interpret(sp).Ok? ==> Value(Interpret(sp).value) == Denotes(sp)
  {
    SpelledEnds(sp);
    var s := Spell(sp);
    assert (s + after)[0] == s[0];
    TrimStartOf(before, s + after);
    TrimEndOf(s, after);
    MatchSpelled(sp);
    InterpretDenotes(sp);
  }

  lemma ParsedIsSpelling(text: string)
    ensures ParseDecimal(text).Ok? ==>
      exists sp :: WellFormed(sp) && Spell(sp) == TrimEnd(TrimStart(text)) && Interpret(sp) == ParseDecimal(text)
    ensures ParseDecimal(text).Ok? ==> Canonical(ParseDecimal(text).value)
  {
    if ParseDecimal(text).Ok? {
      var trimmed := TrimEnd(TrimStart(text));
      MatchSound(trimmed);
      InterpretDenotes(Match(trimmed).value);
    }
  }

  // ---- printing ------------------------------------------------------------

  function Padded(digits: string, scale: nat): (s: string)
    requires digits != [] && AllDigits(digits)
    ensures |s| > scale && AllDigits(s)
  {
    if |digits| <= scale then Zeros(scale - |digits| + 1) + digits else digits
  }

  function Format(p: Parts): (s: string) {
    var n := Normalize(p);
    var sign := if n.coefficient < 0 then "-" else "";
    var digits := DigitsOf(Magnitude(n.coefficient));
    if n.scale == 0 then sign + digits
    else
      var padded := Padded(digits, n.scale);
      var split := |padded| - n.scale;
      sign + padded[..split] + "." + padded[split..]
  }

  function Printed(p: Parts): (sp: Spelling)
    ensures WellFormed(sp)
  {
    var n := Normalize(p);
    var padded := Padded(DigitsOf(Magnitude(n.coefficient)), n.scale);
    var split := |padded| - n.scale;
    Spelling(if n.coefficient < 0 then Minus else NoSign, padded[..split],
             if n.scale == 0 then None else Some(padded[split..]), None)
  }

  lemma FormatSpells(p: Parts)
    ensures Format(p) == Spell(Printed(p))
  {
    var n := Normalize(p);
    var digits := DigitsOf(Magnitude(n.coefficient));
    var padded := Padded(digits, n.scale);
    if n.scale == 0 {
      assert padded[..|padded|] == digits;
    }
  }

  /** Parsing what was printed gives back the normal form of what was printed. */
  lemma FormatParseRoundTrip(p: Parts)
    ensures ParseDecimal(Format(p)) == Ok(Normalize(p))
  {
    hide *;
    var sp := Printed(p);
    FormatSpells(p);
    ParseSpelled("", sp, "");
    assert "" + (Spell(sp) + "") == Spell(sp);
    PrintedMeans(p);
  }

  lemma PrintedMeans(p: Parts)
    ensures AllSpaces("")
    ensures Interpret(Printed(p)) == Ok(Normalize(p))
  {
    hide Normalize, DigitsOf, Pow10, DigitsValue, StripLeadingZeros;
    var sp, n := Printed(p), Normalize(p);
    var digits := DigitsOf(Magnitude(n.coefficient));
    var padded := Padded(digits, n.scale);
    assert sp.integer + FractionDigits(sp) == padded;
    PaddedValue(Magnitude(n.coefficient), n.scale);
    StripKeepsValue(padded);
    NormalizeIdempotent(n);
  }

  lemma PaddedValue(m: nat, scale: nat)
    ensures DigitsValue(Padded(DigitsOf(m), scale)) == m
  {
    var digits := DigitsOf(m);
    DigitsOfValue(m);
    if |digits| <= scale {
      LeadingZeros(scale - |digits| + 1, digits);
    }
  }

  lemma NormalizeIdempotent(p: Parts)
    requires Canonical(p)
    ensures Normalize(p) == p
  {
  }

  // ---- texts as numbers ----------------------------------------------------

  function NormalizeDecimal(text: string): (r: Result<string, DecimalError>) {
    var p :- ParseDecimal(text);
    Ok(Format(p))
  }

  /** Two texts normalise to the same text exactly when they are numerically equal. */
  lemma SameTextIffEqual(s: string, t: string)
    requires ParseDecimal(s).Ok? && ParseDecimal(t).Ok?
    ensures NormalizeDecimal(s) == NormalizeDecimal(t) <==> Value(ParseDecimal(s).value) == Value(ParseDecimal(t).value)
  {
    var p, q := ParseDecimal(s).value, ParseDecimal(t).value;
    ParsedIsSpelling(s);
    ParsedIsSpelling(t);
    FormatParseRoundTrip(p);
    FormatParseRoundTrip(q);
    NormalizeIdempotent(p);
    NormalizeIdempotent(q);
    if Value(p) == Value(q) {
      CanonicalUnique(p, q);
    }
  }

  /** Normalising is idempotent and loses nothing. */
  lemma NormalizeDecimalStable(s: string)
    requires NormalizeDecimal(s).Ok?
    ensures NormalizeDecimal(NormalizeDecimal(s).value) == NormalizeDecimal(s)
    ensures ParseDecimal(NormalizeDecimal(s).value) == ParseDecimal(s)
  {
    ParsedIsSpelling(s);
    var p := ParseDecimal(s).value;
    FormatParseRoundTrip(p);
    NormalizeIdempotent(p);
  }

  datatype Operation = ADD | SUBTRACT | MULTIPLY | DIVIDE(scale: int, rounding: Rounding)

  /** addDecimal, subtractDecimal, multiplyDecimal and divideDecimal on texts.
      divideDecimal checks its scale before it reads its operands. */
  function Apply(op: Operation, left: string, right: string): (r: Result<string, DecimalError>) {
    if op.DIVIDE? && (op.scale < 0 || op.scale > MAX_DIVISION_SCALE) then Err(InvalidScale)
    else
      var a :- ParseDecimal(left);
      var b :- ParseDecimal(right);
      var z :- match op
        case ADD => Add(a, b)
        case SUBTRACT => Subtract(a, b)
        case MULTIPLY => Ok(Multiply(a, b))
        case DIVIDE(scale, rounding) => Divide(a, b, scale, rounding);
      Ok(Format(z))
  }

  ghost predicate Means(text: string, x: real) {
    ParseDecimal(text).Ok? && Value(ParseDecimal(text).value) == x
  }

  /** The text an operation answers is the normal text of the exact result:
      the true sum, difference or product, or the rounded true quotient. */
  lemma ApplyExact(op: Operation, left: string, right: string, x: real, y: real)
    requires Means(left, x) && Means(right, y)
    requires Apply(op, left, right).Ok?
    ensures op.DIVIDE? ==> y != 0.0 && 0 <= op.scale
    ensures Means(Apply(op, left, right).value,
      match op
      case ADD => x + y
      case SUBTRACT => x - y
      case MULTIPLY => x * y
      case DIVIDE(scale, rounding) => RoundAt(x / y, scale, rounding))
    ensures NormalizeDecimal(Apply(op, left, right).value) == Apply(op, left, right)
  {
    hide Value, RoundAt, Format, ParseDecimal, Add, Subtract, Multiply, Divide, Normalize;
    var a, b := ParseDecimal(left).value, ParseDecimal(right).value;
    var z := match op
      case ADD => Add(a, b).value
      case SUBTRACT => Subtract(a, b).value
      case MULTIPLY => Multiply(a, b)
      case DIVIDE(scale, rounding) => Divide(a, b, scale, rounding).value;
    assert Apply(op, left, right) == Ok(Format(z));
    match op {
      case ADD => AddExact(a, b);
      case SUBTRACT => SubtractExact(a, b);
      case MULTIPLY => MultiplyExact(a, b);
      case DIVIDE(scale, rounding) => DivideExact(a, b, scale, rounding);
    }
    FormatParseRoundTrip(z);
    NormalizeIdempotent(z);
  }

  /** An input that is read but cannot be added to one, compared with it or taken
      from it: its scale is one more than pow10 can close. */
  lemma FarApartFails()
    ensures ParseDecimal("0.1e-10000") == Ok(Parts(1, 10001)) && ParseDecimal("1") == Ok(Parts(1, 0))
    ensures Apply(ADD, "0.1e-10000", "1") == Err(InvalidExponent)
    ensures Apply(SUBTRACT, "0.1e-10000", "1") == Err(InvalidExponent)
    ensures Compare(Parts(1, 10001), Parts(1, 0)) == Err(InvalidExponent)
  {
    hide ParseDecimal, Format;
    TinyIsRead();
    OneIsRead();
  }

  lemma OneIsRead()
    ensures ParseDecimal("1") == Ok(Parts(1, 0))
  {
    hide Pow10, TrimStart, TrimEnd, Match, ParseDecimal;
    var one := Spelling(NoSign, "1", None, None);
    assert Spell(one) == "1" == "" + (Spell(one) + "");
    ParseSpelled("", one, "");
    SmallDigits();
    assert "1" + "" == "1";
  }

  lemma TinyIsRead()
    ensures ParseDecimal("0.1e-10000") == Ok(Parts(1, 10001))
  {
    hide Pow10, TrimStart, TrimEnd, Match, ParseDecimal, Interpret;
    var tiny := Spelling(NoSign, "0", Some("1"), Some(Exponent('e', Minus, "10000")));
    assert Spell(tiny) == "0.1e-10000" == "" + (Spell(tiny) + "");
    ParseSpelled("", tiny, "");
    TinyDenotes(tiny);
  }

  lemma TinyDenotes(tiny: Spelling)
    requires tiny == Spelling(NoSign, "0", Some("1"), Some(Exponent('e', Minus, "10000")))
    ensures Interpret(tiny) == Ok(Parts(1, 10001))
  {
    hide Pow10;
    TenThousand();
    SmallDigits();
    assert "0" + "1" == "01";
    assert ExponentOf(tiny) == -10000;
  }

  lemma TenThousand()
    ensures DigitsValue("10000") == 10000
  {
    assert "10000"[..4] == "1000" && "1000"[..3] == "100" && "100"[..2] == "10" && "10"[..1] == "1" && "1"[..0] == "";
    assert DigitsValue("1") == 1;
    assert DigitsValue("10") == 10;
    assert DigitsValue("100") == 100;
    assert DigitsValue("1000") == 1000;
  }

  lemma SmallDigits()
    ensures StripLeadingZeros("01") == "1" && StripLeadingZeros("1") == "1" && DigitsValue("1") == 1
  {
  }
}
