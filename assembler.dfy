/**
 * The two-pass assembler (solutions/assembler.py). The first pass walks the
 * source line by line with an address cursor, binding labels, recording
 * `.byte` data and collecting the lines that carry a mnemonic; the second
 * pass encodes those lines with the finished symbol table, so forward
 * references resolve. Line and operand parsing are string functions; the
 * two passes are loops over an object holding the symbol table, the error
 * list and the data bytes.
 *
 * Python's `int()` raises on malformed text; here every parse returns a
 * Result and the passes stop at the first failure, as the exception would.
 */
module Assembler {
  import opened Bits
  import Isa
  import opened Wrappers

  // ---------------------------------------------------------------------
  // Strings
  // ---------------------------------------------------------------------

  /** The whitespace of str.isspace / str.strip / str.split in the Latin-1 range. */
  predicate IsSpace(c: char)
  {
    9 <= c as int <= 13 || 28 <= c as int <= 32 || c as int == 0x85 || c as int == 0xA0
  }

  /** str.lstrip(): s without its leading whitespace. */
  function StripLeft(s: string): (r: string)
    ensures |r| <= |s| && r == s[|s| - |r|..]
    ensures forall i :: 0 <= i < |s| - |r| ==> IsSpace(s[i])
    ensures r == [] || !IsSpace(r[0])
  {
    if s != [] && IsSpace(s[0]) then StripLeft(s[1..]) else s
  }

  /** str.rstrip(): s without its trailing whitespace. */
  function StripRight(s: string): (r: string)
    ensures |r| <= |s| && r == s[..|r|]
    ensures forall i :: |r| <= i < |s| ==> IsSpace(s[i])
    ensures r == [] || !IsSpace(r[|r| - 1])
  {
    if s != [] && IsSpace(s[|s| - 1]) then StripRight(s[..|s| - 1]) else s
  }

  /** str.strip(). */
  function Strip(s: string): (r: string)
  {
    StripRight(StripLeft(s))
  }

  /** A string with no whitespace at either end. */
  predicate Trimmed(s: string)
  {
    s == [] || (!IsSpace(s[0]) && !IsSpace(s[|s| - 1]))
  }

  /** strip() leaves a trimmed string no longer than its argument. */
  lemma StripTrims(s: string)
    ensures Trimmed(Strip(s)) && |Strip(s)| <= |s|
  {
    var l := StripLeft(s);
    var r := StripRight(l);
    if r != [] {
      assert r[0] == l[0];
    }
  }

  /** strip() keeps a trimmed string as it is. */
  lemma StripTrimmed(s: string)
    requires Trimmed(s)
    ensures Strip(s) == s
  {
  }

  /** strip() gives the empty string exactly on all-whitespace strings. */
  lemma StripBlank(s: string)
    ensures (forall i :: 0 <= i < |s| ==> IsSpace(s[i])) <==> Strip(s) == []
  {
  }

  /** The position of the first c in s, or |s| when s has none. */
  function IndexOf(s: string, c: char): (r: nat)
    ensures r <= |s| && (r < |s| ==> s[r] == c)
    ensures forall i :: 0 <= i < r ==> s[i] != c
  {
    if s == [] || s[0] == c then 0 else 1 + IndexOf(s[1..], c)
  }

  /** The position of the first whitespace character in s, or |s|. */
  function IndexOfSpace(s: string): (r: nat)
    ensures r <= |s| && (r < |s| ==> IsSpace(s[r]))
    ensures forall i :: 0 <= i < r ==> !IsSpace(s[i])
  {
    if s == [] || IsSpace(s[0]) then 0 else 1 + IndexOfSpace(s[1..])
  }

  /** s.split(sep) for a one-character separator. */
  function Split(s: string, sep: char): (r: seq<string>)
    ensures |r| >= 1 && r[0] == s[..IndexOf(s, sep)]
    ensures forall i :: 0 <= i < |r| ==> sep !in r[i]
    decreases |s|
  {
    var k := IndexOf(s, sep);
    if k == |s| then [s] else [s[..k]] + Split(s[k + 1..], sep)
  }

  /** sep.join(parts). */
  function Join(parts: seq<string>, sep: char): string
  {
    if |parts| == 0 then "" else if |parts| == 1 then parts[0] else parts[0] + [sep] + Join(parts[1..], sep)
  }

  /** Joining the pieces of a split gives the string back. */
  lemma {:induction false} SplitJoin(s: string, sep: char)
    ensures Join(Split(s, sep), sep) == s
    decreases |s|
  {
    var k := IndexOf(s, sep);
    if k < |s| {
      SplitJoin(s[k + 1..], sep);
      assert s == s[..k] + [sep] + s[k + 1..];
    }
  }

  /** Splitting a join of separator-free pieces gives the pieces back. */
  lemma {:induction false} JoinSplit(parts: seq<string>, sep: char)
    requires |parts| >= 1 && forall i :: 0 <= i < |parts| ==> sep !in parts[i]
    ensures Split(Join(parts, sep), sep) == parts
  {
    if |parts| == 1 {
      NoSeparator(parts[0], sep);
    } else {
      var head := parts[0];
      var rest := Join(parts[1..], sep);
      var s := head + [sep] + rest;
      assert Join(parts, sep) == s;
      NoSeparator(head, sep);
      IndexAfter(head, sep, rest);
      assert s[..|head|] == head && s[|head| + 1..] == rest;
      JoinSplit(parts[1..], sep);
      assert Split(s, sep) == [head] + Split(rest, sep);
      assert parts == [head] + parts[1..];
    }
  }

  /** A string without c has IndexOf at its end. */
  lemma NoSeparator(s: string, c: char)
    requires c !in s
    ensures IndexOf(s, c) == |s|
  {
  }

  /** In a + [c] + b with c not in a, the first c is right after a. */
  lemma IndexAfter(a: string, c: char, b: string)
    requires c !in a
    ensures IndexOf(a + [c] + b, c) == |a|
  {
    var s := a + [c] + b;
    assert s[|a|] == c;
  }

  /** str.lower() on the ASCII letters. */
  function Lower(s: string): (r: string)
    ensures |r| == |s|
  {
    seq(|s|, i requires 0 <= i < |s| => if 'A' <= s[i] <= 'Z' then (s[i] as int + 32) as char else s[i])
  }

  /**
   * s.split(None, 1): skip leading whitespace, take the first run of
   * non-whitespace, then, if anything but whitespace follows, the rest after
   * the whitespace that separates them.
   */
  function SplitWord(s: string): (r: seq<string>)
    ensures |r| <= 2
    ensures StripLeft(s) != [] ==> |r| >= 1 && r[0] != []
  {
    var t := StripLeft(s);
    if t == [] then []
    else
      var k := IndexOfSpace(t);
      var rest := StripLeft(t[k..]);
      if rest == [] then [t[..k]] else [t[..k], rest]
  }

  /** [op.strip() for op in ops]. */
  function StripAll(ops: seq<string>): (r: seq<string>)
    ensures |r| == |ops| && forall i :: 0 <= i < |ops| ==> r[i] == Strip(ops[i])
  {
    seq(|ops|, i requires 0 <= i < |ops| => Strip(ops[i]))
  }

  // ---------------------------------------------------------------------
  // Integers: int(text) and int(text, 16)
  // ---------------------------------------------------------------------

  /** The value of a hexadecimal digit (either case), or 16 for any other character. */
  function DigitValue(c: char): (r: nat)
    ensures r <= 16
  {
    if '0' <= c <= '9' then c as int - '0' as int
    else if 'a' <= c <= 'f' then c as int - 'a' as int + 10
    else if 'A' <= c <= 'F' then c as int - 'A' as int + 10
    else 16
  }

  /** Every character of s is a digit of the base. */
  predicate AllDigits(s: string, base: nat)
  {
    forall i :: 0 <= i < |s| ==> DigitValue(s[i]) < base
  }

  /** The value of a numeral, most significant digit first. */
  function NumeralValue(s: string, base: nat): nat
  {
    if s == [] then 0 else NumeralValue(s[..|s| - 1], base) * base + DigitValue(s[|s| - 1])
  }

  /** A 0x or 0X in front. */
  predicate HasHexPrefix(u: string)
  {
    |u| >= 2 && u[0] == '0' && (u[1] == 'x' || u[1] == 'X')
  }

  /** An unsigned numeral: for base 16 an optional 0x/0X prefix, then at least one digit of the base. */
  function ParseUnsigned(u: string, base: nat): Result<int>
    requires base == 10 || base == 16
  {
    var digits := if base == 16 && HasHexPrefix(u) then u[2..] else u;
    if digits != [] && AllDigits(digits, base) then Ok(NumeralValue(digits, base))
    else Fail("invalid literal for int()")
  }

  /** A numeral with an optional leading - or +. */
  function ParseSigned(t: string, base: nat): Result<int>
    requires base == 10 || base == 16
  {
    if |t| > 0 && t[0] == '-' then
      (match ParseUnsigned(t[1..], base)
       case Ok(v) => Ok(-v)
       case Fail(e) => Fail(e))
    else if |t| > 0 && t[0] == '+' then ParseUnsigned(t[1..], base)
    else ParseUnsigned(t, base)
  }

  /** int(s, base) for base 10 or 16: surrounding whitespace is ignored. */
  function ParseInt(s: string, base: nat): Result<int>
    requires base == 10 || base == 16
  {
    ParseSigned(Strip(s), base)
  }

  /** The digit character for 0 <= d < 16 (lower-case letters). */
  function DigitChar(d: nat): (c: char)
    requires d < 16
    ensures DigitValue(c) == d
  {
    if d < 10 then ('0' as int + d) as char else ('a' as int + d - 10) as char
  }

  /** The numeral of n in base 10 or 16, most significant digit first. */
  function Numeral(n: nat, base: nat): (r: string)
    requires base == 10 || base == 16
    ensures r != [] && AllDigits(r, base)
  {
    if n < base then [DigitChar(n)] else Numeral(n / base, base) + [DigitChar(n % base)]
  }

  /** Reading a numeral back gives the number. */
  lemma {:induction false} NumeralRoundTrip(n: nat, base: nat)
    requires base == 10 || base == 16
    ensures NumeralValue(Numeral(n, base), base) == n
  {
    if n >= base {
      NumeralLast(n, base);
      NumeralRoundTrip(n / base, base);
      assert n == (n / base) * base + n % base;
    } else {
      var s := Numeral(n, base);
      assert s[..|s| - 1] == [];
    }
  }

  /** The last digit of a numeral of two or more digits is n % base, after the numeral of n / base. */
  lemma NumeralLast(n: nat, base: nat)
    requires base == 10 || base == 16
    requires n >= base
    ensures NumeralValue(Numeral(n, base), base) == NumeralValue(Numeral(n / base, base), base) * base + n % base
  {
    var s := Numeral(n, base);
    assert s[..|s| - 1] == Numeral(n / base, base);
  }

  /** A numeral has no whitespace at either end. */
  lemma DigitsTrimmed(s: string, base: nat)
    requires AllDigits(s, base) && base <= 16
    ensures Trimmed(s)
  {
    if s != [] {
      assert DigitValue(s[0]) < 16 && DigitValue(s[|s| - 1]) < 16;
    }
  }

  /** int() reads a string of digits of the base as its value. */
  lemma ParseIntDigits(d: string, base: nat)
    requires base == 10 || base == 16
    requires d != [] && AllDigits(d, base)
    ensures ParseInt(d, base) == Ok(NumeralValue(d, base))
  {
    DigitsTrimmed(d, base);
    StripTrimmed(d);
    UnsignedDigits(d, base);
    assert DigitValue(d[0]) < base;
  }

  /** A string of digits of the base, with no prefix, reads as its value. */
  lemma UnsignedDigits(d: string, base: nat)
    requires base == 10 || base == 16
    requires d != [] && AllDigits(d, base)
    ensures ParseUnsigned(d, base) == Ok(NumeralValue(d, base))
  {
    if |d| >= 2 {
      assert DigitValue(d[1]) < base;
    }
  }

  /** int() reads a minus sign followed by decimal digits as the negated value. */
  lemma ParseIntNegative(d: string)
    requires d != [] && AllDigits(d, 10)
    ensures ParseInt("-" + d, 10) == Ok(-(NumeralValue(d, 10) as int))
  {
    Prefixed("-", d, 10);
    NegativeTrimmed("-" + d, d);
  }

  lemma NegativeTrimmed(t: string, d: string)
    requires Trimmed(t) && |t| > 0 && t[0] == '-' && t[1..] == d
    requires d != [] && AllDigits(d, 10)
    ensures ParseInt(t, 10) == Ok(-(NumeralValue(d, 10) as int))
  {
    StripTrimmed(t);
    NegativeSigned(t, d);
  }

  lemma NegativeSigned(t: string, d: string)
    requires |t| > 0 && t[0] == '-' && t[1..] == d
    requires d != [] && AllDigits(d, 10)
    ensures ParseSigned(t, 10) == Ok(-(NumeralValue(d, 10) as int))
  {
    UnsignedDigits(d, 10);
  }

  /** int(text, 16) reads 0x followed by hexadecimal digits as their value. */
  lemma ParseIntPrefixed(h: string)
    requires h != [] && AllDigits(h, 16)
    ensures ParseInt("0x" + h, 16) == Ok(NumeralValue(h, 16))
  {
    Prefixed("0x", h, 16);
    PrefixedTrimmed("0x" + h, h);
  }

  lemma PrefixedTrimmed(t: string, h: string)
    requires Trimmed(t) && |t| >= 2 && t[0] == '0' && t[1] == 'x' && t[2..] == h
    requires h != [] && AllDigits(h, 16)
    ensures ParseInt(t, 16) == Ok(NumeralValue(h, 16))
  {
    StripTrimmed(t);
    PrefixedSigned(t, h);
  }

  lemma PrefixedSigned(t: string, h: string)
    requires |t| >= 2 && t[0] == '0' && t[1] == 'x' && t[2..] == h
    requires h != [] && AllDigits(h, 16)
    ensures ParseSigned(t, 16) == Ok(NumeralValue(h, 16))
  {
  }

  /** A digit string with a sign or prefix in front is still trimmed, and the front comes off again. */
  lemma Prefixed(front: string, d: string, base: nat)
    requires front != [] && !IsSpace(front[0]) && d != [] && AllDigits(d, base) && base <= 16
    ensures Trimmed(front + d) && (front + d)[..|front|] == front && (front + d)[|front|..] == d
  {
    assert DigitValue(d[|d| - 1]) < 16;
  }

  /** int(str(n)) == n, and int(hex(n), 16) == n. */
  lemma ParseIntNumeral(n: nat)
    ensures ParseInt(Numeral(n, 10), 10) == Ok(n)
    ensures ParseInt("0x" + Numeral(n, 16), 16) == Ok(n)
  {
    NumeralRoundTrip(n, 10);
    NumeralRoundTrip(n, 16);
    ParseIntDigits(Numeral(n, 10), 10);
    ParseIntPrefixed(Numeral(n, 16));
  }

  // ---------------------------------------------------------------------
  // Operands
  // ---------------------------------------------------------------------

  /** _parse_reg: "R<n>" in either case, blanks around it allowed, is n; any other operand is 0. */
  function ParseReg(operand: string): Result<int>
  {
    RegisterNumber(Isa.Upper(Strip(operand)))
  }

  /** The register an upper-cased, stripped operand names. */
  function RegisterNumber(o: string): Result<int>
  {
    if |o| > 0 && o[0] == 'R' then ParseInt(o[1..], 10) else Ok(0)
  }

  /** _parse_value: a label first, then 0x/0X hexadecimal, then decimal. */
  function ParseValue(operand: string, symbols: map<string, int>): Result<int>
  {
    var o := Strip(operand);
    if o in symbols then Ok(symbols[o])
    else if |o| >= 2 && o[0] == '0' && (o[1] == 'x' || o[1] == 'X') then ParseInt(o, 16)
    else ParseInt(o, 10)
  }

  /** Upper-casing leaves digits alone. */
  lemma UpperDigits(s: string, base: nat)
    requires AllDigits(s, base) && base <= 10
    ensures Isa.Upper(s) == s
  {
    forall i | 0 <= i < |s|
      ensures Isa.Upper(s)[i] == s[i]
    {
      assert DigitValue(s[i]) < 10;
    }
  }

  /** R or r followed by decimal digits names the register those digits give. */
  lemma ParseRegNamesRegister(d: string)
    requires d != [] && AllDigits(d, 10)
    ensures ParseReg("R" + d) == Ok(NumeralValue(d, 10))
    ensures ParseReg("r" + d) == Ok(NumeralValue(d, 10))
  {
    ParseIntDigits(d, 10);
    Prefixed("R", d, 10);
    Prefixed("r", d, 10);
    RegisterOperand("R" + d, d);
    RegisterOperand("r" + d, d);
  }

  lemma RegisterOperand(o: string, d: string)
    requires Trimmed(o) && |o| > 0 && (o[0] == 'R' || o[0] == 'r') && o[1..] == d
    requires d != [] && AllDigits(d, 10)
    ensures ParseReg(o) == ParseInt(d, 10)
  {
    ParseRegTrimmed(o);
    UpperRegister(o, d);
    RegisterDigits(Isa.Upper(o), d);
  }

  lemma ParseRegTrimmed(o: string)
    requires Trimmed(o)
    ensures ParseReg(o) == RegisterNumber(Isa.Upper(o))
  {
    StripTrimmed(o);
  }

  lemma RegisterDigits(u: string, d: string)
    requires |u| > 0 && u[0] == 'R' && u[1..] == d
    ensures RegisterNumber(u) == ParseInt(d, 10)
  {
  }

  lemma UpperRegister(o: string, d: string)
    requires |o| > 0 && (o[0] == 'R' || o[0] == 'r') && o[1..] == d && AllDigits(d, 10)
    ensures var u := Isa.Upper(o); |u| > 0 && u[0] == 'R' && u[1..] == d
  {
    UpperDigits(d, 10);
    var u := Isa.Upper(o);
    assert u[1..] == Isa.Upper(d);
  }

  /** An operand that does not start with R or r (after blanks) is register 0, whatever follows. */
  lemma ParseRegOther(operand: string)
    requires var o := Strip(operand); o == [] || (o[0] != 'R' && o[0] != 'r')
    ensures ParseReg(operand) == Ok(0)
  {
  }

  /** A label is looked up before any numeric reading, even when it looks like a number. */
  lemma ParseValueLabelFirst(name: string, symbols: map<string, int>)
    requires Trimmed(name) && name in symbols
    ensures ParseValue(name, symbols) == Ok(symbols[name])
  {
    StripTrimmed(name);
  }

  /** An operand that is no label and has no 0x prefix is read by int(). */
  lemma ParseValueDecimal(o: string, symbols: map<string, int>)
    requires Trimmed(o) && o !in symbols && (|o| < 2 || o[0] != '0' || (o[1] != 'x' && o[1] != 'X'))
    ensures ParseValue(o, symbols) == ParseInt(o, 10)
  {
    StripTrimmed(o);
  }

  /** An operand that is no label and starts with 0x is read by int(text, 16). */
  lemma ParseValuePrefixed(o: string, symbols: map<string, int>)
    requires Trimmed(o) && o !in symbols && |o| >= 2 && o[0] == '0' && o[1] == 'x'
    ensures ParseValue(o, symbols) == ParseInt(o, 16)
  {
    StripTrimmed(o);
  }

  /** A string of decimal digits that is not a label reads as its decimal value. */
  lemma ParseValueDecimalDigits(d: string, symbols: map<string, int>)
    requires d != [] && AllDigits(d, 10) && d !in symbols
    ensures ParseValue(d, symbols) == Ok(NumeralValue(d, 10))
  {
    ParseIntDigits(d, 10);
    DigitsTrimmed(d, 10);
    if |d| >= 2 {
      assert DigitValue(d[1]) < 10;
    }
    ParseValueDecimal(d, symbols);
  }

  /** 0x followed by hexadecimal digits, when that is not a label, reads as their value. */
  lemma ParseValueHexDigits(h: string, symbols: map<string, int>)
    requires h != [] && AllDigits(h, 16) && "0x" + h !in symbols
    ensures ParseValue("0x" + h, symbols) == Ok(NumeralValue(h, 16))
  {
    ParseIntPrefixed(h);
    Prefixed("0x", h, 16);
    ParseValuePrefixed("0x" + h, symbols);
  }

  // ---------------------------------------------------------------------
  // parse_line
  // ---------------------------------------------------------------------

  /** The keys parse_line fills in; a missing key is None, and missing operands the empty list. */
  datatype Line = Line(labelName: Option<string>, directive: Option<string>, value: Option<int>,
                       opcode: Option<string>, operands: seq<string>)

  /** line.split(';')[0].strip(): the line without its comment and surrounding blanks. */
  function CodePart(line: string): (r: string)
    ensures Trimmed(r)
  {
    StripTrims(Split(line, ';')[0]);
    Strip(Split(line, ';')[0])
  }

  /** What follows the first ':' of the code, stripped; the whole code when it has no ':'. */
  function AfterLabel(code: string): (r: string)
    requires Trimmed(code)
    ensures Trimmed(r)
  {
    if ':' in code then
      var k := IndexOf(code, ':');
      StripTrims(code[k + 1..]);
      Strip(code[k + 1..])
    else code
  }

  /** The label of the code, stripped, when it has a ':'. */
  function LabelOf(code: string): Option<string>
  {
    if ':' in code then Some(Strip(code[..IndexOf(code, ':')])) else None
  }

  /** A source line that parse_line turns into an instruction: code remains after the label and does not start with '.'. */
  predicate IsInstruction(line: string)
  {
    var rest := AfterLabel(CodePart(line));
    rest != [] && rest[0] != '.'
  }

  /** A source line that parse_line turns into a directive. */
  predicate IsDirective(line: string)
  {
    var rest := AfterLabel(CodePart(line));
    rest != [] && rest[0] == '.'
  }

  /** The statement after the label: a directive with an optional value, or a mnemonic with its operands. */
  function ParseStatement(labelName: Option<string>, text: string, symbols: map<string, int>): (r: Result<Line>)
    requires text != [] && Trimmed(text)
    ensures r.Ok? ==> r.value.labelName == labelName
    ensures r.Ok? ==> (r.value.opcode.Some? <==> text[0] != '.') && (r.value.directive.Some? <==> text[0] == '.')
    ensures text[0] != '.' ==> r.Ok?
  {
    var parts := SplitWord(text);
    if text[0] == '.' then
      var directive := Lower(parts[0]);
      if |parts| > 1 then
        match ParseValue(parts[1], symbols)
        case Ok(v) => Ok(Line(labelName, Some(directive), Some(v), None, []))
        case Fail(e) => Fail(e)
      else Ok(Line(labelName, Some(directive), None, None, []))
    else
      var operands := if |parts| > 1 then StripAll(Split(parts[1], ',')) else [];
      Ok(Line(labelName, None, None, Some(Isa.Upper(parts[0])), operands))
  }

  /**
   * parse_line(line): None for a blank or comment-only line, otherwise the
   * label, directive and value, or mnemonic and operands. A directive's value
   * is read with the symbol table as it stands.
   */
  function ParseLine(line: string, symbols: map<string, int>): (r: Result<Option<Line>>)
    ensures CodePart(line) == [] <==> r == Ok(None)
    ensures r.Ok? && r.value.Some? ==> r.value.value.labelName == LabelOf(CodePart(line))
  {
    var code := CodePart(line);
    if code == [] then Ok(None)
    else
      var labelName := LabelOf(code);
      var rest := AfterLabel(code);
      if rest == [] then Ok(Some(Line(labelName, None, None, None, [])))
      else
        match ParseStatement(labelName, rest, symbols)
        case Ok(l) => Ok(Some(l))
        case Fail(e) => Fail(e)
  }

  /**
   * A line carries a mnemonic exactly when its code after the label is
   * non-empty and does not start with '.', and then it always parses; it is
   * a directive exactly when that code starts with '.'.
   */
  lemma ParseLineKind(line: string, symbols: map<string, int>)
    ensures var r := ParseLine(line, symbols);
      && (r.Ok? && r.value.Some? ==> (r.value.value.opcode.Some? <==> IsInstruction(line)))
      && (r.Ok? && r.value.Some? ==> (r.value.value.directive.Some? <==> IsDirective(line)))
      && (IsInstruction(line) ==> r.Ok? && r.value.Some?)
  {
  }

  /** A line whose text before the first ';' is blank parses to nothing. */
  lemma CommentLineIgnored(line: string, symbols: map<string, int>)
    requires forall i :: 0 <= i < IndexOf(line, ';') ==> IsSpace(line[i])
    ensures ParseLine(line, symbols) == Ok(None)
  {
    var before := Split(line, ';')[0];
    assert forall i :: 0 <= i < |before| ==> IsSpace(before[i]);
    StripBlank(before);
  }

  // ---------------------------------------------------------------------
  // The first pass
  // ---------------------------------------------------------------------

  /** data_bytes[k] = v on a dict kept as its (key, value) list in insertion order. */
  function DictSet(d: seq<(int, int)>, k: int, v: int): (r: seq<(int, int)>)
    ensures |r| == |d| || |r| == |d| + 1
  {
    if d == [] then [(k, v)]
    else if d[0].0 == k then [(k, v)] + d[1..]
    else [d[0]] + DictSet(d[1..], k, v)
  }

  /** The value a dict list holds for k: the entry with that key. */
  function DictGet(d: seq<(int, int)>, k: int): Option<int>
  {
    if d == [] then None else if d[0].0 == k then Some(d[0].1) else DictGet(d[1..], k)
  }

  /** Each key appears at most once. */
  predicate UniqueKeys(d: seq<(int, int)>)
  {
    forall i, j :: 0 <= i < j < |d| ==> d[i].0 != d[j].0
  }

  /** Setting a key makes it read back the new value, leaves every other key alone and keeps keys unique. */
  lemma {:induction false} DictSetGet(d: seq<(int, int)>, k: int, v: int, other: int)
    requires UniqueKeys(d)
    ensures UniqueKeys(DictSet(d, k, v))
    ensures DictGet(DictSet(d, k, v), k) == Some(v)
    ensures other != k ==> DictGet(DictSet(d, k, v), other) == DictGet(d, other)
  {
    if d != [] && d[0].0 != k {
      DictSetGet(d[1..], k, v, other);
      DictSetKeys(d[1..], k, v);
      var r := DictSet(d, k, v);
      assert r == [d[0]] + DictSet(d[1..], k, v);
      forall i, j | 0 <= i < j < |r|
        ensures r[i].0 != r[j].0
      {
        if i == 0 {
          assert r[j] == DictSet(d[1..], k, v)[j - 1];
        }
      }
    }
  }

  /** The keys of DictSet(d, k, v) are those of d and k. */
  lemma {:induction false} DictSetKeys(d: seq<(int, int)>, k: int, v: int)
    ensures forall i :: 0 <= i < |DictSet(d, k, v)| ==>
      DictSet(d, k, v)[i].0 == k || exists j :: 0 <= j < |d| && d[j].0 == DictSet(d, k, v)[i].0
  {
    if d != [] && d[0].0 != k {
      DictSetKeys(d[1..], k, v);
      var r := DictSet(d, k, v);
      forall i | 0 <= i < |r|
        ensures r[i].0 == k || exists j :: 0 <= j < |d| && d[j].0 == r[i].0
      {
        if i == 0 {
          assert d[0].0 == r[i].0;
        } else {
          var rest := DictSet(d[1..], k, v);
          assert r[i] == rest[i - 1];
          if rest[i - 1].0 != k {
            var j :| 0 <= j < |d[1..]| && d[1..][j].0 == rest[i - 1].0;
            assert d[j + 1].0 == r[i].0;
          }
        }
      }
    }
  }

  /** Where parse_line's dict lands: the line, the address given to it and its 1-based line number. */
  datatype Placed = Placed(line: Line, address: int, lineNum: int)

  /** The first pass's state: symbol table, data bytes, address cursor and the lines that carry a mnemonic. */
  datatype Pass1 = Pass1(symbols: map<string, int>, data: seq<(int, int)>, address: int, placed: seq<Placed>)

  /**
   * One parsed line in the first pass: a non-empty label is bound to the
   * cursor; a mnemonic is placed at the cursor, which moves on by two;
   * .org sets the cursor (a KeyError without a value); .byte records its
   * value, 0 by default, at the cursor, which moves on by one; any other
   * directive leaves the cursor where it is.
   */
  function LineStep(st: Pass1, line: Line, lineNum: int): Result<Pass1>
  {
    var symbols := if line.labelName.Some? && line.labelName.value != [] then st.symbols[line.labelName.value := st.address] else st.symbols;
    var placed := if line.opcode.Some? then st.placed + [Placed(line, st.address, lineNum)] else st.placed;
    var address := if line.opcode.Some? then st.address + 2 else st.address;
    if line.directive == Some(".org") then
      if line.value.Some? then Ok(Pass1(symbols, st.data, line.value.value, placed))
      else Fail("KeyError: 'value'")
    else if line.directive == Some(".byte") then
      var v := if line.value.Some? then line.value.value else 0;
      Ok(Pass1(symbols, DictSet(st.data, address, v), address + 1, placed))
    else Ok(Pass1(symbols, st.data, address, placed))
  }

  /** What one parsed line does to the pass state. */
  lemma LineStepEffect(st: Pass1, line: Line, lineNum: int)
    requires LineStep(st, line, lineNum).Ok?
    ensures var r := LineStep(st, line, lineNum).value;
      && r.placed == st.placed + (if line.opcode.Some? then [Placed(line, st.address, lineNum)] else [])
      && (line.directive.None? ==> r.address == st.address + (if line.opcode.Some? then 2 else 0) && r.data == st.data)
      && r.symbols == (if line.labelName.Some? && line.labelName.value != [] then st.symbols[line.labelName.value := st.address] else st.symbols)
  {
  }

  /** The first pass on one source line: parse it with the table as it stands, then step. */
  function FirstPassLine(st: Pass1, line: string, lineNum: int): Result<Pass1>
  {
    match ParseLine(line, st.symbols)
    case Fail(e) => Fail(e)
    case Ok(None) => Ok(st)
    case Ok(Some(l)) => LineStep(st, l, lineNum)
  }

  /** The label a line binds, if any: a non-empty name before its ':'. */
  function BoundLabel(line: string): Option<string>
  {
    var name := LabelOf(CodePart(line));
    if name.Some? && name.value != [] then name else None
  }

  /**
   * One source line in the first pass: an instruction line is placed at the
   * cursor under its line number, any other line places nothing; the label
   * it binds, if any, gets the cursor; a line that is no directive moves the
   * cursor by two for an instruction, by nothing otherwise, and leaves the
   * data bytes alone.
   */
  lemma FirstPassLineEffect(st: Pass1, line: string, lineNum: int)
    requires FirstPassLine(st, line, lineNum).Ok?
    ensures var r := FirstPassLine(st, line, lineNum).value;
      && |r.placed| == |st.placed| + (if IsInstruction(line) then 1 else 0)
      && r.placed[..|st.placed|] == st.placed
      && (IsInstruction(line) ==> r.placed[|st.placed|].lineNum == lineNum && r.placed[|st.placed|].line.opcode.Some?
                                  && r.placed[|st.placed|].address == st.address)
      && (!IsDirective(line) ==> r.address == st.address + (if IsInstruction(line) then 2 else 0) && r.data == st.data)
      && r.symbols == (if BoundLabel(line).Some? then st.symbols[BoundLabel(line).value := st.address] else st.symbols)
  {
    ParseLineKind(line, st.symbols);
    BoundLabelParses(line, st.symbols);
    hide ParseLine;
    hide IsInstruction;
    hide IsDirective;
    match ParseLine(line, st.symbols)
    case Ok(None) =>
    case Ok(Some(l)) =>
      LineStepEffect(st, l, lineNum);
  }

  /** A line that binds a label does not parse to nothing, and a parsed line carries the label of its code. */
  lemma BoundLabelParses(line: string, symbols: map<string, int>)
    ensures BoundLabel(line).Some? ==> ParseLine(line, symbols) != Ok(None)
    ensures var r := ParseLine(line, symbols); r.Ok? && r.value.Some? ==> r.value.value.labelName == LabelOf(CodePart(line))
  {
  }

  /** The first pass over the first |lines| lines, from the given symbol table and data bytes. */
  function FirstPassSpec(symbols: map<string, int>, data: seq<(int, int)>, lines: seq<string>): Result<Pass1>
  {
    if lines == [] then Ok(Pass1(symbols, data, 0, []))
    else
      match FirstPassSpec(symbols, data, lines[..|lines| - 1])
      case Fail(e) => Fail(e)
      case Ok(st) => FirstPassLine(st, lines[|lines| - 1], |lines|)
  }

  /** One more line of a pass that has not failed is that line's step. */
  lemma FirstPassPrefix(symbols: map<string, int>, data: seq<(int, int)>, lines: seq<string>, i: nat)
    requires i < |lines| && FirstPassSpec(symbols, data, lines[..i]).Ok?
    ensures FirstPassSpec(symbols, data, lines[..i + 1]) == FirstPassLine(FirstPassSpec(symbols, data, lines[..i]).value, lines[i], i + 1)
  {
    hide FirstPassLine;
    assert lines[..i + 1][..i] == lines[..i];
  }

  /** An exception on some line ends the whole pass. */
  lemma {:induction false} FirstPassFailPersists(symbols: map<string, int>, data: seq<(int, int)>, lines: seq<string>, i: nat)
    requires i <= |lines| && FirstPassSpec(symbols, data, lines[..i]).Fail?
    ensures FirstPassSpec(symbols, data, lines) == FirstPassSpec(symbols, data, lines[..i])
    decreases |lines| - i
  {
    hide FirstPassLine;
    if i < |lines| {
      assert lines[..i + 1][..i] == lines[..i];
      FirstPassFailPersists(symbols, data, lines, i + 1);
    } else {
      assert lines[..i] == lines;
    }
  }

  /** The 1-based numbers of the lines that carry a mnemonic, in source order. */
  function InstructionLines(lines: seq<string>): (r: seq<int>)
    ensures |r| <= |lines|
  {
    if lines == [] then []
    else InstructionLines(lines[..|lines| - 1]) + (if IsInstruction(lines[|lines| - 1]) then [|lines|] else [])
  }

  /**
   * The first pass places exactly the lines that carry a mnemonic, once
   * each and in source order; blank lines, comments, labels on their own
   * and directives place nothing.
   */
  lemma {:induction false} FirstPassPlacesInstructions(symbols: map<string, int>, data: seq<(int, int)>, lines: seq<string>)
    requires FirstPassSpec(symbols, data, lines).Ok?
    ensures var st := FirstPassSpec(symbols, data, lines).value;
      && |st.placed| == |InstructionLines(lines)|
      && forall k :: 0 <= k < |st.placed| ==> st.placed[k].lineNum == InstructionLines(lines)[k] && st.placed[k].line.opcode.Some?
  {
    hide FirstPassLine;
    hide IsInstruction;
    if lines != [] {
      var prev := lines[..|lines| - 1];
      FirstPassPlacesInstructions(symbols, data, prev);
      PlacedStep(FirstPassSpec(symbols, data, prev).value, lines[|lines| - 1], |lines|, InstructionLines(prev));
    }
  }

  /** One line extends the placed list exactly as it extends the list of instruction line numbers. */
  lemma PlacedStep(st: Pass1, line: string, lineNum: int, before: seq<int>)
    requires FirstPassLine(st, line, lineNum).Ok?
    requires |st.placed| == |before|
    requires forall k :: 0 <= k < |st.placed| ==> st.placed[k].lineNum == before[k] && st.placed[k].line.opcode.Some?
    ensures var now := FirstPassLine(st, line, lineNum).value;
      var after := before + (if IsInstruction(line) then [lineNum] else []);
      && |now.placed| == |after|
      && forall k :: 0 <= k < |now.placed| ==> now.placed[k].lineNum == after[k] && now.placed[k].line.opcode.Some?
  {
    hide FirstPassLine;
    hide IsInstruction;
    FirstPassLineEffect(st, line, lineNum);
    var now := FirstPassLine(st, line, lineNum).value;
    forall k | 0 <= k < |now.placed|
      ensures now.placed[k].lineNum == (before + (if IsInstruction(line) then [lineNum] else []))[k] && now.placed[k].line.opcode.Some?
    {
      if k < |st.placed| {
        assert now.placed[k] == now.placed[..|st.placed|][k];
      }
    }
  }

  /**
   * Without directives the cursor counts two bytes per instruction: the k-th
   * instruction sits at 2k, and a label is bound to twice the number of
   * instructions above it.
   */
  lemma {:induction false} DenseAddresses(symbols: map<string, int>, data: seq<(int, int)>, lines: seq<string>)
    requires FirstPassSpec(symbols, data, lines).Ok?
    requires forall i :: 0 <= i < |lines| ==> !IsDirective(lines[i])
    ensures var st := FirstPassSpec(symbols, data, lines).value;
      && st.address == 2 * |st.placed| && st.data == data
      && forall k :: 0 <= k < |st.placed| ==> st.placed[k].address == 2 * k
  {
    hide FirstPassLine;
    hide IsInstruction;
    hide IsDirective;
    if lines != [] {
      var prev := lines[..|lines| - 1];
      DenseAddresses(symbols, data, prev);
      var st := FirstPassSpec(symbols, data, prev).value;
      var last := lines[|lines| - 1];
      assert !IsDirective(last);
      FirstPassLineEffect(st, last, |lines|);
      var now := FirstPassSpec(symbols, data, lines).value;
      forall k | 0 <= k < |now.placed|
        ensures now.placed[k].address == 2 * k
      {
        if k < |st.placed| {
          assert now.placed[k] == now.placed[..|st.placed|][k];
        }
      }
    }
  }

  /** Without directives, the last line that binds a label binds it to twice the number of instructions above it. */
  lemma {:induction false} LabelAddress(symbols: map<string, int>, data: seq<(int, int)>, lines: seq<string>, i: nat, name: string)
    requires FirstPassSpec(symbols, data, lines).Ok?
    requires forall j :: 0 <= j < |lines| ==> !IsDirective(lines[j])
    requires i < |lines| && BoundLabel(lines[i]) == Some(name)
    requires forall j :: i < j < |lines| ==> BoundLabel(lines[j]) != Some(name)
    ensures var st := FirstPassSpec(symbols, data, lines).value;
      name in st.symbols && st.symbols[name] == 2 * |InstructionLines(lines[..i])|
  {
    hide FirstPassLine;
    hide IsDirective;
    hide BoundLabel;
    var prev := lines[..|lines| - 1];
    var last := lines[|lines| - 1];
    assert forall j :: 0 <= j < |prev| ==> prev[j] == lines[j];
    var st := FirstPassSpec(symbols, data, prev).value;
    FirstPassLineEffect(st, last, |lines|);
    if i == |lines| - 1 {
      DenseAddresses(symbols, data, prev);
      FirstPassPlacesInstructions(symbols, data, prev);
      assert prev == lines[..i];
    } else {
      LabelAddress(symbols, data, prev, i, name);
      assert prev[..i] == lines[..i];
    }
  }

  /** A blank or comment-only line leaves the first pass where it was. */
  lemma BlankLineNoEffect(symbols: map<string, int>, data: seq<(int, int)>, lines: seq<string>, line: string)
    requires CodePart(line) == []
    ensures FirstPassSpec(symbols, data, lines + [line]) == FirstPassSpec(symbols, data, lines)
  {
    assert (lines + [line])[..|lines|] == lines;
  }

  // ---------------------------------------------------------------------
  // The second pass
  // ---------------------------------------------------------------------

  /** The operands encode_instruction receives. */
  datatype Operands = Operands(rd: int, rs1: int, rs2Imm: int)

  const ThreeRegister: seq<string> := ["ADD", "SUB", "AND", "OR", "XOR"]
  const TwoRegister: seq<string> := ["NOT", "SHL", "SHR", "MOV"]
  const RegisterAndValue: seq<string> := ["LOAD", "STORE"]
  const ValueOnly: seq<string> := ["JMP", "JZ", "JNZ"]

  /** The operands by mnemonic group: three registers, two registers, a register and a value, a value; 0 where missing. */
  function RouteOperands(opcode: string, ops: seq<string>, symbols: map<string, int>): Result<Operands>
  {
    if opcode in ThreeRegister then (if |ops| >= 3 then ThreeRegisters(ops) else Ok(Operands(0, 0, 0)))
    else if opcode in TwoRegister then (if |ops| >= 2 then TwoRegisters(ops) else Ok(Operands(0, 0, 0)))
    else if opcode in RegisterAndValue then (if |ops| >= 2 then RegisterValue(ops, symbols) else Ok(Operands(0, 0, 0)))
    else if opcode in ValueOnly then (if |ops| >= 1 then JumpTarget(ops, symbols) else Ok(Operands(0, 0, 0)))
    else Ok(Operands(0, 0, 0))
  }

  /** rd, rs1 and rs2 from the first three operands, read in order. */
  function ThreeRegisters(ops: seq<string>): Result<Operands>
    requires |ops| >= 3
  {
    match ParseReg(ops[0])
    case Fail(e) => Fail(e)
    case Ok(rd) =>
      match ParseReg(ops[1])
      case Fail(e) => Fail(e)
      case Ok(rs1) =>
        match ParseReg(ops[2])
        case Fail(e) => Fail(e)
        case Ok(rs2) => Ok(Operands(rd, rs1, rs2))
  }

  /** rd and rs1 from the first two operands; rs2 stays 0. */
  function TwoRegisters(ops: seq<string>): Result<Operands>
    requires |ops| >= 2
  {
    match ParseReg(ops[0])
    case Fail(e) => Fail(e)
    case Ok(rd) =>
      match ParseReg(ops[1])
      case Fail(e) => Fail(e)
      case Ok(rs1) => Ok(Operands(rd, rs1, 0))
  }

  /** rd from the first operand and the address from the second. */
  function RegisterValue(ops: seq<string>, symbols: map<string, int>): Result<Operands>
    requires |ops| >= 2
  {
    match ParseReg(ops[0])
    case Fail(e) => Fail(e)
    case Ok(rd) =>
      match ParseValue(ops[1], symbols)
      case Fail(e) => Fail(e)
      case Ok(v) => Ok(Operands(rd, 0, v))
  }

  /** The jump target from the first operand. */
  function JumpTarget(ops: seq<string>, symbols: map<string, int>): Result<Operands>
    requires |ops| >= 1
  {
    match ParseValue(ops[0], symbols)
    case Fail(e) => Fail(e)
    case Ok(v) => Ok(Operands(0, 0, v))
  }

  /** One placed line in the second pass: its mnemonic (NOP when absent), upper-cased, with its routed operands, encoded. */
  function EncodeLine(line: Line, symbols: map<string, int>): (r: Result<seq<int>>)
    ensures r.Ok? ==> |r.value| == 16
  {
    var opcode := Isa.Upper(if line.opcode.Some? then line.opcode.value else "NOP");
    match RouteOperands(opcode, line.operands, symbols)
    case Fail(e) => Fail(e)
    case Ok(f) => Ok(Isa.Encode(opcode, f.rd, f.rs1, f.rs2Imm))
  }

  /** The second pass over the placed lines: one word per line, or the first exception. */
  function SecondPassSpec(placed: seq<Placed>, symbols: map<string, int>): (r: Result<seq<seq<int>>>)
    ensures r.Ok? ==> |r.value| == |placed|
  {
    if placed == [] then Ok([])
    else
      match SecondPassSpec(placed[..|placed| - 1], symbols)
      case Fail(e) => Fail(e)
      case Ok(code) =>
        match EncodeLine(placed[|placed| - 1].line, symbols)
        case Fail(e) => Fail(e)
        case Ok(w) => Ok(code + [w])
  }

  /** Each word of a successful second pass is its placed line encoded. */
  lemma {:induction false} SecondPassWords(placed: seq<Placed>, symbols: map<string, int>)
    requires SecondPassSpec(placed, symbols).Ok?
    ensures forall k :: 0 <= k < |placed| ==> EncodeLine(placed[k].line, symbols) == Ok(SecondPassSpec(placed, symbols).value[k])
  {
    hide EncodeLine;
    if placed != [] {
      var prev := placed[..|placed| - 1];
      SecondPassWords(prev, symbols);
      forall k | 0 <= k < |prev|
        ensures placed[k] == prev[k]
      {
      }
    }
  }

  /** The second pass fails exactly when some placed line fails to encode. */
  lemma {:induction false} SecondPassFails(placed: seq<Placed>, symbols: map<string, int>)
    ensures SecondPassSpec(placed, symbols).Fail? <==> exists k :: 0 <= k < |placed| && EncodeLine(placed[k].line, symbols).Fail?
  {
    hide EncodeLine;
    if placed != [] {
      var prev := placed[..|placed| - 1];
      SecondPassFails(prev, symbols);
      if SecondPassSpec(prev, symbols).Fail? {
        var k :| 0 <= k < |prev| && EncodeLine(prev[k].line, symbols).Fail?;
        assert placed[k] == prev[k];
      }
    }
  }

  /** assemble(source): both passes, the second with the finished symbol table. */
  function AssembleSpec(source: string): Result<seq<seq<int>>>
  {
    match FirstPassSpec(map[], [], Split(source, '\n'))
    case Fail(e) => Fail(e)
    case Ok(st) => SecondPassSpec(st.placed, st.symbols)
  }

  /** A mnemonic outside the instruction set assembles to the all-zero word, whatever its operands. */
  lemma UnknownMnemonicZeroWord(line: Line, symbols: map<string, int>)
    requires line.opcode.Some? && Isa.Upper(line.opcode.value) !in Isa.Opcodes
    ensures EncodeLine(line, symbols) == Ok(Zeros(16))
  {
    var opcode := Isa.Upper(line.opcode.value);
    RouteDefault(opcode, line.operands, symbols);
    Isa.UpperIdempotent(line.opcode.value);
    Isa.UnknownZeroWord(opcode);
  }

  /** Too few operands for the mnemonic's group: every field defaults to 0. */
  lemma MissingOperandsDefault(line: Line, symbols: map<string, int>)
    requires line.opcode.Some?
    requires var op := Isa.Upper(line.opcode.value);
      (op in ThreeRegister && |line.operands| < 3) || (op in TwoRegister && |line.operands| < 2)
      || (op in RegisterAndValue && |line.operands| < 2) || (op in ValueOnly && |line.operands| == 0)
    ensures EncodeLine(line, symbols) == Ok(Isa.Encode(Isa.Upper(line.opcode.value), 0, 0, 0))
  {
    RouteDefault(Isa.Upper(line.opcode.value), line.operands, symbols);
  }

  /** A mnemonic in no group, or with too few operands for its group, gets all fields 0. */
  lemma RouteDefault(opcode: string, ops: seq<string>, symbols: map<string, int>)
    requires opcode !in Isa.Opcodes
      || (opcode in ThreeRegister && |ops| < 3) || (opcode in TwoRegister && |ops| < 2)
      || (opcode in RegisterAndValue && |ops| < 2) || (opcode in ValueOnly && |ops| == 0)
    ensures RouteOperands(opcode, ops, symbols) == Ok(Operands(0, 0, 0))
  {
    if opcode !in Isa.Opcodes {
      assert opcode !in ThreeRegister && opcode !in TwoRegister && opcode !in RegisterAndValue && opcode !in ValueOnly;
    }
  }

  /**
   * A jump whose operand names a label assembles to a word that decodes to
   * that jump and the label's address modulo 256; the second pass runs with
   * the finished table, so the label may be defined further down.
   */
  lemma JumpToLabel(line: Line, symbols: map<string, int>, name: string)
    requires line.opcode.Some? && line.opcode.value in ValueOnly && |line.operands| >= 1
    requires Strip(line.operands[0]) == name && name in symbols
    ensures EncodeLine(line, symbols).Ok?
    ensures var d := Isa.Decode(EncodeLine(line, symbols).value);
      d.opcodeName == line.opcode.value && d.rs2Imm == symbols[name] % 256
  {
    var op := line.opcode.value;
    GroupUpper(op);
    RouteJump(op, line.operands, symbols, name);
    EncodeRouted(line, symbols, Operands(0, 0, symbols[name]));
    Isa.EncodeDecode(op, 0, 0, symbols[name]);
  }

  /** The mnemonics of the operand groups are upper case already. */
  lemma GroupUpper(op: string)
    requires op in ThreeRegister || op in TwoRegister || op in RegisterAndValue || op in ValueOnly
    ensures Isa.Upper(op) == op
  {
  }

  /** A jump's operand that names a label routes to that label's address. */
  lemma RouteJump(op: string, ops: seq<string>, symbols: map<string, int>, name: string)
    requires op in ValueOnly && |ops| >= 1 && Strip(ops[0]) == name && name in symbols
    ensures RouteOperands(op, ops, symbols) == Ok(Operands(0, 0, symbols[name]))
  {
    hide ThreeRegisters;
    hide TwoRegisters;
    hide RegisterValue;
    hide ParseValue;
    JumpGroupOnly(op);
    LabelOperand(ops[0], symbols);
    assert JumpTarget(ops, symbols) == Ok(Operands(0, 0, symbols[name]));
  }

  /** The jump mnemonics belong to no other operand group. */
  lemma JumpGroupOnly(op: string)
    requires op in ValueOnly
    ensures op !in ThreeRegister && op !in TwoRegister && op !in RegisterAndValue
  {
  }

  /** An operand that names a label, once stripped, reads as the label's address. */
  lemma LabelOperand(operand: string, symbols: map<string, int>)
    requires Strip(operand) in symbols
    ensures ParseValue(operand, symbols) == Ok(symbols[Strip(operand)])
  {
  }

  /** A placed line encodes its upper-cased mnemonic with the operands routing gives. */
  lemma EncodeRouted(line: Line, symbols: map<string, int>, f: Operands)
    requires line.opcode.Some? && RouteOperands(Isa.Upper(line.opcode.value), line.operands, symbols) == Ok(f)
    ensures EncodeLine(line, symbols) == Ok(Isa.Encode(Isa.Upper(line.opcode.value), f.rd, f.rs1, f.rs2Imm))
  {
    hide RouteOperands;
    hide Isa.Encode;
  }

  /** Three register operands R<a>, R<b>, R<c> of an ADD-group mnemonic become rd, rs1 and rs2. */
  lemma RegisterOperands(line: Line, symbols: map<string, int>, a: string, b: string, c: string)
    requires line.opcode.Some? && line.opcode.value in ThreeRegister && |line.operands| >= 3
    requires a != [] && AllDigits(a, 10) && b != [] && AllDigits(b, 10) && c != [] && AllDigits(c, 10)
    requires line.operands[0] == "R" + a && line.operands[1] == "R" + b && line.operands[2] == "R" + c
    ensures EncodeLine(line, symbols) == Ok(Isa.Encode(line.opcode.value, NumeralValue(a, 10), NumeralValue(b, 10), NumeralValue(c, 10)))
  {
    hide EncodeLine;
    hide ParseReg;
    hide Isa.Encode;
    ParseRegNamesRegister(a);
    ParseRegNamesRegister(b);
    ParseRegNamesRegister(c);
    var op := line.opcode.value;
    GroupUpper(op);
    var f := Operands(NumeralValue(a, 10), NumeralValue(b, 10), NumeralValue(c, 10));
    RouteThree(op, line.operands, symbols, f);
    EncodeRouted(line, symbols, f);
  }

  /** An ADD-group mnemonic routes its first three operands, each read as a register. */
  lemma RouteThree(op: string, ops: seq<string>, symbols: map<string, int>, f: Operands)
    requires op in ThreeRegister && |ops| >= 3
    requires ParseReg(ops[0]) == Ok(f.rd) && ParseReg(ops[1]) == Ok(f.rs1) && ParseReg(ops[2]) == Ok(f.rs2Imm)
    ensures RouteOperands(op, ops, symbols) == Ok(f)
  {
    hide ParseReg;
    hide ParseValue;
  }

  /**
   * Assembling gives one word per line that carries a mnemonic, in source
   * order: the k-th word is the k-th instruction line encoded with the
   * finished symbol table.
   */
  lemma AssembleWords(source: string)
    requires AssembleSpec(source).Ok?
    ensures var lines := Split(source, '\n');
      var st := FirstPassSpec(map[], [], lines).value;
      var code := AssembleSpec(source).value;
      && |code| == |InstructionLines(lines)| == |st.placed|
      && forall k :: 0 <= k < |code| ==>
           st.placed[k].lineNum == InstructionLines(lines)[k] && EncodeLine(st.placed[k].line, st.symbols) == Ok(code[k])
  {
    var st := FirstPassSpec(map[], [], Split(source, '\n')).value;
    FirstPassPlacesInstructions(map[], [], Split(source, '\n'));
    SecondPassWords(st.placed, st.symbols);
  }

  // ---------------------------------------------------------------------
  // The Assembler object
  // ---------------------------------------------------------------------

  class Assembler {
    var symbolTable: map<string, int>
    var errors: seq<string>
    var dataBytes: seq<(int, int)>

    /** An assembler with an empty symbol table, no errors and no data bytes. */
    constructor ()
      ensures symbolTable == map[] && errors == [] && dataBytes == []
    {
      symbolTable := map[];
      errors := [];
      dataBytes := [];
    }

    /** assemble(source): clear the tables, run the first pass, then the second. */
    method Assemble(source: string) returns (r: Result<seq<seq<int>>>)
      modifies this
      ensures r == AssembleSpec(source) && errors == []
      ensures var first := FirstPassSpec(map[], [], Split(source, '\n'));
        first.Ok? ==> symbolTable == first.value.symbols && dataBytes == first.value.data
    {
      hide FirstPassSpec;
      hide SecondPassSpec;
      symbolTable := map[];
      errors := [];
      dataBytes := [];
      var first := FirstPass(source);
      match first
      case Fail(e) =>
        r := Fail(e);
      case Ok(placed) =>
        r := SecondPass(placed);
    }

    /** first_pass(source): walk the lines with the address cursor, filling the symbol table and the data bytes. */
    method FirstPass(source: string) returns (r: Result<seq<Placed>>)
      modifies this
      ensures errors == old(errors)
      ensures var spec := FirstPassSpec(old(symbolTable), old(dataBytes), Split(source, '\n'));
        && (r.Ok? <==> spec.Ok?)
        && (spec.Fail? ==> r.error == spec.error)
        && (spec.Ok? ==> r.value == spec.value.placed && symbolTable == spec.value.symbols && dataBytes == spec.value.data)
    {
      hide ParseLine;
      hide LineStep;
      var lines := Split(source, '\n');
      ghost var symbols0, data0 := symbolTable, dataBytes;
      assert FirstPassSpec(symbols0, data0, lines[..0]) == Ok(Pass1(symbols0, data0, 0, []));
      hide FirstPassSpec;
      var placed: seq<Placed> := [];
      var address := 0;
      var i := 0;
      while i < |lines|
        invariant 0 <= i <= |lines| && errors == old(errors)
        invariant FirstPassSpec(symbols0, data0, lines[..i]) == Ok(Pass1(symbolTable, dataBytes, address, placed))
      {
        FirstPassPrefix(symbols0, data0, lines, i);
        ghost var before := Pass1(symbolTable, dataBytes, address, placed);
        var parsed := ParseLine(lines[i], symbolTable);
        if parsed.Fail? {
          FirstPassFailPersists(symbols0, data0, lines, i + 1);
          return Fail(parsed.error);
        }
        if parsed.value.Some? {
          var step := Record(parsed.value.value, i + 1, address, placed);
          if step.Fail? {
            FirstPassFailPersists(symbols0, data0, lines, i + 1);
            return Fail(step.error);
          }
          address, placed := step.value.0, step.value.1;
        }
        i := i + 1;
      }
      assert lines[..i] == lines;
      r := Ok(placed);
    }

    /**
     * The body of first_pass's loop for a parsed line: bind its label, place
     * it if it carries a mnemonic, then apply .org or .byte. Returns the new
     * cursor and placed list, or the KeyError of a .org without a value.
     */
    method Record(line: Line, lineNum: int, address: int, placed: seq<Placed>) returns (r: Result<(int, seq<Placed>)>)
      modifies this
      ensures errors == old(errors)
      ensures var step := LineStep(Pass1(old(symbolTable), old(dataBytes), address, placed), line, lineNum);
        && (r.Ok? <==> step.Ok?)
        && (step.Fail? ==> r.error == step.error)
        && (step.Ok? ==> step.value == Pass1(symbolTable, dataBytes, r.value.0, r.value.1))
    {
      var cursor := address;
      var lines := placed;
      if line.labelName.Some? && line.labelName.value != [] {
        symbolTable := symbolTable[line.labelName.value := cursor];
      }
      if line.opcode.Some? {
        lines := lines + [Placed(line, cursor, lineNum)];
        cursor := cursor + 2;
      }
      if line.directive == Some(".org") {
        if line.value.None? {
          return Fail("KeyError: 'value'");
        }
        cursor := line.value.value;
      } else if line.directive == Some(".byte") {
        dataBytes := DictSet(dataBytes, cursor, if line.value.Some? then line.value.value else 0);
        cursor := cursor + 1;
      }
      r := Ok((cursor, lines));
    }

    /** second_pass(parsed_lines): encode every placed line with the symbol table. */
    method SecondPass(placed: seq<Placed>) returns (r: Result<seq<seq<int>>>)
      ensures r == SecondPassSpec(placed, symbolTable)
    {
      hide EncodeLine;
      var code: seq<seq<int>> := [];
      for k := 0 to |placed|
        invariant SecondPassSpec(placed[..k], symbolTable) == Ok(code)
      {
        assert placed[..k + 1][..k] == placed[..k];
        var word := EncodeLine(placed[k].line, symbolTable);
        if word.Fail? {
          SecondPassFailPersists(placed, k + 1, symbolTable);
          return Fail(word.error);
        }
        code := code + [word.value];
      }
      assert placed[..|placed|] == placed;
      r := Ok(code);
    }
  }

  /** An exception on some placed line ends the whole second pass. */
  lemma {:induction false} SecondPassFailPersists(placed: seq<Placed>, i: nat, symbols: map<string, int>)
    requires i <= |placed| && SecondPassSpec(placed[..i], symbols).Fail?
    ensures SecondPassSpec(placed, symbols) == SecondPassSpec(placed[..i], symbols)
    decreases |placed| - i
  {
    if i < |placed| {
      assert placed[..i + 1][..i] == placed[..i];
      SecondPassFailPersists(placed, i + 1, symbols);
    } else {
      assert placed[..i] == placed;
    }
  }
}
