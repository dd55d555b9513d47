/**
 * Uniform names. The renderer passes glGetUniformLocation either a fixed
 * name ("material.diffuse") or one built with an f-string,
 * `f"{array}[{index}].{field}"`, where `{index}` is Python's decimal
 * rendering of a non-negative int. The log keeps a name as a value of
 * `UniformName`; `Text` is the string the program actually passes. The
 * point of this module is that the string determines the value, so two
 * writes that differ as values never reach the same uniform.
 */
module UniformNames {

  datatype UniformName =
    | Named(name: string)
    | Element(arrayName: string, index: nat, field: string)

  /** The string handed to glGetUniformLocation. */
  function Text(n: UniformName): string {
    match n
    case Named(name) => name
    case Element(a, i, f) => Indexed(a, i, f)
  }

  predicate NoBracket(s: string) {
    forall k :: 0 <= k < |s| ==> s[k] != '['
  }

  /** Names as the renderer writes them: no '[' outside the index brackets. */
  predicate WellFormed(n: UniformName) {
    match n
    case Named(name) => NoBracket(name)
    case Element(a, _, _) => NoBracket(a)
  }

  function DigitChar(d: nat): (c: char)
    requires d < 10
    ensures IsDigit(c)
  {
    "0123456789"[d]
  }

  predicate IsDigit(c: char) {
    '0' <= c <= '9'
  }

  predicate AllDigits(s: string) {
    forall k :: 0 <= k < |s| ==> IsDigit(s[k])
  }

  /** str(n) for n >= 0: most significant digit first, no leading zeros. */
  function Decimal(n: nat): (s: string)
    ensures |s| >= 1 && AllDigits(s)
    ensures |s| > 1 ==> s[0] != '0'
  {
    if n < 10 then [DigitChar(n)] else Decimal(n / 10) + [DigitChar(n % 10)]
  }

  /** The value of a string of decimal digits (int(s) in Python). */
  function DecimalValue(s: string): nat {
    if s == [] then 0
    else DecimalValue(s[..|s| - 1]) * 10 + ((s[|s| - 1] as int - '0' as int) % 10)
  }

  /** A digit character stands for its digit. */
  lemma DigitValue(d: nat)
    requires d < 10
    ensures (DigitChar(d) as int - '0' as int) % 10 == d
  {
  }

  lemma {:induction false} DecimalRoundTrip(n: nat)
    ensures DecimalValue(Decimal(n)) == n
  {
    var s := Decimal(n);
    if n < 10 {
      DigitValue(n);
      assert s == [DigitChar(n)];
      assert s[..|s| - 1] == [];
    } else {
      var d := Decimal(n / 10);
      DigitValue(n % 10);
      assert s == d + [DigitChar(n % 10)];
      assert s[..|s| - 1] == d;
      DecimalRoundTrip(n / 10);
      assert DecimalValue(s) == DecimalValue(d) * 10 + n % 10;
    }
  }

  lemma DecimalInjective(m: nat, n: nat)
    requires Decimal(m) == Decimal(n)
    ensures m == n
  {
    DecimalRoundTrip(m);
    DecimalRoundTrip(n);
  }

  /** f"{array}[{index}].{field}" */
  function Indexed(arrayName: string, index: nat, field: string): string {
    arrayName + "[" + Decimal(index) + "]." + field
  }

  /**
   * Two names built over the same array name are equal only when they have
   * the same index and the same field.
   */
  lemma {:induction false} IndexedInjective(arrayName: string, i: nat, f: string, j: nat, g: string)
    requires Indexed(arrayName, i, f) == Indexed(arrayName, j, g)
    ensures i == j && f == g
  {
    var di, dj := Decimal(i), Decimal(j);
    var p := |arrayName| + 1;
    var s := Indexed(arrayName, i, f);
    var t := Indexed(arrayName, j, g);
    assert s[p..] == di + "]." + f;
    assert t[p..] == dj + "]." + g;
    var u := s[p..];
    if |di| < |dj| {
      BracketAfter(di, f);
      assert false;
    } else if |dj| < |di| {
      BracketAfter(dj, g);
      assert false;
    }
    assert di == u[..|di|] == dj;
    DecimalInjective(i, j);
    assert f == u[|di| + 2..] == g;
  }

  /** The closing bracket of an indexed name sits right after the digits. */
  lemma BracketAfter(digits: string, field: string)
    ensures (digits + "]." + field)[|digits|] == ']'
  {
  }

  /** The array name of an indexed name is everything before its first '['. */
  lemma {:induction false} ArrayNameDetermined(a: string, i: nat, f: string, b: string, j: nat, g: string)
    requires NoBracket(a) && NoBracket(b)
    requires Indexed(a, i, f) == Indexed(b, j, g)
    ensures a == b
  {
    var s := Indexed(a, i, f);
    var x, y := Decimal(i) + "]." + f, Decimal(j) + "]." + g;
    assert s == a + ("[" + x);
    assert s == b + ("[" + y);
    if |a| < |b| {
      OpenBracketAfter(a, x);
      assert false;
    } else if |b| < |a| {
      OpenBracketAfter(b, y);
      assert false;
    }
    assert a == s[..|a|] == b;
  }

  lemma OpenBracketAfter(a: string, rest: string)
    ensures (a + ("[" + rest))[|a|] == '['
  {
  }

  /**
   * Well-formed names that differ as values differ as strings, so the
   * program sees two different uniforms.
   */
  lemma TextInjective(m: UniformName, n: UniformName)
    requires WellFormed(m) && WellFormed(n)
    requires Text(m) == Text(n)
    ensures m == n
  {
    match m
    case Named(x) =>
      if n.Element? {
        var y := Decimal(n.index) + "]." + n.field;
        assert Text(n) == n.arrayName + ("[" + y);
        OpenBracketAfter(n.arrayName, y);
        assert false;
      }
    case Element(a, i, f) =>
      if n.Named? {
        var x := Decimal(i) + "]." + f;
        assert Text(m) == a + ("[" + x);
        OpenBracketAfter(a, x);
        assert false;
      } else {
        ArrayNameDetermined(a, i, f, n.arrayName, n.index, n.field);
        IndexedInjective(a, i, f, n.index, n.field);
      }
  }
}
