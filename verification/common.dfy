/** Values shared by every part of the model: optional values, results,
    digit strings (the `Number`/`parseInt`/template-literal conversions of
    the JavaScript source), flattening of sequences and ASCII lower-casing. */
module Common {

  datatype Option<+T> = None | Some(value: T)

  datatype Result<+T, +E> = Ok(value: T) | Err(error: E)

  // ---------------------------------------------------------------
  // Digits in base 2..16
  // ---------------------------------------------------------------

  /** The value of one digit character, as `parseInt` reads it
      (upper- and lower-case hexadecimal letters). */
  function DigitValue(c: char): (d: Option<nat>)
    ensures d.Some? ==> d.value < 16
  {
    if '0' <= c <= '9' then Some(c as nat - '0' as nat)
    else if 'a' <= c <= 'f' then Some(c as nat - 'a' as nat + 10)
    else if 'A' <= c <= 'F' then Some(c as nat - 'A' as nat + 10)
    else None
  }

  function DigitChar(d: nat): (c: char)
    requires d < 16
    ensures DigitValue(c) == Some(d)
  {
    if d < 10 then ('0' as nat + d) as char else ('a' as nat + d - 10) as char
  }

  /** Strict reading of a whole string of digits in `base`; `None` stands
      for the `NaN` that JavaScript produces for anything else. */
  function ParseBase(s: string, base: nat): Option<nat>
    decreases |s|
  {
    if s == [] then None
    else
      var d := DigitValue(s[|s| - 1]);
      if d.None? || d.value >= base then None
      else if |s| == 1 then Some(d.value)
      else
        match ParseBase(s[..|s| - 1], base)
        case None => None
        case Some(v) => Some(v * base + d.value)
  }

  /** A string is read exactly when it is a non-empty string of digits of
      the base. */
  lemma {:induction false} ParseBaseAccepts(s: string, base: nat)
    ensures ParseBase(s, base).Some? <==>
              s != [] && forall i :: 0 <= i < |s| ==> DigitValue(s[i]).Some? && DigitValue(s[i]).value < base
    decreases |s|
  {
    if |s| > 1 {
      var init := s[..|s| - 1];
      ParseBaseAccepts(init, base);
      assert forall i :: 0 <= i < |init| ==> init[i] == s[i];
    }
  }

  /** The digits of `n` in `base`, most significant first, no leading zero. */
  function ToBase(n: nat, base: nat): (s: string)
    requires 2 <= base <= 16
    decreases n
  {
    if n < base then [DigitChar(n)] else ToBase(n / base, base) + [DigitChar(n % base)]
  }

  /** Reading one more digit multiplies by the base and adds it. */
  lemma ParseBaseSnoc(p: string, c: char, base: nat)
    requires ParseBase(p, base).Some?
    requires DigitValue(c).Some? && DigitValue(c).value < base
    ensures ParseBase(p + [c], base) == Some(ParseBase(p, base).value * base + DigitValue(c).value)
  {
    var s := p + [c];
    assert s[..|s| - 1] == p;
    assert s[|s| - 1] == c;
  }

  lemma DivMod(n: nat, base: nat)
    requires base > 0
    ensures (n / base) * base + n % base == n
  {
  }

  lemma {:induction false} ParseToBase(n: nat, base: nat)
    requires 2 <= base <= 16
    ensures ParseBase(ToBase(n, base), base) == Some(n)
    decreases n
  {
    if n >= base {
      var q, r := n / base, n % base;
      assert q < n by { DivSmaller(n, base); }
      ParseToBase(q, base);
      assert ToBase(n, base) == ToBase(q, base) + [DigitChar(r)];
      ParseBaseSnoc(ToBase(q, base), DigitChar(r), base);
      DivMod(n, base);
    }
  }

  /** Decimal rendering of a natural number (`${n}` in a template literal). */
  function NatToString(n: nat): (s: string)
    ensures |s| > 0 && '0' <= s[0] <= '9'
    ensures ParseBase(s, 10) == Some(n)
  {
    ParseToBase(n, 10);
    ToBaseStartsWithDigit(n, 10);
    ToBase(n, 10)
  }

  lemma {:induction false} ToBaseStartsWithDigit(n: nat, base: nat)
    requires 2 <= base <= 10
    ensures |ToBase(n, base)| > 0 && '0' <= ToBase(n, base)[0] <= '9'
    decreases n
  {
    if n >= base {
      var q := n / base;
      assert q < n by { DivSmaller(n, base); }
      ToBaseStartsWithDigit(q, base);
      var p := ToBase(q, base);
      assert ToBase(n, base) == p + [DigitChar(n % base)];
      assert ToBase(n, base)[0] == p[0];
    } else {
      DecimalDigitChar(n);
      assert ToBase(n, base) == [DigitChar(n)];
    }
  }

  lemma DivSmaller(n: nat, base: nat)
    requires 2 <= base <= n
    ensures n / base < n
  {
    DivMod(n, base);
    assert (n / base) * base >= (n / base) * 2;
  }

  lemma DecimalDigitChar(d: nat)
    requires d < 10
    ensures '0' <= DigitChar(d) <= '9'
  {
  }

  /** Distinct numbers get distinct decimal strings. */
  lemma NatToStringInjective(a: nat, b: nat)
    requires NatToString(a) == NatToString(b)
    ensures a == b
  {
    assert Some(a) == ParseBase(NatToString(a), 10) == ParseBase(NatToString(b), 10) == Some(b);
  }

  /** Decimal rendering of an integer, with a leading '-' when negative. */
  function IntToString(i: int): (s: string)
    ensures i >= 0 ==> s == NatToString(i)
    ensures i < 0 ==> s == "-" + NatToString(-i)
  {
    if i < 0 then "-" + NatToString(-i) else NatToString(i)
  }

  /** The rendering starts with '-' exactly for negative numbers, and
      distinct integers get distinct strings. */
  lemma IntToStringInjective(i: int, j: int)
    ensures |IntToString(i)| > 0 && (IntToString(i)[0] == '-' <==> i < 0)
    ensures IntToString(i) == IntToString(j) ==> i == j
  {
    if IntToString(i) == IntToString(j) {
      if i < 0 && j < 0 {
        assert IntToString(i)[1..] == NatToString(-i);
        assert IntToString(j)[1..] == NatToString(-j);
        NatToStringInjective(-i, -j);
      } else if i >= 0 && j >= 0 {
        NatToStringInjective(i, j);
      }
    }
  }

  // ---------------------------------------------------------------
  // Flattening (the spread `push(...xs)` and `flatMap`)
  // ---------------------------------------------------------------

  function Flatten<T>(ss: seq<seq<T>>): (r: seq<T>)
    decreases |ss|
  {
    if ss == [] then [] else Flatten(ss[..|ss| - 1]) + ss[|ss| - 1]
  }

  lemma FlattenSnoc<T>(ss: seq<seq<T>>, s: seq<T>)
    ensures Flatten(ss + [s]) == Flatten(ss) + s
  {
    assert (ss + [s])[..|ss|] == ss;
  }

  /** Extending a prefix of `s` by one element. */
  lemma PrefixSnoc<T>(done: seq<T>, s: seq<T>, j: nat)
    requires j < |s|
    ensures done + s[..j + 1] == (done + s[..j]) + [s[j]]
  {
    assert s[..j + 1] == s[..j] + [s[j]];
  }

  lemma {:induction false} FlattenAppend<T>(a: seq<seq<T>>, b: seq<seq<T>>)
    ensures Flatten(a + b) == Flatten(a) + Flatten(b)
    decreases |b|
  {
    if b == [] {
      assert a + b == a;
    } else {
      var b', x := b[..|b| - 1], b[|b| - 1];
      assert b == b' + [x];
      assert a + b == (a + b') + [x];
      calc {
        Flatten(a + b);
        { FlattenSnoc(a + b', x); }
        Flatten(a + b') + x;
        { FlattenAppend(a, b'); }
        (Flatten(a) + Flatten(b')) + x;
        Flatten(a) + (Flatten(b') + x);
        { FlattenSnoc(b', x); }
        Flatten(a) + Flatten(b);
      }
    }
  }

  // ---------------------------------------------------------------
  // Prefix / suffix as JavaScript's `substring` clamps them
  // ---------------------------------------------------------------

  function Min(a: int, b: int): int {
    if a <= b then a else b
  }

  /** `s.substring(0, k)`: the first `k` characters, or all of `s`. */
  function Take(s: string, k: nat): (r: string)
    ensures |r| == if k <= |s| then k else |s|
    ensures r <= s
  {
    if k <= |s| then s[..k] else s
  }

  /** `s.substring(s.length - k)`: the last `k` characters, or all of `s`. */
  function TakeLast(s: string, k: nat): (r: string)
    ensures |r| == if k <= |s| then k else |s|
    ensures exists p :: p + r == s
  {
    if k <= |s| then
      assert s[..|s| - k] + s[|s| - k..] == s;
      s[|s| - k..]
    else
      assert [] + s == s;
      s
  }

  // ---------------------------------------------------------------
  // Lower-casing
  // ---------------------------------------------------------------

  function LowerChar(c: char): (r: char)
    ensures !('A' <= r <= 'Z')
    ensures !('A' <= c <= 'Z') ==> r == c
  {
    if 'A' <= c <= 'Z' then (c as int - 'A' as int + 'a' as int) as char else c
  }

  /** `toLowerCase`, restricted to the ASCII letters. */
  function Lower(s: string): (r: string)
    ensures |r| == |s|
    ensures forall i :: 0 <= i < |s| ==> r[i] == LowerChar(s[i])
  {
    seq(|s|, i requires 0 <= i < |s| => LowerChar(s[i]))
  }
}
