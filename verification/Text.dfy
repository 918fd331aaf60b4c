/** Decimal text, comma lists, booleans and the byte order of strings, as the
    Go standard library defines them. */
module Text {
  import opened Prelude

  predicate InInt64(n: int) {
    -0x8000_0000_0000_0000 <= n <= 0x7fff_ffff_ffff_ffff
  }

  /** Conversion of an int to int32: two's-complement wrap-around. */
  function ToInt32(n: int): (r: int)
    ensures -0x8000_0000 <= r < 0x8000_0000
    ensures (r - n) % 0x1_0000_0000 == 0
    ensures -0x8000_0000 <= n < 0x8000_0000 ==> r == n
  {
    (n + 0x8000_0000) % 0x1_0000_0000 - 0x8000_0000
  }

  // ----- decimal numbers (strconv.Itoa, strconv.Atoi) -----

  predicate IsDigit(c: char) {
    '0' <= c <= '9'
  }

  predicate AllDigits(s: string) {
    forall i :: 0 <= i < |s| ==> IsDigit(s[i])
  }

  function DigitChar(d: nat): (c: char)
    requires d < 10
    ensures IsDigit(c) && c as int - '0' as int == d
  {
    ('0' as int + d) as char
  }

  function NatText(n: nat): (s: string)
    ensures s != [] && AllDigits(s)
  {
    if n < 10 then [DigitChar(n)] else NatText(n / 10) + [DigitChar(n % 10)]
  }

  function NatValue(s: string): nat
    requires AllDigits(s)
  {
    if s == [] then 0 else
      10 * NatValue(s[..|s| - 1]) + (s[|s| - 1] as int - '0' as int)
  }

  lemma {:induction false} NatValueOfText(n: nat)
    ensures NatValue(NatText(n)) == n
  {
    var s := NatText(n);
    if n < 10 {
      assert s[..0] == [];
    } else {
      NatValueOfText(n / 10);
      assert s[..|s| - 1] == NatText(n / 10);
    }
  }

  function Itoa(n: int): (s: string)
    ensures s != []
  {
    if n < 0 then "-" + NatText(-n) else NatText(n)
  }

  function Atoi(s: string): Result<int> {
    var negative := s != [] && s[0] == '-';
    var digits := if s != [] && (s[0] == '-' || s[0] == '+') then s[1..] else s;
    if digits == [] || !AllDigits(digits) then Err(Failure) else
    var n: int := if negative then 0 - NatValue(digits) else NatValue(digits);
    if InInt64(n) then Ok(n) else Err(Failure)
  }

  /** The decimal number, as one does it by hand: the sum of the digits by their place. */
  lemma {:induction false} NatValueStep(digits: string, c: char)
    requires AllDigits(digits) && IsDigit(c)
    ensures AllDigits(digits + [c]) && NatValue(digits + [c]) == 10 * NatValue(digits) + (c as int - '0' as int)
  {
    assert (digits + [c])[..|digits|] == digits;
  }

  /** Exactly what is a number: digits, at least one, after at most one sign, within 64 bits. */
  lemma AtoiUnsigned(text: string)
    requires text == "" || (text[0] != '+' && text[0] != '-')
    ensures Atoi(text) == if text != "" && AllDigits(text) && InInt64(NatValue(text)) then Ok(NatValue(text)) else Err(Failure)
  {
  }

  lemma AtoiSigned(text: string)
    ensures Atoi("+" + text) == if text != "" && AllDigits(text) && InInt64(NatValue(text)) then Ok(NatValue(text)) else Err(Failure)
    ensures Atoi("-" + text) == if text != "" && AllDigits(text) && InInt64(0 - NatValue(text)) then Ok(0 - NatValue(text)) else Err(Failure)
  {
    var plus, minus := "+" + text, "-" + text;
    assert plus[0] == '+' && plus[1..] == text && minus[0] == '-' && minus[1..] == text;
  }

  /** Printing and parsing are inverse on every 64-bit integer. */
  lemma AtoiOfItoa(n: int)
    ensures Atoi(Itoa(n)) == if InInt64(n) then Ok(n) else Err(Failure)
  {
    var digits := NatText(if n < 0 then -n else n);
    NatValueOfText(if n < 0 then -n else n);
    assert AllDigits(digits) && IsDigit(digits[0]);
    if n < 0 {
      assert Itoa(n)[1..] == digits;
    }
  }

  lemma ItoaInjective(m: int, n: int)
    requires Itoa(m) == Itoa(n)
    ensures m == n
  {
    var x, y: nat := if m < 0 then -m else m, if n < 0 then -n else n;
    NatValueOfText(x);
    NatValueOfText(y);
    assert IsDigit(NatText(x)[0]) && IsDigit(NatText(y)[0]);
    assert ("-" + NatText(x))[1..] == NatText(x) && ("-" + NatText(y))[1..] == NatText(y);
  }

  lemma ItoaHasNoSpace(n: int)
    ensures ' ' !in Itoa(n)
  {
    assert AllDigits(NatText(if n < 0 then -n else n));
  }

  // ----- comma separated lists (strings.Split) -----

  function Split(s: string): (r: seq<string>)
    ensures r != []
  {
    if s == [] then [[]]
    else
      var rest := Split(s[1..]);
      if s[0] == ',' then [[]] + rest else [[s[0]] + rest[0]] + rest[1..]
  }

  function AtoiAll(pieces: seq<string>): (r: Result<seq<int>>)
    ensures r.Ok? ==> |r.value| == |pieces| && forall i :: 0 <= i < |pieces| ==> Atoi(pieces[i]) == Ok(r.value[i])
    ensures r.Err? ==> r.error == Failure && exists i :: 0 <= i < |pieces| && Atoi(pieces[i]).Err?
  {
    if pieces == [] then Ok([]) else
    match Atoi(pieces[0]) {
      case Err(e) => Err(e)
      case Ok(n) =>
        match AtoiAll(pieces[1..]) {
          case Err(e) => Err(e)
          case Ok(ns) => Ok([n] + ns)
        }
    }
  }

  lemma AtoiAllSucceeds(pieces: seq<string>, numbers: seq<int>)
    requires |numbers| == |pieces| && forall i :: 0 <= i < |pieces| ==> Atoi(pieces[i]) == Ok(numbers[i])
    ensures AtoiAll(pieces) == Ok(numbers)
  {
    var r := AtoiAll(pieces);
    assert r.Ok?;
    forall i | 0 <= i < |pieces| ensures r.value[i] == numbers[i] {
      assert Ok(numbers[i]) == Atoi(pieces[i]) == Ok(r.value[i]);
    }
    assert r.value == numbers;
  }

  lemma AtoiAllFails(pieces: seq<string>, i: nat)
    requires i < |pieces| && Atoi(pieces[i]).Err?
    ensures AtoiAll(pieces) == Err(Failure)
  {
    assert AtoiAll(pieces).Err?;
  }

  /** The pieces with commas between them. */
  function Commas(pieces: seq<string>): string {
    if pieces == [] then "" else if |pieces| == 1 then pieces[0] else pieces[0] + "," + Commas(pieces[1..])
  }

  /** Splitting is the inverse of joining with commas, and no piece has a comma in it. */
  lemma {:induction false} SplitIsAtCommas(s: string)
    ensures Commas(Split(s)) == s && forall i :: 0 <= i < |Split(s)| ==> ',' !in Split(s)[i]
  {
    if s != [] {
      var rest := Split(s[1..]);
      SplitIsAtCommas(s[1..]);
      if s[0] == ',' {
        assert Split(s)[1..] == rest;
        assert Commas(Split(s)) == [] + "," + Commas(rest) == [s[0]] + s[1..];
      } else {
        assert Split(s)[1..] == rest[1..] && Split(s)[0] == [s[0]] + rest[0];
        assert |rest| > 1 ==> Commas(Split(s)) == [s[0]] + (rest[0] + "," + Commas(rest[1..]));
      }
      assert [s[0]] + s[1..] == s;
    }
  }

  // ----- booleans (strconv.ParseBool) -----

  function ParseBool(s: string): Result<bool> {
    if s in ["1", "t", "T", "true", "TRUE", "True"] then Ok(true)
    else if s in ["0", "f", "F", "false", "FALSE", "False"] then Ok(false)
    else Err(Failure)
  }

  // ----- byte order -----

  predicate LexLeq(a: string, b: string) {
    a == [] || (b != [] && (a[0] < b[0] || (a[0] == b[0] && LexLeq(a[1..], b[1..]))))
  }

  predicate SmallerAt(a: string, b: string, i: int) {
    0 <= i < |a| && i < |b| && a[..i] == b[..i] && a[i] < b[i]
  }

  lemma SmallerShift(a: string, b: string, i: int)
    requires a != [] && b != [] && a[0] == b[0] && 0 <= i
    ensures SmallerAt(a, b, i + 1) <==> SmallerAt(a[1..], b[1..], i)
  {
    if i < |a| - 1 && i < |b| - 1 {
      assert a[..i + 1] == [a[0]] + a[1..][..i] && b[..i + 1] == [b[0]] + b[1..][..i];
      assert a[..i + 1][1..] == a[1..][..i] && b[..i + 1][1..] == b[1..][..i];
    }
  }

  lemma PrefixShift(a: string, b: string)
    requires a != [] && b != [] && a[0] == b[0] && |a| <= |b|
    ensures b[..|a|] == a <==> b[1..][..|a| - 1] == a[1..]
  {
    assert b[..|a|] == [b[0]] + b[1..][..|a| - 1] && a == [a[0]] + a[1..];
    assert b[..|a|][1..] == b[1..][..|a| - 1];
  }

  lemma DifferentHeads(a: string, b: string)
    requires a != [] && b != [] && a[0] != b[0]
    ensures !(|a| <= |b| && b[..|a|] == a) && forall i :: SmallerAt(a, b, i) ==> i == 0
  {
    assert |a| <= |b| ==> b[..|a|][0] == b[0];
    forall i | 0 < i < |a| && i < |b| ensures a[..i] != b[..i] {
      assert a[..i][0] == a[0] && b[..i][0] == b[0];
    }
  }

  /** One text is a prefix of the other, or smaller where they first differ. */
  lemma {:induction false} LexLeqIff(a: string, b: string)
    ensures LexLeq(a, b) <==> (|a| <= |b| && b[..|a|] == a) || exists i :: SmallerAt(a, b, i)
  {
    if a != [] && b != [] {
      if a[0] == b[0] {
        LexLeqIff(a[1..], b[1..]);
        if |a| <= |b| {
          PrefixShift(a, b);
        }
        if i :| SmallerAt(a, b, i) {
          SmallerShift(a, b, i - 1);
        }
        if i :| SmallerAt(a[1..], b[1..], i) {
          SmallerShift(a, b, i);
        }
      } else {
        DifferentHeads(a, b);
        assert a[0] < b[0] ==> SmallerAt(a, b, 0);
      }
    }
  }

  lemma LexTotal(a: string, b: string)
    ensures LexLeq(a, b) || LexLeq(b, a)
  {
  }

  lemma {:induction false} LexTransitive(a: string, b: string, c: string)
    requires LexLeq(a, b) && LexLeq(b, c)
    ensures LexLeq(a, c)
  {
    if a != [] && a[0] == b[0] == c[0] {
      LexTransitive(a[1..], b[1..], c[1..]);
    }
  }

  lemma {:induction false} LexAntisymmetric(a: string, b: string)
    requires LexLeq(a, b) && LexLeq(b, a)
    ensures a == b
  {
    if a != [] {
      LexAntisymmetric(a[1..], b[1..]);
      assert a == [a[0]] + a[1..] && b == [b[0]] + b[1..];
    }
  }

  /** Two texts split at their first space: equal wholes have equal parts. */
  lemma {:induction false} FirstSpaceSplit(a: string, s: string, b: string, t: string)
    requires ' ' !in a && ' ' !in b
    requires s != [] && s[0] == ' ' && t != [] && t[0] == ' '
    requires a + s == b + t
    ensures a == b && s == t
  {
    assert (a + s)[|a|] == ' ' && (b + t)[|b|] == ' ';
    assert forall i :: 0 <= i < |a| ==> (a + s)[i] == a[i];
    assert forall i :: 0 <= i < |b| ==> (b + t)[i] == b[i];
    assert a == (a + s)[..|a|] && b == (b + t)[..|b|];
    assert s == (a + s)[|a|..] && t == (b + t)[|b|..];
  }
}
