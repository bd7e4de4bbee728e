/** Small datatypes and text functions shared by the models. */
module Wrappers {
  datatype Option<+T> = None | Some(value: T)

  datatype Result<+T, +E> = Ok(value: T) | Err(error: E)
}

/** Positional numerals: decimal locktimes, hexadecimal chunk sizes and signer identifiers. */
module Numerals {
  import opened Wrappers

  /** The value of one digit; letters of either case count. */
  function DigitValue(c: char): (v: Option<nat>)
    ensures v.Some? ==> v.value < 16
  {
    if '0' <= c <= '9' then Some(c as int - '0' as int)
    else if 'a' <= c <= 'f' then Some(c as int - 'a' as int + 10)
    else if 'A' <= c <= 'F' then Some(c as int - 'A' as int + 10)
    else None
  }

  /** Digits print in lower case. */
  function DigitChar(d: nat): (c: char)
    requires d < 16
    ensures DigitValue(c) == Some(d)
  {
    if d < 10 then ('0' as int + d) as char else ('a' as int + d - 10) as char
  }

  predicate IsDigit(c: char, base: nat) {
    DigitValue(c).Some? && DigitValue(c).value < base
  }

  predicate AllDigits(s: string, base: nat) {
    forall i :: 0 <= i < |s| ==> IsDigit(s[i], base)
  }

  /** The shortest numeral of n. */
  function Numeral(n: nat, base: nat): string
    requires 2 <= base <= 16
    decreases n
  {
    if n < base then [DigitChar(n)] else Numeral(n / base, base) + [DigitChar(n % base)]
  }

  function Value(s: string, base: nat): nat
    requires AllDigits(s, base)
  {
    if |s| == 0 then 0
    else
      var last := s[|s| - 1];
      assert IsDigit(last, base);
      Value(s[..|s| - 1], base) * base + DigitValue(last).value
  }

  /** Parse a numeral; anything else is refused. */
  function Parse(s: string, base: nat): Option<nat> {
    if |s| > 0 && AllDigits(s, base) then Some(Value(s, base)) else None
  }

  /** One more digit on the right. */
  lemma ParseSnoc(s: string, c: char, base: nat)
    requires AllDigits(s, base) && IsDigit(c, base)
    ensures AllDigits(s + [c], base)
    ensures Value(s + [c], base) == Value(s, base) * base + DigitValue(c).value
  {
    assert (s + [c])[..|s|] == s;
  }

  lemma QuotientAndRemainder(n: nat, base: nat)
    requires 2 <= base <= n
    ensures n / base < n && n / base * base + n % base == n
  {
  }

  lemma {:induction false} NumeralRoundTrip(n: nat, base: nat)
    requires 2 <= base <= 16
    ensures Parse(Numeral(n, base), base) == Some(n)
    decreases n
  {
    if n < base {
      ParseSnoc("", DigitChar(n), base);
      assert "" + [DigitChar(n)] == Numeral(n, base);
    } else {
      var q, r := n / base, n % base;
      QuotientAndRemainder(n, base);
      NumeralRoundTrip(q, base);
      ParseSnoc(Numeral(q, base), DigitChar(r), base);
    }
  }

  function Zeros(n: nat): (s: string)
    ensures |s| == n && forall i :: 0 <= i < n ==> s[i] == '0'
  {
    seq(n, _ => '0')
  }

  lemma {:induction false} LeadingZeros(zeros: nat, s: string, base: nat)
    requires 2 <= base && AllDigits(s, base)
    ensures AllDigits(Zeros(zeros) + s, base)
    ensures Value(Zeros(zeros) + s, base) == Value(s, base)
    decreases zeros + |s|
  {
    if |s| > 0 {
      var front, last := s[..|s| - 1], s[|s| - 1];
      assert IsDigit(last, base);
      LeadingZeros(zeros, front, base);
      ParseSnoc(Zeros(zeros) + front, last, base);
      assert Zeros(zeros) + s == Zeros(zeros) + front + [last];
    } else if zeros > 0 {
      LeadingZeros(zeros - 1, "", base);
      assert Zeros(zeros - 1) + "" == Zeros(zeros - 1);
      ParseSnoc(Zeros(zeros - 1), '0', base);
      assert Zeros(zeros) + s == Zeros(zeros - 1) + ['0'];
    }
  }
}

/** ASCII case folding and whitespace, as the sources use them on keys, hashes and header names. */
module Text {
  function LowerChar(c: char): char {
    if 'A' <= c <= 'Z' then (c as int + 32) as char else c
  }

  function Lower(s: string): (r: string)
    ensures |r| == |s|
  {
    seq(|s|, i requires 0 <= i < |s| => LowerChar(s[i]))
  }

  predicate IsSpace(c: char) {
    c == ' ' || 9 <= c as int <= 13
  }

  function TrimStart(s: string): string {
    if s != "" && IsSpace(s[0]) then TrimStart(s[1..]) else s
  }

  function TrimEnd(s: string): string {
    if s != "" && IsSpace(s[|s| - 1]) then TrimEnd(s[..|s| - 1]) else s
  }

  function Trim(s: string): string {
    TrimStart(TrimEnd(s))
  }

  predicate StartsWith(s: string, prefix: string) {
    prefix <= s
  }
}

/** First positions in a text. */
module Search {
  import opened Wrappers

  function First(n: nat, p: nat -> bool, from: nat): Option<nat>
    decreases n - from
  {
    if from >= n then None else if p(from) then Some(from) else First(n, p, from + 1)
  }

  lemma {:induction false} FirstIsFirst(n: nat, p: nat -> bool, from: nat)
    ensures var r := First(n, p, from);
      && (r.Some? ==> from <= r.value < n && p(r.value))
      && (forall i: nat :: from <= i < (if r.Some? then r.value else n) ==> !p(i))
    decreases n - from
  {
    if from < n && !p(from) {
      FirstIsFirst(n, p, from + 1);
    }
  }

  predicate CrlfAt(s: string, i: nat) { i + 1 < |s| && s[i] == '\r' && s[i + 1] == '\n' }

  function FindCrlf(s: string, from: nat): Option<nat> { First(|s|, (i: nat) => CrlfAt(s, i), from) }

  lemma FindCrlfMeans(s: string, from: nat)
    ensures var r := FindCrlf(s, from);
      && (r.Some? ==> from <= r.value && CrlfAt(s, r.value))
      && (forall i: nat :: from <= i && (r.Some? ==> i < r.value) ==> !CrlfAt(s, i))
  {
    var p := (i: nat) => CrlfAt(s, i);
    FirstIsFirst(|s|, p, from);
    forall i: nat | from <= i && (FindCrlf(s, from).Some? ==> i < FindCrlf(s, from).value)
      ensures !CrlfAt(s, i)
    {
      assert i < |s| ==> !p(i);
    }
  }
}

/** Sizes of finite sets. */
module Sets {
  lemma {:induction false} SubsetIsSmaller(a: set<string>, b: set<string>)
    requires a <= b
    ensures |a| <= |b|
    decreases |a|
  {
    if a != {} {
      var x :| x in a;
      SubsetIsSmaller(a - {x}, b - {x});
    }
  }
}
