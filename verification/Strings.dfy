/** The parts of Go's strings and strconv packages that the server's parsers rest on. */
module Strings {
  import opened Wrappers

  // ---------------------------------------------------------------- splitting and joining

  function Split(s: string, sep: char): (parts: seq<string>)
    ensures |parts| >= 1
  {
    if s == "" then [""]
    else
      var rest := Split(s[1..], sep);
      if s[0] == sep then [""] + rest else [[s[0]] + rest[0]] + rest[1..]
  }

  function Join(parts: seq<string>, sep: char): string {
    if parts == [] then ""
    else if |parts| == 1 then parts[0]
    else parts[0] + [sep] + Join(parts[1..], sep)
  }

  ghost predicate Free(parts: seq<string>, sep: char) {
    forall i :: 0 <= i < |parts| ==> sep !in parts[i]
  }

  lemma {:induction false} SplitOfPlain(s: string, sep: char)
    requires sep !in s
    ensures Split(s, sep) == [s]
  {
    if s != "" {
      SplitOfPlain(s[1..], sep);
      assert [s[0]] + s[1..] == s;
    }
  }

  /** Splitting at the first separator. */
  lemma {:induction false} SplitAtFirst(a: string, b: string, sep: char)
    requires sep !in a
    ensures Split(a + [sep] + b, sep) == [a] + Split(b, sep)
  {
    var s := a + [sep] + b;
    if a == "" {
      assert s[1..] == b;
    } else {
      assert s[1..] == a[1..] + [sep] + b;
      SplitAtFirst(a[1..], b, sep);
      assert [a[0]] + a[1..] == a;
    }
  }

  lemma {:induction false} SplitOfJoin(parts: seq<string>, sep: char)
    requires |parts| >= 1 && Free(parts, sep)
    ensures Split(Join(parts, sep), sep) == parts
  {
    if |parts| == 1 {
      SplitOfPlain(parts[0], sep);
    } else {
      assert Free(parts[1..], sep);
      SplitOfJoin(parts[1..], sep);
      SplitAtFirst(parts[0], Join(parts[1..], sep), sep);
      assert [parts[0]] + parts[1..] == parts;
    }
  }

  /** One more character in front of the first part. */
  lemma JoinOfLonger(c: char, parts: seq<string>, sep: char)
    requires |parts| >= 1
    ensures Join([[c] + parts[0]] + parts[1..], sep) == [c] + Join(parts, sep)
  {
    var longer := [[c] + parts[0]] + parts[1..];
    assert longer[1..] == parts[1..];
    if |parts| > 1 {
      assert ([c] + parts[0]) + [sep] + Join(parts[1..], sep) == [c] + (parts[0] + [sep] + Join(parts[1..], sep));
    }
  }

  lemma {:induction false} JoinOfSplit(s: string, sep: char)
    ensures Join(Split(s, sep), sep) == s
    ensures Free(Split(s, sep), sep)
  {
    if s != "" {
      JoinOfSplit(s[1..], sep);
      var rest := Split(s[1..], sep);
      assert s == [s[0]] + s[1..];
      if s[0] == sep {
        assert ([""] + rest)[1..] == rest;
        assert "" + [sep] + s[1..] == [sep] + s[1..];
      } else {
        JoinOfLonger(s[0], rest, sep);
      }
    }
  }

  // ---------------------------------------------------------------- white space

  /** unicode.IsSpace. */
  predicate IsSpace(c: char) {
    '\t' <= c <= '\r' || c == ' ' || c == '\U{85}' || c == '\U{A0}' || c == '\U{1680}'
    || '\U{2000}' <= c <= '\U{200A}' || c == '\U{2028}' || c == '\U{2029}' || c == '\U{202F}'
    || c == '\U{205F}' || c == '\U{3000}'
  }

  /** Spaces, tabs and line ends are white space; letters, digits and the punctuation of headers are not. */
  lemma WhiteSpace(c: char)
    ensures c == ' ' || c == '\t' || c == '\n' || c == '\r' ==> IsSpace(c)
    ensures '!' <= c <= '~' ==> !IsSpace(c)
  {
  }

  ghost predicate Blank(s: string) {
    forall i :: 0 <= i < |s| ==> IsSpace(s[i])
  }

  /** No white space at either end. */
  predicate Trimmed(s: string) {
    s != "" ==> !IsSpace(s[0]) && !IsSpace(s[|s| - 1])
  }

  function TrimLeft(s: string): string {
    if s != "" && IsSpace(s[0]) then TrimLeft(s[1..]) else s
  }

  function TrimRight(s: string): string {
    if s != "" && IsSpace(s[|s| - 1]) then TrimRight(s[..|s| - 1]) else s
  }

  function TrimSpace(s: string): string {
    TrimRight(TrimLeft(s))
  }

  lemma {:induction false} TrimLeftPadding(pre: string, s: string)
    requires Blank(pre)
    ensures TrimLeft(pre + s) == TrimLeft(s)
  {
    if pre == "" {
      assert pre + s == s;
    } else {
      assert (pre + s)[1..] == pre[1..] + s;
      TrimLeftPadding(pre[1..], s);
    }
  }

  lemma {:induction false} TrimRightPadding(s: string, post: string)
    requires Blank(post)
    ensures TrimRight(s + post) == TrimRight(s)
  {
    if post == "" {
      assert s + post == s;
    } else {
      var n := |post| - 1;
      assert (s + post)[..|s + post| - 1] == s + post[..n];
      TrimRightPadding(s, post[..n]);
    }
  }

  /** Padding with white space on both sides does not change what TrimSpace returns for trimmed text. */
  lemma TrimPadded(pre: string, core: string, post: string)
    requires Blank(pre) && Blank(post) && Trimmed(core)
    ensures TrimSpace(pre + core + post) == core
  {
    assert pre + core + post == pre + (core + post);
    TrimLeftPadding(pre, core + post);
    if core == "" {
      assert core + post == post + "";
      TrimLeftPadding(post, "");
    } else {
      assert (core + post)[0] == core[0];
      TrimRightPadding(core, post);
    }
  }

  /** TrimSpace takes exactly white space off both ends. */
  lemma {:induction false} TrimSpaceParts(s: string) returns (pre: string, post: string)
    ensures s == pre + TrimSpace(s) + post && Blank(pre) && Blank(post) && Trimmed(TrimSpace(s))
  {
    if s != "" && IsSpace(s[0]) {
      var p, q := TrimSpaceParts(s[1..]);
      assert s == [s[0]] + s[1..];
      pre, post := [s[0]] + p, q;
    } else if s != "" && IsSpace(s[|s| - 1]) {
      var n := |s| - 1;
      var p, q := TrimSpaceParts(s[..n]);
      assert s == s[..n] + [s[n]];
      if n > 0 {
        assert s[..n][0] == s[0];
      }
      assert TrimSpace(s) == TrimSpace(s[..n]);
      pre, post := p, q + [s[n]];
    } else {
      pre, post := "", "";
    }
  }

  // ---------------------------------------------------------------- decimal numbers

  predicate IsDigit(c: char) {
    '0' <= c <= '9'
  }

  ghost predicate AllDigits(s: string) {
    forall i :: 0 <= i < |s| ==> IsDigit(s[i])
  }

  function DigitsOnly(s: string): (b: bool)
    ensures b <==> AllDigits(s)
  {
    s == "" || (IsDigit(s[0]) && DigitsOnly(s[1..]))
  }

  function Value(s: string): nat
    requires AllDigits(s)
  {
    if s == "" then 0 else 10 * Value(s[..|s| - 1]) + (s[|s| - 1] as int - '0' as int)
  }

  /** Decimal notation, as fmt prints it. */
  function Decimal(n: nat): (s: string)
    ensures s != "" && AllDigits(s)
  {
    if n < 10 then [('0' as int + n) as char] else Decimal(n / 10) + [('0' as int + n % 10) as char]
  }

  lemma {:induction false} ValueOfDecimal(n: nat)
    ensures Value(Decimal(n)) == n
  {
    var s := Decimal(n);
    if n < 10 {
      assert s[..|s| - 1] == "";
    } else {
      ValueOfDecimal(n / 10);
      assert s[..|s| - 1] == Decimal(n / 10);
    }
  }

  newtype int64 = x: int | -0x8000_0000_0000_0000 <= x < 0x8000_0000_0000_0000

  const INT64_BOUND: nat := 0x8000_0000_0000_0000

  /** strconv.ParseInt(s, 10, 64): an optional sign, decimal digits, and a value that fits; None is any error. */
  function ParseInt(s: string): Option<int64> {
    if s == "" then None
    else
      var signed := s[0] == '+' || s[0] == '-';
      var digits := if signed then s[1..] else s;
      if digits == "" || !DigitsOnly(digits) then None
      else if s[0] == '-' then
        if Value(digits) > INT64_BOUND then None else Some((0 - Value(digits)) as int64)
      else
        if Value(digits) >= INT64_BOUND then None else Some(Value(digits) as int64)
  }

  lemma ParseIntOfDecimal(n: nat)
    requires n < INT64_BOUND
    ensures ParseInt(Decimal(n)) == Some(n as int64)
  {
    var s := Decimal(n);
    ValueOfDecimal(n);
    assert IsDigit(s[0]);
  }

  lemma DecimalIsTrimmed(n: nat)
    ensures Trimmed(Decimal(n)) && '-' !in Decimal(n) && ',' !in Decimal(n)
  {
  }

  /** Decimal notation, digit by digit. */
  lemma DecimalDigits(n: nat, d: nat)
    requires d < 10
    ensures Decimal(d) == ["0123456789"[d]]
    ensures n > 0 ==> Decimal(10 * n + d) == Decimal(n) + ["0123456789"[d]]
  {
  }

  /** A sign is allowed before the digits, and nothing else. */
  lemma SignedDecimal(n: nat)
    requires n < INT64_BOUND
    ensures ParseInt("+" + Decimal(n)) == Some(n as int64) && ParseInt("-" + Decimal(n)) == Some((0 - n) as int64)
  {
    ValueOfDecimal(n);
    assert ("+" + Decimal(n))[1..] == Decimal(n) && ("-" + Decimal(n))[1..] == Decimal(n);
  }

  /** Text with a character that is no digit after its first is no number, nor is one that is too large. */
  lemma NotANumber(s: string, i: nat, n: nat)
    requires 0 < i < |s| && !('0' <= s[i] <= '9') && 0x8000_0000_0000_0000 <= n
    ensures ParseInt(s) == None && ParseInt(Decimal(n)) == None && ParseInt("") == None
  {
    ValueOfDecimal(n);
    assert IsDigit(Decimal(n)[0]);
    if s[0] == '+' || s[0] == '-' {
      assert s[1..][i - 1] == s[i];
    }
  }
}
