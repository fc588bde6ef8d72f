/**
 * Character classes, ASCII case folding, decimal formatting and
 * whitespace splitting, as the client uses them from Go's regexp,
 * fmt and strings packages. Everything is restricted to ASCII.
 */
module Ascii {
  import opened Wrappers

  /** RE2's `\s`: tab, newline, form feed, carriage return and space (no vertical tab). */
  predicate IsRegexSpace(c: char) {
    c == '\t' || c == '\n' || c == '\U{C}' || c == '\r' || c == ' '
  }

  /** The ASCII white space of `strings.Fields`: RE2's `\s` plus vertical tab. */
  predicate IsFieldSpace(c: char) {
    IsRegexSpace(c) || c == '\U{B}'
  }

  /** Simple ASCII case folding to lower case. */
  function Lower(c: char): (r: char)
    ensures !('A' <= r <= 'Z')
    ensures 'A' <= c <= 'Z' ==> 'a' <= r <= 'z' && r as int - 'a' as int == c as int - 'A' as int
    ensures !('A' <= c <= 'Z') ==> r == c
  {
    if 'A' <= c <= 'Z' then (c as int + 32) as char else c
  }

  /** `s` starts with the lower-case keyword `kw`, letters compared case-insensitively (RE2's `(?i)`). */
  predicate FoldPrefix(s: string, kw: string) {
    |kw| <= |s| && forall i :: 0 <= i < |kw| ==> Lower(s[i]) == kw[i]
  }

  lemma FoldAt(s: string, kw: string, i: nat)
    requires FoldPrefix(s, kw) && i < |kw|
    ensures Lower(s[i]) == kw[i]
  {
  }

  // ---------------------------------------------------------------- decimal

  predicate IsDigit(c: char) {
    '0' <= c <= '9'
  }

  predicate AllDigits(s: string) {
    forall i :: 0 <= i < |s| ==> IsDigit(s[i])
  }

  function DigitChar(d: nat): (c: char)
    requires d < 10
    ensures IsDigit(c) && c as int - '0' as int == d
  {
    "0123456789"[d]
  }

  function DigitValue(c: char): nat
    requires IsDigit(c)
  {
    c as int - '0' as int
  }

  /** The decimal digits of `n`, most significant first, without leading zeros. */
  function NatString(n: nat): (r: string)
    ensures |r| >= 1 && AllDigits(r)
    ensures n >= 10 ==> r[0] != '0'
  {
    if n < 10 then [DigitChar(n)] else NatString(n / 10) + [DigitChar(n % 10)]
  }

  /** Go's `%d`: a minus sign for negative numbers, then the digits of the magnitude. */
  function Decimal(n: int): (r: string)
    ensures |r| >= 1
    ensures forall i :: 0 <= i < |r| ==> IsDigit(r[i]) || r[i] == '-'
  {
    if n < 0 then "-" + NatString(-n) else NatString(n)
  }

  function ParseNat(s: string): nat
    requires AllDigits(s)
  {
    if s == [] then 0 else ParseNat(s[..|s| - 1]) * 10 + DigitValue(s[|s| - 1])
  }

  /** Reads back an optional minus sign followed by at least one digit. */
  function ParseInt(s: string): Option<int> {
    if |s| >= 2 && s[0] == '-' && AllDigits(s[1..]) then
      var m: int := ParseNat(s[1..]);
      Some(-m)
    else if |s| >= 1 && AllDigits(s) then
      var m: int := ParseNat(s);
      Some(m)
    else None
  }

  lemma {:induction false} ParseNatString(n: nat)
    ensures ParseNat(NatString(n)) == n
  {
    if n >= 10 {
      var s := NatString(n);
      assert s[..|s| - 1] == NatString(n / 10);
      ParseNatString(n / 10);
    }
  }

  /** `Decimal` loses nothing: parsing its text gives the number back. */
  lemma DecimalRoundTrip(n: int)
    ensures ParseInt(Decimal(n)) == Some(n)
  {
    var s := Decimal(n);
    if n < 0 {
      var m: nat := -n;
      ParseNatString(m);
      assert s[1..] == NatString(m);
      assert ParseInt(s) == Some(n);
    } else {
      ParseNatString(n);
      assert IsDigit(s[0]);
      assert ParseInt(s) == Some(ParseNat(s));
    }
  }

  // ---------------------------------------------------------------- lines

  /** Index of the first newline in `t`, or `|t|` when there is none. */
  function FirstNewline(t: string): (k: nat)
    ensures k <= |t|
    ensures forall i :: 0 <= i < k ==> t[i] != '\n'
    ensures k < |t| ==> t[k] == '\n'
  {
    if t == [] then 0 else if t[0] == '\n' then 0 else 1 + FirstNewline(t[1..])
  }

  // ---------------------------------------------------------------- fields

  predicate NoFieldSpace(w: string) {
    forall i :: 0 <= i < |w| ==> !IsFieldSpace(w[i])
  }

  /** Length of the leading run of non-space characters. */
  function WordLength(s: string): (n: nat)
    ensures n <= |s|
    ensures forall i :: 0 <= i < n ==> !IsFieldSpace(s[i])
    ensures n < |s| ==> IsFieldSpace(s[n])
  {
    if s == [] || IsFieldSpace(s[0]) then 0 else 1 + WordLength(s[1..])
  }

  /** `strings.Fields`: the maximal runs of non-space characters, in order. */
  function Fields(s: string): (r: seq<string>)
    ensures forall k :: 0 <= k < |r| ==> r[k] != [] && NoFieldSpace(r[k])
    decreases |s|
  {
    if s == [] then []
    else if IsFieldSpace(s[0]) then Fields(s[1..])
    else
      var n := WordLength(s);
      [s[..n]] + Fields(s[n..])
  }

  function Concat(ws: seq<string>): string {
    if ws == [] then [] else ws[0] + Concat(ws[1..])
  }

  /** The characters of `s` that are not white space, in order. */
  function NonSpace(s: string): string {
    if s == [] then []
    else if IsFieldSpace(s[0]) then NonSpace(s[1..])
    else [s[0]] + NonSpace(s[1..])
  }

  lemma {:induction false} NonSpaceOfWord(s: string, n: nat)
    requires n <= |s|
    requires forall i :: 0 <= i < n ==> !IsFieldSpace(s[i])
    ensures NonSpace(s) == s[..n] + NonSpace(s[n..])
  {
    if n > 0 {
      NonSpaceOfWord(s[1..], n - 1);
      assert s[1..][n - 1..] == s[n..];
      assert [s[0]] + s[1..][..n - 1] == s[..n];
    }
  }

  /** No character is lost or invented: the fields hold exactly the non-space characters. */
  lemma {:induction false} FieldsKeepNonSpace(s: string)
    ensures Concat(Fields(s)) == NonSpace(s)
    decreases |s|
  {
    if s == [] {
    } else if IsFieldSpace(s[0]) {
      FieldsKeepNonSpace(s[1..]);
    } else {
      var n := WordLength(s);
      FieldsKeepNonSpace(s[n..]);
      NonSpaceOfWord(s, n);
      assert Fields(s) == [s[..n]] + Fields(s[n..]);
      assert ([s[..n]] + Fields(s[n..]))[1..] == Fields(s[n..]);
    }
  }

  /** A line has no fields exactly when it is all white space (the shell branch then indexes past the end). */
  lemma {:induction false} FieldsEmptyIff(s: string)
    ensures Fields(s) == [] <==> forall i :: 0 <= i < |s| ==> IsFieldSpace(s[i])
    decreases |s|
  {
    if s != [] && IsFieldSpace(s[0]) {
      FieldsEmptyIff(s[1..]);
      assert forall i :: 1 <= i < |s| ==> s[i] == s[1..][i - 1];
    }
  }

  /** Splitting at one white-space character splits the fields. */
  lemma {:induction false} FieldsAtSpace(a: string, c: char, b: string)
    requires IsFieldSpace(c)
    ensures Fields(a + [c] + b) == Fields(a) + Fields(b)
    decreases |a|
  {
    var s := a + [c] + b;
    if a == [] {
      assert s[1..] == b;
    } else if IsFieldSpace(a[0]) {
      assert s[1..] == a[1..] + [c] + b;
      FieldsAtSpace(a[1..], c, b);
    } else {
      var n := WordLength(a);
      WordLengthExtends(a, n, [c] + b);
      assert s == a + ([c] + b);
      assert s[..n] == a[..n];
      if n < |a| {
        assert s[n..] == a[n..] + [c] + b;
        FieldsAtSpace(a[n..], c, b);
      } else {
        assert s[n..] == [c] + b;
        assert ([c] + b)[1..] == b;
        assert a[n..] == [];
      }
    }
  }

  /** A word without white space is one field, itself. */
  lemma FieldsOfWord(w: string)
    requires w != [] && NoFieldSpace(w)
    ensures Fields(w) == [w]
  {
    WordLengthAll(w);
    assert w[..|w|] == w && w[|w|..] == [];
  }

  lemma {:induction false} WordLengthAll(w: string)
    requires NoFieldSpace(w)
    ensures WordLength(w) == |w|
  {
    if w != [] {
      assert NoFieldSpace(w[1..]) by {
        forall i | 0 <= i < |w[1..]| ensures !IsFieldSpace(w[1..][i]) {
          assert w[1..][i] == w[i + 1];
        }
      }
      WordLengthAll(w[1..]);
    }
  }

  /** Two words around one white-space character are two fields. */
  lemma TwoFields(a: string, c: char, b: string)
    requires a != [] && NoFieldSpace(a) && IsFieldSpace(c) && b != [] && NoFieldSpace(b)
    ensures Fields(a + [c] + b) == [a, b]
  {
    FieldsAtSpace(a, c, b);
    FieldsOfWord(a);
    FieldsOfWord(b);
  }

  /** `strings.Fields("ls -la")` is `["ls", "-la"]`: the text is split at the white space. */
  lemma FieldsExample(s: string)
    requires s == "ls -la"
    ensures Fields(s) == ["ls", "-la"]
  {
    var a, b := "ls", "-la";
    assert s == a + [' '] + b;
    TwoFields(a, ' ', b);
  }

  lemma {:induction false} WordLengthExtends(a: string, n: nat, rest: string)
    requires n == WordLength(a)
    requires n < |a| || (rest != [] && IsFieldSpace(rest[0]))
    ensures WordLength(a + rest) == n
    decreases |a|
  {
    if a != [] && !IsFieldSpace(a[0]) {
      assert (a + rest)[1..] == a[1..] + rest;
      WordLengthExtends(a[1..], n - 1, rest);
    }
  }
}
