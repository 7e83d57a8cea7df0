/**
 * The parts of Python's string built-ins that the interactive file
 * selection relies on: `str.strip()`, `str.split(sep)` and `int(s)` on a
 * decimal literal.  Each comes with an inverse or an independent reference
 * description and a lemma connecting the two.
 */
module Text {
  import opened Wrappers

  // ---------------------------------------------------------------------
  // Whitespace and str.strip()

  /** The characters for which Python's `str.isspace()` holds. */
  predicate IsSpace(c: char)
  {
    || c == ' '
    || ('\t' <= c <= '\r')                  // \t \n \x0b \x0c \r
    || ('\U{1C}' <= c <= '\U{1F}')          // file, group, record and unit separators
    || c == '\U{85}' || c == '\U{A0}' || c == '\U{1680}'
    || ('\U{2000}' <= c <= '\U{200A}')
    || c == '\U{2028}' || c == '\U{2029}' || c == '\U{202F}'
    || c == '\U{205F}' || c == '\U{3000}'
  }

  predicate AllSpace(s: string)
  {
    forall i :: 0 <= i < |s| ==> IsSpace(s[i])
  }

  /** The index of the first non-whitespace character at or after `i`
      (`|s|` when there is none): where `s.lstrip()` starts. */
  function SkipSpaces(s: string, i: nat): (k: nat)
    requires i <= |s|
    ensures i <= k <= |s|
    ensures forall j :: i <= j < k ==> IsSpace(s[j])
    ensures k == |s| || !IsSpace(s[k])
    decreases |s| - i
  {
    if i < |s| && IsSpace(s[i]) then SkipSpaces(s, i + 1) else i
  }

  /** The end of `s[lo..e]` once trailing whitespace is dropped: where
      `s.rstrip()` stops. */
  function SkipSpacesBack(s: string, lo: nat, e: nat): (k: nat)
    requires lo <= e <= |s|
    ensures lo <= k <= e
    ensures forall j :: k <= j < e ==> IsSpace(s[j])
    ensures k == lo || !IsSpace(s[k - 1])
  {
    if lo < e && IsSpace(s[e - 1]) then SkipSpacesBack(s, lo, e - 1) else e
  }

  /** `r` occurs in `s` at offset `k` with only whitespace around it. */
  predicate FramedAt(s: string, r: string, k: int)
  {
    0 <= k <= |s| - |r| && s[k..k + |r|] == r && AllSpace(s[..k]) && AllSpace(s[k + |r|..])
  }

  ghost predicate Framed(s: string, r: string)
  {
    exists k :: FramedAt(s, r, k)
  }

  /** `s.strip()`: `s` with whitespace removed from both ends. */
  function Strip(s: string): (r: string)
    ensures |r| <= |s|
    ensures r == [] <==> AllSpace(s)
    ensures r != [] ==> !IsSpace(r[0]) && !IsSpace(r[|r| - 1])
    ensures Framed(s, r)
  {
    var k := SkipSpaces(s, 0);
    var e := SkipSpacesBack(s, k, |s|);
    assert FramedAt(s, s[k..e], k) by {
      assert forall j :: 0 <= j < k ==> s[..k][j] == s[j];
      assert forall j :: 0 <= j < |s| - e ==> s[e..][j] == s[e + j];
    }
    assert k == e ==> AllSpace(s);
    s[k..e]
  }

  /** Stripping changes nothing when neither end is whitespace. */
  lemma StripUnpadded(s: string)
    requires s != [] && !IsSpace(s[0]) && !IsSpace(s[|s| - 1])
    ensures Strip(s) == s
  {
    assert SkipSpaces(s, 0) == 0;
    assert SkipSpacesBack(s, 0, |s|) == |s|;
  }

  /** Stripping recovers any unpadded text from whatever whitespace
      surrounds it. */
  lemma StripPadded(pre: string, core: string, post: string)
    requires AllSpace(pre) && AllSpace(post)
    requires core != [] && !IsSpace(core[0]) && !IsSpace(core[|core| - 1])
    ensures Strip(pre + core + post) == core
  {
    var s := pre + core + post;
    var k := |pre|;
    var e := |pre| + |core|;
    assert forall j :: 0 <= j < k ==> s[j] == pre[j];
    assert forall j :: e <= j < |s| ==> s[j] == post[j - e];
    assert s[k] == core[0] && s[e - 1] == core[|core| - 1];
    SkipSpacesTo(s, 0, k);
    SkipSpacesBackTo(s, k, e, |s|);
    assert s[k..e] == core;
  }

  lemma {:induction false} SkipSpacesTo(s: string, i: nat, k: nat)
    requires i <= k < |s| && !IsSpace(s[k])
    requires forall j :: i <= j < k ==> IsSpace(s[j])
    ensures SkipSpaces(s, i) == k
    decreases k - i
  {
    if i < k {
      SkipSpacesTo(s, i + 1, k);
    }
  }

  lemma {:induction false} SkipSpacesBackTo(s: string, lo: nat, k: nat, e: nat)
    requires lo < k <= e <= |s| && !IsSpace(s[k - 1])
    requires forall j :: k <= j < e ==> IsSpace(s[j])
    ensures SkipSpacesBack(s, lo, e) == k
    decreases e - k
  {
    if k < e {
      SkipSpacesBackTo(s, lo, k, e - 1);
    }
  }

  // ---------------------------------------------------------------------
  // str.split(sep) and its inverse sep.join(parts)

  /** `s.split(sep)` for a one-character separator: never empty, and an
      empty string splits into one empty piece. */
  function Split(s: string, sep: char): (r: seq<string>)
    ensures |r| >= 1
    ensures forall i :: 0 <= i < |r| ==> sep !in r[i]
  {
    if s == [] then [[]]
    else
      var rest := Split(s[1..], sep);
      if s[0] == sep then [[]] + rest
      else
        assert forall i :: 1 <= i < |rest| ==> sep !in rest[i];
        [[s[0]] + rest[0]] + rest[1..]
  }

  /** The first piece is the text up to the first separator. */
  lemma {:induction false} SplitFirstPrefix(s: string, sep: char)
    ensures Split(s, sep)[0] <= s
  {
    if s != [] && s[0] != sep {
      SplitFirstPrefix(s[1..], sep);
      assert s == [s[0]] + s[1..];
    }
  }

  /** `sep.join(parts)`. */
  function Join(parts: seq<string>, sep: char): string
    requires |parts| >= 1
  {
    if |parts| == 1 then parts[0] else parts[0] + [sep] + Join(parts[1..], sep)
  }

  lemma {:induction false} JoinSplit(s: string, sep: char)
    ensures Join(Split(s, sep), sep) == s
  {
    if s != [] {
      JoinSplit(s[1..], sep);
      var rest := Split(s[1..], sep);
      if s[0] != sep {
        var r := Split(s, sep);
        assert r[1..] == rest[1..];
        if |rest| == 1 {
          assert Join(r, sep) == [s[0]] + rest[0];
        } else {
          assert Join(r, sep) == [s[0]] + rest[0] + [sep] + Join(rest[1..], sep);
        }
      }
    }
  }

  /** Splitting a piece without separators in front of more text. */
  lemma {:induction false} SplitPrefix(p: string, t: string, sep: char)
    requires sep !in p
    ensures Split(p + t, sep) == [p + Split(t, sep)[0]] + Split(t, sep)[1..]
  {
    if p != [] {
      var q := p[1..] + t;
      assert (p + t)[0] == p[0] && (p + t)[1..] == q;
      SplitPrefix(p[1..], t, sep);
      var r := Split(t, sep);
      assert Split(p + t, sep) == [[p[0]] + Split(q, sep)[0]] + Split(q, sep)[1..];
      assert [p[0]] + (p[1..] + r[0]) == p + r[0];
    } else {
      var r := Split(t, sep);
      assert p + t == t;
      assert p + r[0] == r[0];
      assert [r[0]] + r[1..] == r;
    }
  }

  lemma {:induction false} SplitJoin(parts: seq<string>, sep: char)
    requires |parts| >= 1
    requires forall i :: 0 <= i < |parts| ==> sep !in parts[i]
    ensures Split(Join(parts, sep), sep) == parts
  {
    if |parts| == 1 {
      SplitPrefix(parts[0], [], sep);
      assert parts[0] + [] == parts[0];
      assert Split([], sep) == [[]];
    } else {
      var tail := Join(parts[1..], sep);
      SplitJoin(parts[1..], sep);
      assert Join(parts, sep) == parts[0] + ([sep] + tail);
      SplitPrefix(parts[0], [sep] + tail, sep);
      assert ([sep] + tail)[1..] == tail;
      assert Split([sep] + tail, sep) == [[]] + parts[1..];
      assert parts[0] + [] == parts[0];
      assert [parts[0]] + parts[1..] == parts;
    }
  }

  // ---------------------------------------------------------------------
  // int(s) on a decimal literal, and str(n)

  predicate IsDigit(c: char)
  {
    '0' <= c <= '9'
  }

  predicate AllDigits(s: string)
  {
    forall i :: 0 <= i < |s| ==> IsDigit(s[i])
  }

  /** The value of a string of decimal digits, most significant first. */
  function DigitsValue(ds: string): nat
    requires AllDigits(ds)
  {
    if ds == [] then 0
    else DigitsValue(ds[..|ds| - 1]) * 10 + (ds[|ds| - 1] as int - '0' as int)
  }

  /** CPython's default `sys.int_info.default_max_str_digits`: `int()`
      raises `ValueError` on a decimal literal with more digits than this
      (leading zeros included, the sign not counted). */
  const MaxStrDigits: nat := 4300

  predicate IsSign(c: char)
  {
    c == '+' || c == '-'
  }

  /** `int(s)` for base 10: an optional sign followed by one to
      `MaxStrDigits` ASCII digits (leading zeros allowed); anything else
      raises, here `None`.  `ParseIntAccepts` says exactly which strings
      parse and to what. */
  function ParseInt(s: string): (r: Option<int>)
    ensures r.Some? ==> s != [] && !IsSpace(s[0]) && !IsSpace(s[|s| - 1])
    ensures s != [] && AllDigits(s) && |s| <= MaxStrDigits ==> r == Some(DigitsValue(s))
    ensures r.Some? && r.value < 0 ==> s[0] == '-'
  {
    if s != [] && IsSign(s[0]) then
      var ds := s[1..];
      if ds != [] && AllDigits(ds) && |ds| <= MaxStrDigits then
        var v: int := DigitsValue(ds);
        Some(if s[0] == '-' then -v else v)
      else None
    else if s != [] && AllDigits(s) && |s| <= MaxStrDigits then Some(DigitsValue(s))
    else None
  }

  /** `int()` accepts exactly an optional sign followed by one to
      `MaxStrDigits` digits, so `"1a"`, `"+"`, `"1.5"` and `"0x1"` all
      fail; a signed digit run parses to its value with that sign. */
  lemma ParseIntAccepts(s: string)
    ensures ParseInt(s).Some? <==>
      || (1 <= |s| <= MaxStrDigits && AllDigits(s))
      || (2 <= |s| <= MaxStrDigits + 1 && IsSign(s[0]) && AllDigits(s[1..]))
    ensures 2 <= |s| <= MaxStrDigits + 1 && IsSign(s[0]) && AllDigits(s[1..]) ==>
      ParseInt(s) == Some(if s[0] == '-' then -(DigitsValue(s[1..]) as int) else DigitsValue(s[1..]))
  {
  }

  function DigitChar(d: nat): (c: char)
    requires d < 10
    ensures IsDigit(c) && c as int - '0' as int == d
  {
    ('0' as int + d) as char
  }

  /** `str(n)` for a natural number: its shortest decimal digits. */
  function NatToDigits(n: nat): (r: string)
    ensures r != [] && AllDigits(r)
    ensures DigitsValue(r) == n
    ensures r[0] == '0' ==> n == 0
  {
    if n < 10 then [DigitChar(n)]
    else
      var prefix := NatToDigits(n / 10);
      var r := prefix + [DigitChar(n % 10)];
      assert r[..|r| - 1] == prefix;
      r
  }

  /** `str(n)` for an integer. */
  function IntToString(n: int): (r: string)
    ensures r != [] && ',' !in r
    ensures !IsSpace(r[0]) && !IsSpace(r[|r| - 1])
  {
    if n < 0 then "-" + NatToDigits(-n) else NatToDigits(n)
  }

  /** `str(n)` has few enough digits for `int()` to read it back. */
  predicate Representable(n: int)
  {
    |NatToDigits(if n < 0 then -n else n)| <= MaxStrDigits
  }

  /** `int(str(n)) == n` for every integer within the digit limit, and
      `int(str(n))` raises for every other one. */
  lemma ParseIntToString(n: int)
    ensures ParseInt(IntToString(n)) == if Representable(n) then Some(n) else None
  {
    var s := IntToString(n);
    if n < 0 {
      assert s[1..] == NatToDigits(-n);
    } else {
      assert IsDigit(s[0]);
    }
  }
}
