/** The handful of Python `str` operations the bot and the console rely on:
    `strip`, `split(sep)`, `split(sep, 1)`, `startswith`, `lower`,
    `split()` for the command word, and the decimal `int()` / `str()`
    conversions.  Python strings are modelled as `seq<char>` of Unicode
    scalar values. */
module Text {
  import opened Wrappers

  // ---------------------------------------------------------------------
  // Whitespace and strip()
  // ---------------------------------------------------------------------

  /** The characters Python's `str.isspace()` accepts (and therefore the
      ones `strip()` and `split()` with no argument remove). */
  predicate IsSpace(c: char) {
    || ('\t' <= c <= '\r')
    || ('\U{1C}' <= c <= '\U{1F}')
    || c == ' ' || c == '\U{85}' || c == '\U{A0}' || c == '\U{1680}'
    || ('\U{2000}' <= c <= '\U{200A}')
    || c == '\U{2028}' || c == '\U{2029}' || c == '\U{202F}'
    || c == '\U{205F}' || c == '\U{3000}'
  }

  predicate AllSpace(s: string) {
    forall k :: 0 <= k < |s| ==> IsSpace(s[k])
  }

  /** Neither end of `s` is whitespace: what `strip()` leaves behind. */
  predicate NoEdgeSpace(s: string) {
    s == [] || (!IsSpace(s[0]) && !IsSpace(s[|s| - 1]))
  }

  function TrimLeft(s: string): (r: string)
    ensures |r| <= |s| && r == s[|s| - |r|..]
    ensures forall k :: 0 <= k < |s| - |r| ==> IsSpace(s[k])
    ensures r == [] || !IsSpace(r[0])
    decreases |s|
  {
    if |s| > 0 && IsSpace(s[0]) then
      var r := TrimLeft(s[1..]);
      assert s[1..][|s| - 1 - |r|..] == s[|s| - |r|..];
      assert forall k :: 1 <= k < |s| - |r| ==> s[k] == s[1..][k - 1];
      r
    else s
  }

  function TrimRight(s: string): (r: string)
    ensures |r| <= |s| && r == s[..|r|]
    ensures forall k :: |r| <= k < |s| ==> IsSpace(s[k])
    ensures r == [] || !IsSpace(r[|r| - 1])
    decreases |s|
  {
    if |s| > 0 && IsSpace(s[|s| - 1]) then
      var r := TrimRight(s[..|s| - 1]);
      assert s[..|s| - 1][..|r|] == s[..|r|];
      r
    else s
  }

  /** Python's `s.strip()`. */
  function Strip(s: string): (r: string)
    ensures NoEdgeSpace(r)
    ensures NoEdgeSpace(s) ==> r == s
    ensures r == [] <==> AllSpace(s)
    ensures |r| <= |s|
  {
    StripEdges(s);
    StripEmpty(s);
    TrimRight(TrimLeft(s))
  }

  /** What `strip()` keeps is a slice of the input with only whitespace
      cut off on either side. */
  lemma StripIsCut(s: string)
    ensures exists i :: CutAt(s, i, Strip(s))
  {
    CutOfTrims(s, TrimLeft(s), TrimRight(TrimLeft(s)));
    assert CutAt(s, |s| - |TrimLeft(s)|, Strip(s));
  }

  /** `r` is the slice of `s` starting at `i`, and everything cut off on
      either side of it is whitespace. */
  predicate CutAt(s: string, i: int, r: string) {
    0 <= i <= |s| - |r| && r == s[i..i + |r|] && AllSpace(s[..i]) && AllSpace(s[i + |r|..])
  }

  /** One space on each side of a word is stripped off again. */
  lemma StripPadded(w: string)
    requires w != [] && NoEdgeSpace(w)
    ensures Strip([' '] + w + [' ']) == w
  {
    var t := w + [' '];
    assert ([' '] + w + [' '])[1..] == t;
    assert TrimLeft(t) == t;
    assert t[..|t| - 1] == w;
    assert TrimRight(w) == w;
  }

  /** Cutting whitespace first off the front and then off the back leaves a
      slice with whitespace on both sides. */
  lemma CutOfTrims(s: string, t: string, r: string)
    requires |t| <= |s| && t == s[|s| - |t|..]
    requires forall k :: 0 <= k < |s| - |t| ==> IsSpace(s[k])
    requires |r| <= |t| && r == t[..|r|]
    requires forall k :: |r| <= k < |t| ==> IsSpace(t[k])
    ensures CutAt(s, |s| - |t|, r)
  {
    var i := |s| - |t|;
    assert r == s[i..i + |r|];
    var head := s[..i];
    forall k | 0 <= k < |head| ensures IsSpace(head[k]) {
      assert head[k] == s[k];
    }
    var tail := s[i + |r|..];
    forall k | 0 <= k < |tail| ensures IsSpace(tail[k]) {
      assert tail[k] == t[|r| + k];
    }
  }

  lemma StripEdges(s: string)
    ensures NoEdgeSpace(TrimRight(TrimLeft(s)))
    ensures NoEdgeSpace(s) ==> TrimRight(TrimLeft(s)) == s
  {
    var t := TrimLeft(s);
    var r := TrimRight(t);
    if r != [] {
      assert r[0] == t[0];
    }
  }

  lemma StripEmpty(s: string)
    ensures TrimRight(TrimLeft(s)) == [] <==> AllSpace(s)
  {
    var t := TrimLeft(s);
    if TrimRight(t) == [] {
      TrimRightEmpty(t);
      assert t == [];
    }
    if AllSpace(s) {
      TrimLeftAllSpace(s);
    }
  }

  /** Only an all-whitespace string right-trims to nothing. */
  lemma TrimRightEmpty(t: string)
    requires TrimRight(t) == []
    ensures AllSpace(t)
  {
  }

  lemma {:induction false} TrimLeftAllSpace(s: string)
    requires AllSpace(s)
    ensures TrimLeft(s) == []
    decreases |s|
  {
    if |s| > 0 {
      TrimLeftAllSpace(s[1..]);
    }
  }

  // ---------------------------------------------------------------------
  // split(sep) and join
  // ---------------------------------------------------------------------

  /** Python's `sep.join(parts)` for a one-character separator. */
  function Join(parts: seq<string>, sep: char): string
    decreases |parts|
  {
    if |parts| == 0 then ""
    else if |parts| == 1 then parts[0]
    else parts[0] + [sep] + Join(parts[1..], sep)
  }

  /** Python's `s.split(sep)` for a one-character separator: always at
      least one piece, empty pieces kept, no piece holds the separator,
      and joining the pieces back gives `s`. */
  function Split(s: string, sep: char): (r: seq<string>)
    ensures |r| >= 1
    ensures forall i :: 0 <= i < |r| ==> sep !in r[i]
    ensures Join(r, sep) == s
    decreases |s|
  {
    if |s| == 0 then [""]
    else
      var rest := Split(s[1..], sep);
      if s[0] == sep then
        assert s == [sep] + s[1..];
        [""] + rest
      else
        var r := [[s[0]] + rest[0]] + rest[1..];
        assert Join(r, sep) == s by {
          if |rest| == 1 {
            assert s == [s[0]] + s[1..];
          } else {
            assert r[1..] == rest[1..];
            assert Join(rest, sep) == rest[0] + [sep] + Join(rest[1..], sep);
            assert s == [s[0]] + s[1..];
          }
        }
        r
  }

  lemma {:induction false} SplitSeparatorFirst(t: string, sep: char)
    ensures Split([sep] + t, sep) == [""] + Split(t, sep)
  {
    assert ([sep] + t)[1..] == t;
  }

  /** Splitting `p + tail` where `p` holds no separator glues `p` onto the
      first piece of `tail`. */
  lemma {:induction false} SplitGluesPrefix(p: string, tail: string, sep: char)
    requires sep !in p
    ensures Split(p + tail, sep) == [p + Split(tail, sep)[0]] + Split(tail, sep)[1..]
    decreases |p|
  {
    if |p| == 0 {
      assert p + tail == tail;
      var t := Split(tail, sep);
      assert t == [t[0]] + t[1..];
      assert p + t[0] == t[0];
    } else {
      var s := p + tail;
      assert s[1..] == p[1..] + tail;
      assert s[0] == p[0];
      SplitGluesPrefix(p[1..], tail, sep);
      assert [p[0]] + (p[1..] + Split(tail, sep)[0]) == p + Split(tail, sep)[0];
    }
  }

  /** Round trip: splitting the join of separator-free pieces gives the pieces back. */
  lemma {:induction false} SplitJoin(parts: seq<string>, sep: char)
    requires |parts| >= 1
    requires forall i :: 0 <= i < |parts| ==> sep !in parts[i]
    ensures Split(Join(parts, sep), sep) == parts
    decreases |parts|
  {
    if |parts| == 1 {
      SplitGluesPrefix(parts[0], "", sep);
      assert Split("", sep) == [""];
      assert parts[0] + "" == parts[0];
    } else {
      SplitJoin(parts[1..], sep);
      SplitJoinStep(parts[0], Join(parts[1..], sep), parts[1..], sep);
      assert Join(parts, sep) == parts[0] + [sep] + Join(parts[1..], sep);
      assert parts == [parts[0]] + parts[1..];
    }
  }

  /** One step of the round trip: a separator-free piece, the separator
      and a text that splits into `rest` split into the piece and `rest`. */
  lemma SplitJoinStep(p: string, j: string, rest: seq<string>, sep: char)
    requires sep !in p && Split(j, sep) == rest
    ensures Split(p + [sep] + j, sep) == [p] + rest
  {
    var tail := [sep] + j;
    var t := Split(tail, sep);
    assert t == [""] + rest by {
      SplitSeparatorFirst(j, sep);
    }
    assert Split(p + tail, sep) == [p + t[0]] + t[1..] by {
      SplitGluesPrefix(p, tail, sep);
    }
    assert p + t[0] == p && t[1..] == rest;
    assert p + [sep] + j == p + tail;
  }

  // ---------------------------------------------------------------------
  // split(sep, 1): the first occurrence of a separator
  // ---------------------------------------------------------------------

  /** Every character is ASCII, the only text `hmac.compare_digest`
      accepts as `str`. */
  predicate IsAscii(s: string) {
    forall k :: 0 <= k < |s| ==> s[k] < 128 as char
  }

  /** Text the console's MAC renders (hex digits are ASCII). */
  type AsciiText = s: string | IsAscii(s)

  predicate OccursAt(s: string, sep: string, i: nat) {
    i + |sep| <= |s| && s[i..i + |sep|] == sep
  }

  function FindFrom(s: string, sep: string, i: nat): (r: Option<nat>)
    requires |sep| > 0 && i <= |s|
    ensures r.Some? ==> i <= r.value <= |s| - |sep| && OccursAt(s, sep, r.value)
    ensures r.Some? ==> forall k :: i <= k < r.value ==> !OccursAt(s, sep, k)
    ensures r.None? ==> forall k :: i <= k <= |s| ==> !OccursAt(s, sep, k)
    decreases |s| - i
  {
    if i + |sep| > |s| then None
    else if s[i..i + |sep|] == sep then Some(i)
    else FindFrom(s, sep, i + 1)
  }

  /** Python's `s.split(sep, 1)` unpacked into two names: `None` when the
      unpacking would raise (no separator), otherwise the text before the
      first separator and everything after it. */
  function SplitOnce(s: string, sep: string): (r: Option<(string, string)>)
    requires |sep| > 0
    ensures r.Some? ==> s == r.value.0 + sep + r.value.1
    ensures r.Some? ==> forall k :: 0 <= k < |r.value.0| ==> !OccursAt(s, sep, k)
    ensures r.None? <==> forall k :: 0 <= k <= |s| ==> !OccursAt(s, sep, k)
  {
    match FindFrom(s, sep, 0)
    case None => None
    case Some(j) =>
      assert s == s[..j] + s[j..j + |sep|] + s[j + |sep|..];
      Some((s[..j], s[j + |sep|..]))
  }

  /** The split point is unique: any decomposition `a + sep + b` in which
      `sep` does not start inside `a` is the one `SplitOnce` finds. */
  lemma {:induction false} SplitOnceUnique(s: string, sep: string, a: string, b: string)
    requires |sep| > 0
    requires s == a + sep + b
    requires forall k :: 0 <= k < |a| ==> !OccursAt(s, sep, k)
    ensures SplitOnce(s, sep) == Some((a, b))
  {
    assert s[|a|..|a| + |sep|] == sep;
    assert OccursAt(s, sep, |a|);
    var r := SplitOnce(s, sep);
    assert r.Some?;
    var a', b' := r.value.0, r.value.1;
    assert s[|a'|..|a'| + |sep|] == sep;
    assert OccursAt(s, sep, |a'|);
    assert |a'| == |a|;
    assert a' == s[..|a|] == a;
    assert b' == s[|a| + |sep|..] == b;
  }

  /** A separator cannot start inside a prefix that does not hold the
      separator's first character. */
  lemma NoOccurrenceInside(a: string, sep: string, b: string)
    requires |sep| > 0 && sep[0] !in a
    ensures forall k :: 0 <= k < |a| ==> !OccursAt(a + sep + b, sep, k)
  {
    forall k | 0 <= k < |a| ensures !OccursAt(a + sep + b, sep, k) {
      var s := a + sep + b;
      assert s[k] == a[k];
      if k + |sep| <= |s| {
        assert s[k..k + |sep|][0] == s[k];
      }
    }
  }

  /** Python's `s.startswith(p)`. */
  predicate StartsWith(s: string, p: string) {
    |p| <= |s| && s[..|p|] == p
  }

  // ---------------------------------------------------------------------
  // lower()
  // ---------------------------------------------------------------------

  /** Python's `str.lower()` on the Latin and Cyrillic capitals (A-Z,
      U+0410..U+042F and U+0400..U+040F); every other character is left
      unchanged. */
  function LowerChar(c: char): char {
    if 'A' <= c <= 'Z' then (c as int + 32) as char
    else if '\U{0410}' <= c <= '\U{042F}' then (c as int + 32) as char
    else if '\U{0400}' <= c <= '\U{040F}' then (c as int + 80) as char
    else c
  }

  function Lower(s: string): (r: string)
    ensures |r| == |s|
    ensures forall k :: 0 <= k < |s| ==> r[k] == LowerChar(s[k])
  {
    seq(|s|, k requires 0 <= k < |s| => LowerChar(s[k]))
  }

  /** Lowering twice is lowering once: a lowered character is no capital. */
  lemma LowerIdempotent(s: string)
    ensures Lower(Lower(s)) == Lower(s)
  {
  }

  // ---------------------------------------------------------------------
  // split() with no argument: the first word
  // ---------------------------------------------------------------------

  function TakeWord(t: string): (r: string)
    ensures |r| <= |t| && r == t[..|r|]
    ensures forall k :: 0 <= k < |r| ==> !IsSpace(r[k])
    ensures |r| < |t| ==> IsSpace(t[|r|])
    decreases |t|
  {
    if |t| == 0 || IsSpace(t[0]) then [] else [t[0]] + TakeWord(t[1..])
  }

  /** `s.split()[0]`, or the empty string when `s` is all whitespace. */
  function FirstWord(s: string): (r: string)
    ensures forall k :: 0 <= k < |r| ==> !IsSpace(r[k])
    ensures r == [] <==> AllSpace(s)
  {
    var t := TrimLeft(s);
    assert t != [] ==> !IsSpace(t[0]);
    assert t != [] ==> t[0] == s[|s| - |t|];
    assert t == [] ==> AllSpace(s) by {
      if t == [] { assert s[..|s|] == s; }
    }
    TakeWord(t)
  }

  /** A single word with nothing around it is its own first word. */
  lemma {:induction false} FirstWordOfWord(w: string)
    requires forall k :: 0 <= k < |w| ==> !IsSpace(w[k])
    ensures FirstWord(w) == w
  {
    if |w| > 0 {
      assert TrimLeft(w) == w;
    }
    TakeWordOfWord(w);
  }

  lemma {:induction false} TakeWordOfWord(w: string)
    requires forall k :: 0 <= k < |w| ==> !IsSpace(w[k])
    ensures TakeWord(w) == w
    decreases |w|
  {
    if |w| > 0 {
      TakeWordOfWord(w[1..]);
      assert w == [w[0]] + w[1..];
    }
  }

  // ---------------------------------------------------------------------
  // int() and str() on decimal integers
  // ---------------------------------------------------------------------

  predicate IsDigit(c: char) {
    '0' <= c <= '9'
  }

  /** One or more ASCII digits. */
  predicate IsDigits(s: string) {
    |s| > 0 && forall k :: 0 <= k < |s| ==> IsDigit(s[k])
  }

  function DigitsValue(s: string): nat
    requires forall k :: 0 <= k < |s| ==> IsDigit(s[k])
    decreases |s|
  {
    if |s| == 0 then 0
    else
      assert IsDigit(s[|s| - 1]);
      DigitsValue(s[..|s| - 1]) * 10 + (s[|s| - 1] as int - '0' as int)
  }

  /** Python's `int(s)` for a string already stripped: an optional sign
      followed by ASCII digits; `None` where `int()` raises ValueError. */
  function ParseInt(s: string): (r: Option<int>)
    ensures r.Some? ==> |s| > 0 && forall k :: 0 <= k < |s| ==> !IsSpace(s[k]) && s[k] != ',' && s[k] != '.'
    ensures r.Some? <==> IsDigits(s) || (|s| > 0 && (s[0] == '+' || s[0] == '-') && IsDigits(s[1..]))
    ensures IsDigits(s) ==> r == Some(DigitsValue(s))
    ensures |s| > 0 && s[0] == '+' && IsDigits(s[1..]) ==> r == Some(DigitsValue(s[1..]))
    ensures |s| > 0 && s[0] == '-' && IsDigits(s[1..]) ==> r == Some(0 - DigitsValue(s[1..]) as int)
  {
    if |s| > 0 && (s[0] == '+' || s[0] == '-') then
      if IsDigits(s[1..]) then
        var v: int := DigitsValue(s[1..]);
        Some(if s[0] == '-' then -v else v)
      else None
    else if IsDigits(s) then Some(DigitsValue(s))
    else None
  }

  function DigitChar(d: nat): (c: char)
    requires d < 10
    ensures IsDigit(c) && c as int - '0' as int == d
  {
    ('0' as int + d) as char
  }

  /** Python's `str(n)` for `n >= 0`: digits, no leading zero. */
  function NatToDigits(n: nat): (r: string)
    ensures IsDigits(r)
    ensures DigitsValue(r) == n
    ensures |r| > 1 ==> r[0] != '0'
    decreases n
  {
    if n < 10 then [DigitChar(n)]
    else
      var p := NatToDigits(n / 10);
      var r := p + [DigitChar(n % 10)];
      assert r[..|r| - 1] == p;
      r
  }

  /** Python's `str(n)`; `int(str(n)) == n`. */
  function IntToString(n: int): (r: string)
    ensures ParseInt(r) == Some(n)
    ensures |r| > 0 && forall k :: 0 <= k < |r| ==> IsDigit(r[k]) || (k == 0 && r[k] == '-')
  {
    if n < 0 then
      var r := "-" + NatToDigits(-n);
      assert r[1..] == NatToDigits(-n);
      r
    else NatToDigits(n)
  }

  /** Decimal renderings are already stripped. */
  lemma IntToStringIsStripped(n: int)
    ensures Strip(IntToString(n)) == IntToString(n)
  {
    var r := IntToString(n);
    assert !IsSpace(r[0]) && !IsSpace(r[|r| - 1]);
  }

  /** A digit string without a superfluous leading zero. */
  predicate NoLeadingZero(d: string) {
    |d| == 1 || (|d| > 0 && d[0] != '0')
  }

  /** A digit string that does not start with '0' has a positive value. */
  lemma {:induction false} DigitsPositive(d: string)
    requires IsDigits(d) && d[0] != '0'
    ensures DigitsValue(d) > 0
    decreases |d|
  {
    var p := d[..|d| - 1];
    if |d| > 1 {
      assert p[0] == d[0];
      DigitsPositive(p);
    } else {
      assert DigitsValue(p) == 0;
    }
  }

  /** `str(int(d)) == d` for a digit string without a leading zero. */
  lemma {:induction false} DigitsRoundTrip(d: string)
    requires IsDigits(d) && NoLeadingZero(d)
    ensures NatToDigits(DigitsValue(d)) == d
    decreases |d|
  {
    var p := d[..|d| - 1];
    var last := d[|d| - 1] as int - '0' as int;
    assert 0 <= last < 10 by { assert IsDigit(d[|d| - 1]); }
    if |d| == 1 {
      assert DigitsValue(p) == 0;
      assert [DigitChar(last)] == d;
    } else {
      assert p[0] == d[0];
      DigitsPositive(p);
      DigitsRoundTrip(p);
      var v := DigitsValue(d);
      assert v == DigitsValue(p) * 10 + last;
      assert v / 10 == DigitsValue(p) && v % 10 == last;
      assert p + [d[|d| - 1]] == d;
    }
  }

  /** The converse of `IntToString`'s round trip: a string `int()` accepts,
      written without '+', without a leading zero and not as "-0", is the
      decimal rendering of its value. */
  lemma ParseIntCanonical(s: string, n: int)
    requires |s| > 0 && ParseInt(s) == Some(n)
    requires s[0] != '+' && s != "-0"
    requires NoLeadingZero(if s[0] == '-' then s[1..] else s)
    ensures s == IntToString(n)
  {
    if s[0] == '-' {
      var d := s[1..];
      assert s == "-" + d;
      DigitsPositive(d);
      DigitsRoundTrip(d);
    } else {
      DigitsRoundTrip(s);
    }
  }
}
