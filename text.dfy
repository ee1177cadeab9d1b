/**
  String operations of JavaScript and Python that the model relies on: whitespace
  trimming (the two languages disagree on what whitespace is), prefix tests, first
  occurrence search, ASCII lower-casing, the UTF-16 length JavaScript reports as
  `.length`, and decimal rendering of integers.
 */
module Text {
  import opened Wrappers

  /** Which language's notion of whitespace applies. */
  datatype Lang = Js | Py

  /** JavaScript WhiteSpace and LineTerminator code points: what `trim()` removes and `\s` matches. */
  predicate IsJsSpace(c: char) {
    c in {'\t', '\n', '\U{0B}', '\U{0C}', '\r', ' ', '\U{A0}', '\U{1680}',
          '\U{2028}', '\U{2029}', '\U{202F}', '\U{205F}', '\U{3000}', '\U{FEFF}'}
    || ('\U{2000}' <= c <= '\U{200A}')
  }

  /** Python `str.isspace()` code points: what `str.strip()` removes. */
  predicate IsPySpace(c: char) {
    c in {'\t', '\n', '\U{0B}', '\U{0C}', '\r', '\U{1C}', '\U{1D}', '\U{1E}', '\U{1F}', ' ',
          '\U{85}', '\U{A0}', '\U{1680}', '\U{2028}', '\U{2029}', '\U{202F}', '\U{205F}', '\U{3000}'}
    || ('\U{2000}' <= c <= '\U{200A}')
  }

  predicate IsSpace(lang: Lang, c: char) {
    match lang
    case Js => IsJsSpace(c)
    case Py => IsPySpace(c)
  }

  /** Drops the leading whitespace run. */
  function TrimStart(lang: Lang, s: string): (r: string)
    ensures |r| <= |s| && r == s[|s| - |r|..]
    ensures r == [] || !IsSpace(lang, r[0])
    ensures forall i {:trigger IsSpace(lang, s[i])} :: 0 <= i < |s| - |r| ==> IsSpace(lang, s[i])
  {
    if s != [] && IsSpace(lang, s[0]) then TrimStart(lang, s[1..]) else s
  }

  /** Drops the trailing whitespace run. */
  function TrimEnd(lang: Lang, s: string): (r: string)
    ensures |r| <= |s| && r == s[..|r|]
    ensures r == [] || !IsSpace(lang, r[|r| - 1])
    ensures forall i {:trigger IsSpace(lang, s[i])} :: |r| <= i < |s| ==> IsSpace(lang, s[i])
  {
    if s != [] && IsSpace(lang, s[|s| - 1]) then TrimEnd(lang, s[..|s| - 1]) else s
  }

  /** JavaScript `s.trim()`. */
  function JsTrim(s: string): string {
    TrimEnd(Js, TrimStart(Js, s))
  }

  /** Python `s.strip()`. */
  function PyStrip(s: string): string {
    TrimEnd(Py, TrimStart(Py, s))
  }

  /** A string with no whitespace at either end. */
  predicate Trimmed(lang: Lang, s: string) {
    s == [] || (!IsSpace(lang, s[0]) && !IsSpace(lang, s[|s| - 1]))
  }

  /** Trimming keeps exactly the part between the outer whitespace runs. */
  lemma TrimShape(lang: Lang, s: string)
    ensures Trimmed(lang, TrimEnd(lang, TrimStart(lang, s)))
    ensures TrimEnd(lang, TrimStart(lang, s)) == [] <==> forall i :: 0 <= i < |s| ==> IsSpace(lang, s[i])
  {
    var a := TrimStart(lang, s);
    var b := TrimEnd(lang, a);
    if b != [] {
      assert b[0] == a[0];
    }
    if b == [] {
      forall i | 0 <= i < |s| ensures IsSpace(lang, s[i]) {
        if i >= |s| - |a| {
          assert s[i] == a[i - (|s| - |a|)];
        }
      }
    }
  }

  /** Trimming a string that is already trimmed changes nothing. */
  lemma TrimIdempotent(lang: Lang, s: string)
    requires Trimmed(lang, s)
    ensures TrimEnd(lang, TrimStart(lang, s)) == s
  {
  }

  function Prefix(s: string, n: nat): string {
    if n <= |s| then s[..n] else s
  }

  predicate StartsWith(s: string, p: string) {
    |p| <= |s| && s[..|p|] == p
  }

  /** `t` does not occur at position `i` of `s`. */
  predicate NotAt(s: string, i: nat, t: string)
    requires i <= |s|
  {
    !StartsWith(s[i..], t)
  }

  /** Index of the first occurrence of `t` in `s`, as JavaScript `indexOf` and Python `find`. */
  function IndexOf(s: string, t: string): (r: Option<nat>)
    ensures r.Some? ==> r.value + |t| <= |s| && s[r.value..r.value + |t|] == t
    ensures r.Some? ==> forall i :: 0 <= i < r.value ==> NotAt(s, i, t)
    ensures r.None? ==> forall i :: 0 <= i <= |s| ==> NotAt(s, i, t)
    decreases |s|
  {
    if StartsWith(s, t) then Some(0)
    else if s == [] then None
    else
      match IndexOf(s[1..], t)
      case None =>
        assert s[0..] == s;
        forall i | 1 <= i <= |s| ensures NotAt(s, i, t) {
          assert s[i..] == s[1..][i - 1..];
          assert NotAt(s[1..], i - 1, t);
        }
        None
      case Some(k) =>
        assert s[0..] == s;
        forall i | 1 <= i <= k ensures NotAt(s, i, t) {
          assert s[i..] == s[1..][i - 1..];
          assert NotAt(s[1..], i - 1, t);
        }
        Some(k + 1)
  }

  /** JavaScript `s.includes(t)`, Python `t in s`. */
  predicate Contains(s: string, t: string) {
    IndexOf(s, t).Some?
  }

  lemma ContainsAt(s: string, t: string, i: nat)
    requires i + |t| <= |s| && s[i..i + |t|] == t
    ensures Contains(s, t)
  {
    assert s[i..][..|t|] == t;
    assert !NotAt(s, i, t);
  }

  lemma AppendAssoc(a: string, b: string, c: string)
    ensures (a + b) + c == a + (b + c)
  {
  }

  /** A text that follows `head` at the start of `s` occurs in `pre + s`. */
  lemma ContainsAfterPrefix(pre: string, s: string, head: string, t: string)
    requires StartsWith(s, head + t)
    ensures Contains(pre + s, t)
  {
    var at := |pre| + |head|;
    assert (pre + s)[at..at + |t|] == s[..|head| + |t|][|head|..];
    assert (head + t)[|head|..] == t;
    ContainsAt(pre + s, t, at);
  }

  /** The occurrence `IndexOf` finds is a prefix of the rest of the text. */
  lemma IndexOfStarts(s: string, t: string)
    ensures IndexOf(s, t).Some? ==> StartsWith(s[IndexOf(s, t).value..], t)
  {
    if IndexOf(s, t).Some? {
      var v := IndexOf(s, t).value;
      assert s[v..][..|t|] == s[v..v + |t|];
    }
  }

  /** An occurrence with none before it is the one `IndexOf` finds. */
  lemma IndexOfAt(s: string, t: string, j: nat)
    requires j <= |s| && StartsWith(s[j..], t)
    requires forall i :: 0 <= i < j ==> NotAt(s, i, t)
    ensures IndexOf(s, t) == Some(j)
  {
    IndexOfStarts(s, t);
    assert !NotAt(s, j, t);
    assert IndexOf(s, t).Some? ==> IndexOf(s, t).value >= j || NotAt(s, IndexOf(s, t).value, t);
  }

  /** A text in which `t` starts nowhere does not contain `t`. */
  lemma NoOccurrence(s: string, t: string)
    requires forall i :: 0 <= i <= |s| ==> NotAt(s, i, t)
    ensures !Contains(s, t)
  {
    IndexOfStarts(s, t);
    assert IndexOf(s, t).Some? ==> NotAt(s, IndexOf(s, t).value, t);
  }

  /** The markers of a fenced code block, as both halves of the system look for them. */
  const JsonFence := "```json"
  const Fence := "```"

  predicate NoBacktick(s: string) {
    forall i :: 0 <= i < |s| ==> s[i] != '`'
  }

  /** A prefix of `s` that stops before the first occurrence of `t` does not contain `t`. */
  lemma NoEarlierOccurrence(s: string, t: string, k: nat)
    requires t != [] && IndexOf(s, t) == Some(k)
    ensures !Contains(s[..k], t)
  {
    forall i | 0 <= i <= k ensures NotAt(s[..k], i, t) {
      if i + |t| <= k {
        assert i < k;
        assert NotAt(s, i, t);
        forall j | 0 <= j < |t| ensures s[..k][i..][j] == s[i..][j] {
          assert s[..k][i..][j] == s[i + j] == s[i..][j];
        }
        assert s[..k][i..][..|t|] == s[i..][..|t|];
      } else {
        assert |s[..k][i..]| < |t|;
      }
    }
    NoOccurrence(s[..k], t);
  }

  /** A text starting with a backtick is found right after a prefix without backticks. */
  lemma FoundAfterPlainText(x: string, t: string, y: string)
    requires NoBacktick(x) && t != [] && t[0] == '`'
    ensures IndexOf(x + t + y, t) == Some(|x|)
  {
    var s := x + t + y;
    assert s[|x|..][..|t|] == t;
    forall i | 0 <= i < |x| ensures NotAt(s, i, t) {
      assert s[i..][0] == x[i];
    }
    IndexOfAt(s, t, |x|);
  }

  /** A slice of a text without `t` has no `t` either. */
  lemma NoOccurrenceInSlice(s: string, t: string, i: nat, j: nat)
    requires i <= j <= |s| && !Contains(s, t)
    ensures !Contains(s[i..j], t)
  {
    forall k | 0 <= k <= j - i ensures NotAt(s[i..j], k, t) {
      if k + |t| <= j - i {
        assert NotAt(s, i + k, t);
        assert s[i..j][k..][..|t|] == s[i + k..][..|t|];
      }
    }
    NoOccurrence(s[i..j], t);
  }

  /** Trimming a text without `t` does not create one. */
  lemma TrimKeepsAbsence(lang: Lang, s: string, t: string)
    requires !Contains(s, t)
    ensures !Contains(TrimEnd(lang, TrimStart(lang, s)), t)
  {
    var a := TrimStart(lang, s);
    var m := |s| - |a|;
    assert a == s[m..|s|];
    NoOccurrenceInSlice(s, t, m, |s|);
    assert !Contains(a, t);
    var b := TrimEnd(lang, a);
    assert b == a[0..|b|];
    NoOccurrenceInSlice(a, t, 0, |b|);
  }

  /** `TrimStart` keeps an occurrence of a text that starts with a non-space. */
  lemma TrimStartKeeps(lang: Lang, s: string, t: string, i: nat)
    requires i + |t| <= |s| && s[i..i + |t|] == t
    requires t != [] && !IsSpace(lang, t[0])
    ensures var m := |s| - |TrimStart(lang, s)|;
            m <= i && TrimStart(lang, s)[i - m..i - m + |t|] == t
  {
    var a := TrimStart(lang, s);
    var m := |s| - |a|;
    assert s[i] == s[i..i + |t|][0] == t[0];
    assert !IsSpace(lang, s[i]);
    assert m <= i;
    assert a == s[m..];
    forall j | 0 <= j < |t| ensures a[i - m + j] == t[j] {
      assert a[i - m + j] == s[i + j] == s[i..i + |t|][j];
    }
    assert a[i - m..i - m + |t|] == t;
  }

  /** `TrimEnd` keeps an occurrence of a text that ends with a non-space. */
  lemma TrimEndKeeps(lang: Lang, s: string, t: string, i: nat)
    requires i + |t| <= |s| && s[i..i + |t|] == t
    requires t != [] && !IsSpace(lang, t[|t| - 1])
    ensures i + |t| <= |TrimEnd(lang, s)| && TrimEnd(lang, s)[i..i + |t|] == t
  {
    var b := TrimEnd(lang, s);
    assert s[i + |t| - 1] == s[i..i + |t|][|t| - 1];
    assert i + |t| <= |b|;
    assert b == s[..|b|];
    assert b[i..i + |t|] == s[i..i + |t|];
  }

  /** Trimming keeps every occurrence of a text that starts and ends with a non-space. */
  lemma TrimKeepsInner(lang: Lang, s: string, t: string, i: nat)
    requires i + |t| <= |s| && s[i..i + |t|] == t
    requires t != [] && !IsSpace(lang, t[0]) && !IsSpace(lang, t[|t| - 1])
    ensures Contains(TrimEnd(lang, TrimStart(lang, s)), t)
  {
    TrimStartKeeps(lang, s, t, i);
    var j := i - (|s| - |TrimStart(lang, s)|);
    TrimEndKeeps(lang, TrimStart(lang, s), t, j);
    ContainsAt(TrimEnd(lang, TrimStart(lang, s)), t, j);
  }

  /** Python `str.lower()` on ASCII letters; other characters are kept. */
  function LowerChar(c: char): char {
    if 'A' <= c <= 'Z' then (c as int + 32) as char else c
  }

  function PyLower(s: string): (r: string)
    ensures |r| == |s| && forall i :: 0 <= i < |s| ==> r[i] == LowerChar(s[i])
  {
    seq(|s|, i requires 0 <= i < |s| => LowerChar(s[i]))
  }

  /** UTF-16 code units of one code point. */
  function CharUnits(c: char): nat {
    if c as int > 0xFFFF then 2 else 1
  }

  /** JavaScript `s.length`: the number of UTF-16 code units. */
  function Units(s: string): nat
    decreases |s|
  {
    if s == [] then 0 else Units(s[..|s| - 1]) + CharUnits(s[|s| - 1])
  }

  lemma {:induction false} UnitsAppend(a: string, b: string)
    ensures Units(a + b) == Units(a) + Units(b)
    decreases |b|
  {
    if b == [] {
      assert a + b == a;
    } else {
      assert (a + b)[..|a + b| - 1] == a + b[..|b| - 1];
      UnitsAppend(a, b[..|b| - 1]);
    }
  }

  lemma {:induction false} UnitsBounds(s: string)
    ensures |s| <= Units(s) <= 2 * |s|
    ensures Units(s) == 0 <==> s == []
    decreases |s|
  {
    if s != [] {
      UnitsBounds(s[..|s| - 1]);
    }
  }

  function DigitChar(d: nat): char
    requires d < 10
  {
    ("0123456789")[d]
  }

  function NatToString(n: nat): (r: string)
    ensures r != []
    decreases n
  {
    if n < 10 then [DigitChar(n)] else NatToString(n / 10) + [DigitChar(n % 10)]
  }

  /** Decimal rendering of an integer, as JavaScript `String(n)` for safe integers. */
  function IntToString(i: int): string {
    if i < 0 then "-" + NatToString(-i) else NatToString(i)
  }
}
