/**
 * The handful of Python string operations the codecs are built from:
 * `str.split()`, `str.strip()`, `str.split(c)`, `sep.join(...)`,
 * `str.startswith(...)` and the substring test `sub in s`.
 * Whitespace is Python's `str.isspace()` set.
 */
module Text {

  /** The characters for which Python's `str.isspace()` holds. */
  predicate IsSpace(c: char) {
    || ('\t' <= c <= '\r')
    || ('\U{1C}' <= c <= ' ')
    || c == '\U{85}' || c == '\U{A0}' || c == '\U{1680}'
    || ('\U{2000}' <= c <= '\U{200A}')
    || c == '\U{2028}' || c == '\U{2029}' || c == '\U{202F}' || c == '\U{205F}' || c == '\U{3000}'
  }

  /** No line break (`\n` or `\r`): the text stays one line of a file read line by line. */
  predicate OneLine(s: string) {
    |s| == 0 || (s[0] != '\n' && s[0] != '\r' && OneLine(s[1..]))
  }

  predicate NoSpace(s: string) {
    forall i :: 0 <= i < |s| ==> !IsSpace(s[i])
  }

  predicate AllSpace(s: string) {
    forall i :: 0 <= i < |s| ==> IsSpace(s[i])
  }

  /** A word as `str.split()` produces it: non-empty, no whitespace. */
  predicate IsToken(s: string) {
    |s| > 0 && NoSpace(s)
  }

  /** A non-empty run of whitespace, such as the padding between two fields. */
  predicate IsGap(s: string) {
    |s| > 0 && AllSpace(s)
  }

  /** Length of the leading run of non-whitespace characters. */
  function WordLength(s: string): (n: nat)
    ensures n <= |s|
    ensures NoSpace(s[..n])
    ensures n < |s| ==> IsSpace(s[n])
    ensures |s| > 0 && !IsSpace(s[0]) ==> n > 0
  {
    if |s| == 0 || IsSpace(s[0]) then 0 else 1 + WordLength(s[1..])
  }

  /** `s.split()`: the maximal runs of non-whitespace, in order. */
  function Split(s: string): (r: seq<string>)
    ensures forall k :: 0 <= k < |r| ==> IsToken(r[k])
    decreases |s|
  {
    if |s| == 0 then []
    else if IsSpace(s[0]) then Split(s[1..])
    else
      var n := WordLength(s);
      [s[..n]] + Split(s[n..])
  }

  function TrimStart(s: string): (r: string)
    ensures |r| <= |s| && r == s[|s| - |r|..]
    ensures |r| > 0 ==> !IsSpace(r[0])
    ensures AllSpace(s[..|s| - |r|])
  {
    if |s| > 0 && IsSpace(s[0]) then TrimStart(s[1..]) else s
  }

  function TrimEnd(s: string): (r: string)
    ensures |r| <= |s| && r == s[..|r|]
    ensures |r| > 0 ==> !IsSpace(r[|r| - 1])
    ensures AllSpace(s[|r|..])
  {
    if |s| > 0 && IsSpace(s[|s| - 1]) then TrimEnd(s[..|s| - 1]) else s
  }

  /** `s.strip()`: drop leading and trailing whitespace. */
  function Strip(s: string): (r: string)
    ensures r == "" <==> AllSpace(s)
    ensures r != "" ==> !IsSpace(r[0]) && !IsSpace(r[|r| - 1])
    ensures |s| == 0 || (!IsSpace(s[0]) && !IsSpace(s[|s| - 1])) ==> r == s
  {
    var t := TrimStart(s);
    assert AllSpace(s) ==> t == "";
    assert t == "" ==> AllSpace(s) by {
      if t == "" {
        assert s[..|s|] == s;
      }
    }
    TrimEnd(t)
  }

  /** `s[:n]`: the first `n` items, or all of them when there are fewer. */
  function Prefix<T>(s: seq<T>, n: nat): (r: seq<T>)
    ensures |r| == if n <= |s| then n else |s|
    ensures forall k :: 0 <= k < |r| ==> r[k] == s[k]
  {
    if n <= |s| then s[..n] else s
  }

  /** `s.startswith(p)` */
  predicate StartsWith(s: string, p: string) {
    |p| <= |s| && s[..|p|] == p
  }

  /** `sub in s`: some position of `s` starts with `sub`. */
  predicate Contains(s: string, sub: string)
    decreases |s|
  {
    StartsWith(s, sub) || (|s| > 0 && Contains(s[1..], sub))
  }

  /** `sep.join(parts)` */
  function Join(sep: string, parts: seq<string>): string {
    if |parts| == 0 then ""
    else if |parts| == 1 then parts[0]
    else parts[0] + sep + Join(sep, parts[1..])
  }

  /** `s.split(c)` for a one-character separator: the pieces between the separators. */
  function SplitOn(s: string, c: char): (r: seq<string>)
    ensures |r| > 0
    ensures forall k :: 0 <= k < |r| ==> c !in r[k]
  {
    if |s| == 0 then [""]
    else
      var rest := SplitOn(s[1..], c);
      if s[0] == c then [""] + rest else [[s[0]] + rest[0]] + rest[1..]
  }

  /**
   * A line made of fields, each followed by its padding, and then free text:
   * the shape of the f-strings the writers emit.
   */
  function Row(cells: seq<(string, string)>, note: string): string {
    if |cells| == 0 then note else cells[0].0 + cells[0].1 + Row(cells[1..], note)
  }

  function Fields(cells: seq<(string, string)>): (r: seq<string>)
    ensures |r| == |cells|
    ensures forall k :: 0 <= k < |cells| ==> r[k] == cells[k].0
  {
    if |cells| == 0 then [] else [cells[0].0] + Fields(cells[1..])
  }

  /** Every field of the row is a word and every padding a non-empty run of whitespace. */
  predicate WellSpaced(cells: seq<(string, string)>) {
    forall k :: 0 <= k < |cells| ==> IsToken(cells[k].0) && IsGap(cells[k].1)
  }

  /**
   * A line as the writers format it: fields, each followed by its padding,
   * and then free text.
   */
  datatype Line = Line(cells: seq<(string, string)>, note: string)

  function Render(l: Line): string {
    Row(l.cells, l.note)
  }

  function Rendered(ls: seq<Line>): (r: seq<string>)
    ensures |r| == |ls|
    ensures forall k :: 0 <= k < |ls| ==> r[k] == Render(ls[k])
  {
    seq(|ls|, k requires 0 <= k < |ls| => Render(ls[k]))
  }

  /** The first words of `line` are `words`. */
  predicate Leads(line: string, words: seq<string>) {
    |words| <= |Split(line)| && forall k :: 0 <= k < |words| ==> Split(line)[k] == words[k]
  }

  // ----- Lemmas -----

  /** `str.split(c)` is undone by `c.join(...)`. */
  lemma {:induction false} JoinSplitOn(s: string, c: char)
    ensures Join([c], SplitOn(s, c)) == s
  {
    if |s| > 0 {
      var rest := SplitOn(s[1..], c);
      JoinSplitOn(s[1..], c);
      if s[0] == c {
        assert s == [c] + s[1..];
        if |rest| == 1 {
          assert Join([c], [""] + rest) == "" + [c] + rest[0];
        } else {
          assert Join([c], [""] + rest) == "" + [c] + Join([c], rest);
        }
      } else {
        var first := [s[0]] + rest[0];
        if |rest| == 1 {
          assert SplitOn(s, c) == [first];
          assert s == [s[0]] + s[1..];
        } else {
          assert SplitOn(s, c)[1..] == rest[1..];
          assert Join([c], rest) == rest[0] + [c] + Join([c], rest[1..]);
          assert Join([c], SplitOn(s, c)) == first + [c] + Join([c], rest[1..]);
          assert s == [s[0]] + s[1..];
        }
      }
    }
  }

  /** Leading whitespace does not change the words. */
  lemma {:induction false} SplitAfterSpace(g: string, s: string)
    requires AllSpace(g)
    ensures Split(g + s) == Split(s)
  {
    if |g| > 0 {
      assert IsSpace((g + s)[0]);
      assert (g + s)[1..] == g[1..] + s;
      SplitAfterSpace(g[1..], s);
    } else {
      assert g + s == s;
    }
  }

  lemma {:induction false} WordLengthOfToken(t: string, s: string)
    requires NoSpace(t)
    requires |s| == 0 || IsSpace(s[0])
    ensures WordLength(t + s) == |t|
  {
    if |t| > 0 {
      assert (t + s)[1..] == t[1..] + s;
      WordLengthOfToken(t[1..], s);
    } else {
      assert t + s == s;
    }
  }

  /** A word followed by padding is the first word; the rest is split as usual. */
  lemma SplitWord(t: string, g: string, s: string)
    requires IsToken(t) && IsGap(g)
    ensures Split(t + g + s) == [t] + Split(s)
  {
    var line := t + g + s;
    assert line == t + (g + s);
    WordLengthOfToken(t, g + s);
    assert line[..|t|] == t;
    assert line[|t|..] == g + s;
    SplitAfterSpace(g, s);
  }

  lemma SplitToken(t: string)
    requires IsToken(t)
    ensures Split(t) == [t]
  {
    WordLengthOfToken(t, "");
    assert t + "" == t;
    assert t[|t|..] == "";
  }

  /** The words of a well-spaced row are its fields, then the words of its free text. */
  lemma {:induction false} SplitRow(cells: seq<(string, string)>, note: string)
    requires WellSpaced(cells)
    ensures Split(Row(cells, note)) == Fields(cells) + Split(note)
  {
    if |cells| > 0 {
      WellSpacedTail(cells);
      SplitRow(cells[1..], note);
      SplitRowStep(cells, note);
    }
  }

  lemma WellSpacedTail(cells: seq<(string, string)>)
    requires WellSpaced(cells) && |cells| > 0
    ensures WellSpaced(cells[1..])
  {
    forall k | 0 <= k < |cells| - 1 ensures IsToken(cells[1..][k].0) && IsGap(cells[1..][k].1) {
      assert cells[1..][k] == cells[k + 1];
    }
  }

  /** The step of `SplitRow`: one more cell in front. */
  lemma SplitRowStep(cells: seq<(string, string)>, note: string)
    requires WellSpaced(cells) && |cells| > 0
    requires Split(Row(cells[1..], note)) == Fields(cells[1..]) + Split(note)
    ensures Split(Row(cells, note)) == Fields(cells) + Split(note)
  {
    var t, g, rest := cells[0].0, cells[0].1, Row(cells[1..], note);
    assert Row(cells, note) == t + g + rest;
    SplitWord(t, g, rest);
    ConsThen(Split(Row(cells, note)), t, Split(rest), Fields(cells[1..]), Split(note));
    assert Fields(cells) == [t] + Fields(cells[1..]);
  }

  lemma ConsThen<T>(a: seq<T>, x: T, b: seq<T>, c: seq<T>, d: seq<T>)
    requires a == [x] + b && b == c + d
    ensures a == ([x] + c) + d
  {
    assert [x] + (c + d) == ([x] + c) + d;
  }

  /** The leading words of a well-spaced line are its fields, whatever its free text. */
  lemma LineWords(l: Line)
    requires WellSpaced(l.cells)
    ensures Leads(Render(l), Fields(l.cells))
  {
    SplitRow(l.cells, l.note);
  }

  /** `" ".join(words).split()` gives the words back. */
  lemma {:induction false} SplitJoin(ts: seq<string>)
    requires forall k :: 0 <= k < |ts| ==> IsToken(ts[k])
    ensures Split(Join(" ", ts)) == ts
  {
    if |ts| == 1 {
      SplitToken(ts[0]);
    } else if |ts| > 1 {
      SplitWord(ts[0], " ", Join(" ", ts[1..]));
      SplitJoin(ts[1..]);
    }
  }

  /** The same, when the joined words are followed by padding and free text. */
  lemma {:induction false} SplitJoinThen(ts: seq<string>, g: string, s: string)
    requires forall k :: 0 <= k < |ts| ==> IsToken(ts[k])
    requires IsGap(g)
    ensures Split(Join(" ", ts) + g + s) == ts + Split(s)
  {
    if |ts| == 0 {
      assert Join(" ", ts) + g + s == g + s;
      SplitAfterSpace(g, s);
    } else if |ts| == 1 {
      SplitWord(ts[0], g, s);
    } else {
      var tail := Join(" ", ts[1..]);
      assert Join(" ", ts) == ts[0] + " " + tail;
      assert Join(" ", ts) + g + s == ts[0] + " " + (tail + g + s);
      SplitWord(ts[0], " ", tail + g + s);
      SplitJoinThen(ts[1..], g, s);
      assert ts == [ts[0]] + ts[1..];
    }
  }

  /** One more item of the prefix is the next item of the sequence. */
  lemma PrefixNext<T>(s: seq<T>, n: nat)
    requires n < |s|
    ensures Prefix(s, n + 1) == Prefix(s, n) + [s[n]]
  {
    assert s[..n + 1] == s[..n] + [s[n]];
  }

  /** A string lacking one of the characters of `sub` does not contain `sub`. */
  lemma {:induction false} LacksCharNotContains(s: string, sub: string, c: char)
    requires c in sub && c !in s
    ensures !Contains(s, sub)
    decreases |s|
  {
    assert !StartsWith(s, sub) by {
      var k :| 0 <= k < |sub| && sub[k] == c;
      if |sub| <= |s| {
        assert s[..|sub|][k] != sub[k];
      }
    }
    if |s| > 0 {
      LacksCharNotContains(s[1..], sub, c);
    }
  }

  /** `s.split(c)` has a second piece exactly when `c` occurs in `s`. */
  lemma {:induction false} SplitOnFindsSeparator(s: string, c: char)
    ensures |SplitOn(s, c)| >= 2 <==> c in s
  {
    if |s| > 0 {
      SplitOnFindsSeparator(s[1..], c);
      assert c in s <==> s[0] == c || c in s[1..];
    }
  }

  /** A separator-free piece, the separator, then the rest: the piece comes first. */
  lemma {:induction false} SplitOnAfter(a: string, c: char, b: string)
    requires c !in a
    ensures SplitOn(a + [c] + b, c) == [a] + SplitOn(b, c)
  {
    if |a| == 0 {
      assert a + [c] + b == [c] + b;
      assert ([c] + b)[1..] == b;
    } else {
      assert (a + [c] + b)[1..] == a[1..] + [c] + b;
      SplitOnAfter(a[1..], c, b);
      assert [a[0]] + a[1..] == a;
    }
  }

  /** Without the separator there is one piece, the whole string. */
  lemma {:induction false} SplitOnAbsent(a: string, c: char)
    requires c !in a
    ensures SplitOn(a, c) == [a]
  {
    if |a| > 0 {
      SplitOnAbsent(a[1..], c);
      assert [a[0]] + a[1..] == a;
    }
  }

  /** Leading whitespace before a word is what `lstrip` drops. */
  lemma {:induction false} TrimStartPadded(pre: string, s: string)
    requires AllSpace(pre) && |s| > 0 && !IsSpace(s[0])
    ensures TrimStart(pre + s) == s
  {
    if |pre| > 0 {
      assert (pre + s)[0] == pre[0];
      assert (pre + s)[1..] == pre[1..] + s;
      TrimStartPadded(pre[1..], s);
    } else {
      assert pre + s == s;
    }
  }

  /** Trailing whitespace after a word is what `rstrip` drops. */
  lemma {:induction false} TrimEndPadded(s: string, post: string)
    requires AllSpace(post) && |s| > 0 && !IsSpace(s[|s| - 1])
    ensures TrimEnd(s + post) == s
  {
    if |post| > 0 {
      assert (s + post)[|s + post| - 1] == post[|post| - 1];
      assert (s + post)[..|s + post| - 1] == s + post[..|post| - 1];
      TrimEndPadded(s, post[..|post| - 1]);
    } else {
      assert s + post == s;
    }
  }

  /** `strip()` of text padded with whitespace on both sides is the text. */
  lemma StripPadded(pre: string, s: string, post: string)
    requires AllSpace(pre) && AllSpace(post)
    requires |s| > 0 && !IsSpace(s[0]) && !IsSpace(s[|s| - 1])
    ensures Strip(pre + s + post) == s
  {
    assert pre + s + post == pre + (s + post);
    assert (s + post)[0] == s[0];
    TrimStartPadded(pre, s + post);
    TrimEndPadded(s, post);
  }

  /** `strip()` of a space and then text drops just the space. */
  lemma StripLeadingSpace(s: string)
    requires |s| > 0 && !IsSpace(s[0]) && !IsSpace(s[|s| - 1])
    ensures Strip(" " + s) == s
  {
    StripPadded(" ", s, "");
    assert " " + s + "" == " " + s;
  }
}
