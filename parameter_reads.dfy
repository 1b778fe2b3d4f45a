/**
 * What the parameter reader does with any file, not only with one `write`
 * produced: the lines before the marker play no part, a file without the
 * marker fails before any attribute is set, a successful read consumes
 * exactly 32 + 2 * nst lines and fills the eight structure lists with `nst`
 * entries each, in file order, and a file that stops inside the structures
 * or the tail fails with the attributes read so far left in the object.
 */
module ParameterReads {
  import opened Outcomes
  import opened Text
  import opened Numerals
  import opened Parameters

  // ----- Where reading starts -----

  /** Scanning from any line of a marker-free preamble stops just after the marker line that follows it. */
  lemma {:induction false} ScanToMarker(pre: seq<string>, m: string, rest: seq<string>, from: nat)
    requires forall k :: 0 <= k < |pre| ==> !Contains(pre[k], Marker)
    requires Contains(m, Marker) && from <= |pre|
    ensures MarkerScan(pre + [m] + rest, from) == |pre| + 1
    decreases |pre| - from
  {
    var lines := pre + [m] + rest;
    if from < |pre| {
      assert lines[from] == pre[from];
      ScanToMarker(pre, m, rest, from + 1);
    } else {
      assert lines[from] == m;
    }
  }

  /** Reading starts on the line right after the first line that contains the marker. */
  lemma StartAfterFirstMarker(pre: seq<string>, m: string, rest: seq<string>)
    requires forall k :: 0 <= k < |pre| ==> !Contains(pre[k], Marker)
    requires Contains(m, Marker)
    ensures StartIndex(pre + [m] + rest) == |pre| + 1
  {
    ScanToMarker(pre, m, rest, 0);
  }

  // ----- The preamble plays no part -----

  /** The two files have as many lines, and the same lines from `i` on. */
  predicate SameFrom(a: seq<string>, b: seq<string>, i: nat) {
    |a| == |b| && (i <= |a| ==> a[i..] == b[i..])
  }

  lemma SameFromAfter(a: seq<string>, b: seq<string>, i: nat, d: nat)
    requires SameFrom(a, b, i)
    ensures SameFrom(a, b, i + d)
  {
    if i + d <= |a| {
      assert a[i + d..] == a[i..][d..];
      assert b[i + d..] == b[i..][d..];
    }
  }

  lemma TokensSame(a: seq<string>, b: seq<string>, i: nat, j: nat)
    requires SameFrom(a, b, i) && i <= j
    ensures Tokens(a, j) == Tokens(b, j)
  {
    if j < |a| {
      assert a[j] == a[i..][j - i];
      assert b[j] == b[i..][j - i];
    }
  }

  lemma DataSame(p: Params, a: seq<string>, b: seq<string>, i: nat, num: Numerals)
    requires SameFrom(a, b, i)
    ensures DataFields(p, a, i, num) == DataFields(p, b, i, num)
  {
    TokensSame(a, b, i, i);
    TokensSame(a, b, i, i + 1);
    TokensSame(a, b, i, i + 2);
    TokensSame(a, b, i, i + 3);
    TokensSame(a, b, i, i + 4);
    TokensSame(a, b, i, i + 5);
  }

  lemma RunSame(p: Params, a: seq<string>, b: seq<string>, i: nat, num: Numerals)
    requires SameFrom(a, b, i)
    ensures RunFields(p, a, i, num) == RunFields(p, b, i, num)
  {
    TokensSame(a, b, i, i);
    TokensSame(a, b, i, i + 1);
    TokensSame(a, b, i, i + 2);
    TokensSame(a, b, i, i + 3);
    TokensSame(a, b, i, i + 4);
    TokensSame(a, b, i, i + 5);
  }

  lemma GridSame(p: Params, a: seq<string>, b: seq<string>, i: nat, num: Numerals)
    requires SameFrom(a, b, i)
    ensures GridFields(p, a, i, num) == GridFields(p, b, i, num)
  {
    TokensSame(a, b, i, i);
    TokensSame(a, b, i, i + 1);
    TokensSame(a, b, i, i + 2);
    TokensSame(a, b, i, i + 3);
    TokensSame(a, b, i, i + 4);
    TokensSame(a, b, i, i + 5);
    // split on whether the three axis lines read in full
    if i + 5 < |a| {
      var t0, t1, t2 := Split(a[i]), Split(a[i + 1]), Split(a[i + 2]);
      if IntAt(t0, 0, num).Success? && RealAt(t0, 1, num).Success? && RealAt(t0, 2, num).Success?
         && IntAt(t1, 0, num).Success? && RealAt(t1, 1, num).Success? && RealAt(t1, 2, num).Success?
         && IntAt(t2, 0, num).Success? && RealAt(t2, 1, num).Success? && RealAt(t2, 2, num).Success? {
      }
    }
  }

  lemma KrigingSame(p: Params, a: seq<string>, b: seq<string>, i: nat, num: Numerals)
    requires SameFrom(a, b, i)
    ensures KrigingFields(p, a, i, num) == KrigingFields(p, b, i, num)
  {
    TokensSame(a, b, i, i);
    TokensSame(a, b, i, i + 1);
    TokensSame(a, b, i, i + 2);
    TokensSame(a, b, i, i + 3);
  }

  lemma {:induction false} StructuresSame(p: Params, a: seq<string>, b: seq<string>, i: nat, k: int, n: int, num: Numerals)
    requires SameFrom(a, b, i)
    ensures StructureFields(p, a, i, k, n, num) == StructureFields(p, b, i, k, n, num)
    decreases n - k
  {
    if k < n {
      TokensSame(a, b, i, i);
      TokensSame(a, b, i, i + 1);
      var x := NextStructure(p, a, i, num);
      assert x == NextStructure(p, b, i, num);
      if x.Got? {
        NextAdvance(p, a, i, num);
        SameFromAfter(a, b, i, 2);
        StructuresSame(x.value.p, a, b, i + 2, k + 1, n, num);
      }
    }
  }

  lemma TailSame(p: Params, a: seq<string>, b: seq<string>, i: nat, num: Numerals)
    requires SameFrom(a, b, i)
    ensures TailFields(p, a, i, num) == TailFields(p, b, i, num)
  {
    TokensSame(a, b, i, i);
    TokensSame(a, b, i, i + 1);
    TokensSame(a, b, i, i + 2);
  }

  /** The read once the structure count is known: the structures, then the tail. */
  function AfterKriging(c: Cursor, lines: seq<string>, num: Numerals): Attempt<Cursor> {
    var c :- StructureFields(c.p, lines, c.idx, 0, c.p.nst, num);
    TailFields(c.p, lines, c.idx, num)
  }

  function AfterGrid(c: Cursor, lines: seq<string>, num: Numerals): Attempt<Cursor> {
    var c :- KrigingFields(c.p, lines, c.idx, num);
    AfterKriging(c, lines, num)
  }

  function AfterRun(c: Cursor, lines: seq<string>, num: Numerals): Attempt<Cursor> {
    var c :- GridFields(c.p, lines, c.idx, num);
    AfterGrid(c, lines, num)
  }

  function AfterData(c: Cursor, lines: seq<string>, num: Numerals): Attempt<Cursor> {
    var c :- RunFields(c.p, lines, c.idx, num);
    AfterRun(c, lines, num)
  }

  /** The whole read, stage by stage. */
  lemma DecodeStages(prior: Params, lines: seq<string>, num: Numerals)
    ensures DecodeTo(prior, lines, num)
            == (var c :- DataFields(prior, lines, StartIndex(lines), num); AfterData(c, lines, num))
  {
  }

  lemma AfterKrigingSame(c: Cursor, a: seq<string>, b: seq<string>, num: Numerals)
    requires SameFrom(a, b, c.idx)
    ensures AfterKriging(c, a, num) == AfterKriging(c, b, num)
  {
    StructuresSame(c.p, a, b, c.idx, 0, c.p.nst, num);
    var x := StructureFields(c.p, a, c.idx, 0, c.p.nst, num);
    if x.Got? {
      StructuresMove(c.p, a, c.idx, 0, c.p.nst, num);
      SameFromAfter(a, b, c.idx, x.value.idx - c.idx);
      TailSame(x.value.p, a, b, x.value.idx, num);
    }
  }

  lemma AfterGridSame(c: Cursor, a: seq<string>, b: seq<string>, num: Numerals)
    requires SameFrom(a, b, c.idx)
    ensures AfterGrid(c, a, num) == AfterGrid(c, b, num)
  {
    KrigingSame(c.p, a, b, c.idx, num);
    var x := KrigingFields(c.p, a, c.idx, num);
    if x.Got? {
      KrigingAdvance(c.p, a, c.idx, num);
      SameFromAfter(a, b, c.idx, 4);
      AfterKrigingSame(x.value, a, b, num);
    }
  }

  lemma AfterRunSame(c: Cursor, a: seq<string>, b: seq<string>, num: Numerals)
    requires SameFrom(a, b, c.idx)
    ensures AfterRun(c, a, num) == AfterRun(c, b, num)
  {
    GridSame(c.p, a, b, c.idx, num);
    var x := GridFields(c.p, a, c.idx, num);
    if x.Got? {
      GridAdvance(c.p, a, c.idx, num);
      SameFromAfter(a, b, c.idx, 10);
      AfterGridSame(x.value, a, b, num);
    }
  }

  lemma AfterDataSame(c: Cursor, a: seq<string>, b: seq<string>, num: Numerals)
    requires SameFrom(a, b, c.idx)
    ensures AfterData(c, a, num) == AfterData(c, b, num)
  {
    RunSame(c.p, a, b, c.idx, num);
    var x := RunFields(c.p, a, c.idx, num);
    if x.Got? {
      RunAdvance(c.p, a, c.idx, num);
      SameFromAfter(a, b, c.idx, 9);
      AfterRunSame(x.value, a, b, num);
    }
  }

  /** Two files of as many lines that agree from where reading starts read alike. */
  lemma DecodeSame(prior: Params, a: seq<string>, b: seq<string>, num: Numerals)
    requires StartIndex(a) == StartIndex(b) && SameFrom(a, b, StartIndex(a))
    ensures DecodeTo(prior, a, num) == DecodeTo(prior, b, num)
  {
    var i := StartIndex(a);
    DecodeStages(prior, a, num);
    DecodeStages(prior, b, num);
    DataSame(prior, a, b, i, num);
    var x := DataFields(prior, a, i, num);
    if x.Got? {
      DataAdvance(prior, a, i, num);
      SameFromAfter(a, b, i, 6);
      AfterDataSame(x.value, a, b, num);
    }
  }

  /**
   * Every line before the marker line is ignored: replacing them by as many
   * other marker-free lines, and the marker line by another line holding
   * the marker, leaves what `read` produces unchanged.
   */
  lemma PreambleIgnored(prior: Params, pre: seq<string>, m: string, pre': seq<string>, m': string,
                        rest: seq<string>, num: Numerals)
    requires |pre| == |pre'|
    requires forall k :: 0 <= k < |pre| ==> !Contains(pre[k], Marker)
    requires forall k :: 0 <= k < |pre'| ==> !Contains(pre'[k], Marker)
    requires Contains(m, Marker) && Contains(m', Marker)
    ensures Decode(prior, pre + [m] + rest, num) == Decode(prior, pre' + [m'] + rest, num)
  {
    var a, b := pre + [m] + rest, pre' + [m'] + rest;
    StartAfterFirstMarker(pre, m, rest);
    StartAfterFirstMarker(pre', m', rest);
    assert a[|pre| + 1..] == rest == b[|pre| + 1..];
    DecodeSame(prior, a, b, num);
  }

  /** Without a marker line, reading starts past the end and fails on the first field, changing nothing. */
  lemma NoMarkerFails(prior: Params, lines: seq<string>, num: Numerals)
    requires forall k :: 0 <= k < |lines| ==> !Contains(lines[k], Marker)
    ensures StartIndex(lines) == |lines|
    ensures Decode(prior, lines, num) == Stopped(prior, LineMissing)
  {
  }

  // ----- How far each step reads -----

  lemma DataAdvance(p: Params, lines: seq<string>, idx: nat, num: Numerals)
    requires DataFields(p, lines, idx, num).Got?
    ensures DataFields(p, lines, idx, num).value.idx == idx + 6 <= |lines|
  {
    // every read of lines 1-6 succeeded, in order
    assert idx < |lines|;
    assert IntAt(Split(lines[idx]), 0, num).Success?;
    assert idx + 1 < |lines|;
    assert |Split(lines[idx + 1])| > 0;
    assert idx + 2 < |lines|;
    assert IntAt(Split(lines[idx + 2]), 0, num).Success?;
    assert IntAt(Split(lines[idx + 2]), 1, num).Success?;
    assert IntAt(Split(lines[idx + 2]), 2, num).Success?;
    assert IntAt(Split(lines[idx + 2]), 3, num).Success?;
    assert idx + 3 < |lines|;
    assert |Split(lines[idx + 3])| > 0;
    assert idx + 4 < |lines|;
    assert |Split(lines[idx + 4])| > 0;
    assert idx + 5 < |lines|;
    assert RealAt(Split(lines[idx + 5]), 0, num).Success?;
    assert RealAt(Split(lines[idx + 5]), 1, num).Success?;
  }

  lemma RunAdvance(p: Params, lines: seq<string>, idx: nat, num: Numerals)
    requires RunFields(p, lines, idx, num).Got?
    ensures RunFields(p, lines, idx, num).value.idx == idx + 9 && idx + 6 <= |lines|
  {
    // every read of lines 7-12 succeeded, in order
    assert idx < |lines|;
    assert Ints(Prefix(Split(lines[idx]), 7), num).Success?;
    assert idx + 1 < |lines|;
    assert |Split(lines[idx + 1])| > 0;
    assert idx + 2 < |lines|;
    assert IntAt(Split(lines[idx + 2]), 0, num).Success?;
    assert idx + 3 < |lines|;
    assert IntAt(Split(lines[idx + 3]), 0, num).Success?;
    assert idx + 4 < |lines|;
    assert |Split(lines[idx + 4])| > 0;
    assert idx + 5 < |lines|;
    assert IntAt(Split(lines[idx + 5]), 0, num).Success?;
    assert IntAt(Split(lines[idx + 5]), 1, num).Success?;
  }

  /** The debugging levels are the first seven words of line 7, or all of them when there are fewer. */
  lemma RunLevels(p: Params, lines: seq<string>, idx: nat, num: Numerals)
    requires RunFields(p, lines, idx, num).Got?
    ensures idx < |lines|
    ensures Ints(Prefix(Split(lines[idx]), 7), num) == Success(RunFields(p, lines, idx, num).value.p.idbg)
  {
    // every read of lines 7-12 succeeded; only the first sets `idbg`
    RunAdvance(p, lines, idx, num);
    assert Ints(Prefix(Split(lines[idx]), 7), num).Success?;
    assert |Split(lines[idx + 1])| > 0;
    assert IntAt(Split(lines[idx + 2]), 0, num).Success?;
    assert IntAt(Split(lines[idx + 3]), 0, num).Success?;
    assert |Split(lines[idx + 4])| > 0;
    assert IntAt(Split(lines[idx + 5]), 0, num).Success?;
    assert IntAt(Split(lines[idx + 5]), 1, num).Success?;
  }

  lemma GridAdvance(p: Params, lines: seq<string>, idx: nat, num: Numerals)
    requires GridFields(p, lines, idx, num).Got?
    ensures GridFields(p, lines, idx, num).value.idx == idx + 10 && idx + 6 <= |lines|
    ensures GridFields(p, lines, idx, num).value.p.idbg == p.idbg
  {
    // every read of lines 16-21 succeeded, in order
    assert idx < |lines|;
    assert IntAt(Split(lines[idx]), 0, num).Success?;
    assert RealAt(Split(lines[idx]), 1, num).Success?;
    assert RealAt(Split(lines[idx]), 2, num).Success?;
    assert idx + 1 < |lines|;
    assert IntAt(Split(lines[idx + 1]), 0, num).Success?;
    assert RealAt(Split(lines[idx + 1]), 1, num).Success?;
    assert RealAt(Split(lines[idx + 1]), 2, num).Success?;
    assert idx + 2 < |lines|;
    assert IntAt(Split(lines[idx + 2]), 0, num).Success?;
    assert RealAt(Split(lines[idx + 2]), 1, num).Success?;
    assert RealAt(Split(lines[idx + 2]), 2, num).Success?;
    assert idx + 3 < |lines|;
    assert IntAt(Split(lines[idx + 3]), 0, num).Success?;
    assert idx + 4 < |lines|;
    assert IntAt(Split(lines[idx + 4]), 0, num).Success?;
    assert IntAt(Split(lines[idx + 4]), 1, num).Success?;
    assert idx + 5 < |lines|;
    assert IntAt(Split(lines[idx + 5]), 0, num).Success?;
  }

  /** Line 29 gives `nst` and empties the eight structure lists. */
  lemma KrigingAdvance(p: Params, lines: seq<string>, idx: nat, num: Numerals)
    requires KrigingFields(p, lines, idx, num).Got?
    ensures KrigingFields(p, lines, idx, num).value.idx == idx + 4 <= |lines|
    ensures var q := KrigingFields(p, lines, idx, num).value.p;
      && q.idbg == p.idbg && Lengths(q, 0)
      && |Split(lines[idx + 3])| >= 2 && num.parseInt(Split(lines[idx + 3])[0]) == Some(q.nst)
  {
    // every read of lines 26-29 succeeded, in order
    assert idx < |lines|;
    assert RealAt(Split(lines[idx]), 0, num).Success?;
    assert RealAt(Split(lines[idx]), 1, num).Success?;
    assert RealAt(Split(lines[idx]), 2, num).Success?;
    assert idx + 1 < |lines|;
    assert RealAt(Split(lines[idx + 1]), 0, num).Success?;
    assert RealAt(Split(lines[idx + 1]), 1, num).Success?;
    assert RealAt(Split(lines[idx + 1]), 2, num).Success?;
    assert idx + 2 < |lines|;
    assert RealAt(Split(lines[idx + 2]), 0, num).Success?;
    assert RealAt(Split(lines[idx + 2]), 1, num).Success?;
    assert idx + 3 < |lines|;
    assert IntAt(Split(lines[idx + 3]), 0, num).Success?;
    assert RealAt(Split(lines[idx + 3]), 1, num).Success?;
  }

  /** The eight structure lists all have `m` entries. */
  predicate Lengths(p: Params, m: nat) {
    && |p.it| == m && |p.cc| == m && |p.ang1| == m && |p.ang2| == m && |p.ang3| == m
    && |p.aa| == m && |p.aa1| == m && |p.aa2| == m
  }

  /** One variogram structure: model type, contribution, three angles and three ranges. */
  datatype Variogram = Variogram(it: int, cc: real, ang1: real, ang2: real, ang3: real, aa: real, aa1: real, aa2: real)

  /** Entry `k` of the eight structure lists. */
  function StructureOf(p: Params, k: nat): Variogram
    requires FirstRowReady(p, k) && SecondRowReady(p, k)
  {
    Variogram(p.it[k], p.cc[k], p.ang1[k], p.ang2[k], p.ang3[k], p.aa[k], p.aa1[k], p.aa2[k])
  }

  /**
   * The structure that lines `idx` and `idx + 1` describe by their leading
   * words: model type, contribution and three angles on the first, three
   * ranges on the second; none when a line, a word or a number is missing.
   */
  function StructureIn(lines: seq<string>, idx: nat, num: Numerals): Option<Variogram> {
    if idx + 1 >= |lines| then None
    else
      var t, u := Split(lines[idx]), Split(lines[idx + 1]);
      if |t| < 5 || |u| < 3 then None
      else
        var it, cc, ang1, ang2, ang3 := num.parseInt(t[0]), num.parseFloat(t[1]), num.parseFloat(t[2]),
                                         num.parseFloat(t[3]), num.parseFloat(t[4]);
        var aa, aa1, aa2 := num.parseFloat(u[0]), num.parseFloat(u[1]), num.parseFloat(u[2]);
        if it.Some? && cc.Some? && ang1.Some? && ang2.Some? && ang3.Some? && aa.Some? && aa1.Some? && aa2.Some?
        then Some(Variogram(it.value, cc.value, ang1.value, ang2.value, ang3.value, aa.value, aa1.value, aa2.value))
        else None
  }

  /** `r`'s structure lists extend `q`'s, and every other attribute is `q`'s. */
  predicate Appended(q: Params, r: Params) {
    && q.it <= r.it && q.cc <= r.cc && q.ang1 <= r.ang1 && q.ang2 <= r.ang2 && q.ang3 <= r.ang3
    && q.aa <= r.aa && q.aa1 <= r.aa1 && q.aa2 <= r.aa2
    && r == q.(it := r.it, cc := r.cc, ang1 := r.ang1, ang2 := r.ang2, ang3 := r.ang3, aa := r.aa, aa1 := r.aa1, aa2 := r.aa2)
  }

  /** A structure read appends one entry to each list, taken from its two lines. */
  lemma NextAdvance(p: Params, lines: seq<string>, idx: nat, num: Numerals)
    requires NextStructure(p, lines, idx, num).Got?
    ensures var c := NextStructure(p, lines, idx, num).value;
      && c.idx == idx + 2
      && c.p == p.(it := p.it + [c.p.it[|p.it|]], cc := p.cc + [c.p.cc[|p.cc|]], ang1 := p.ang1 + [c.p.ang1[|p.ang1|]],
                   ang2 := p.ang2 + [c.p.ang2[|p.ang2|]], ang3 := p.ang3 + [c.p.ang3[|p.ang3|]],
                   aa := p.aa + [c.p.aa[|p.aa|]], aa1 := p.aa1 + [c.p.aa1[|p.aa1|]], aa2 := p.aa2 + [c.p.aa2[|p.aa2|]])
  {
  }

  /** The new entries of a structure read are the values of its two lines. */
  lemma NextReads(p: Params, lines: seq<string>, idx: nat, m: nat, num: Numerals)
    requires Lengths(p, m) && NextStructure(p, lines, idx, num).Got?
    ensures var q := NextStructure(p, lines, idx, num).value.p;
      Lengths(q, m + 1) && StructureIn(lines, idx, num) == Some(StructureOf(q, m))
  {
    NextAdvance(p, lines, idx, num);
  }

  /**
   * The structure loop from structure `k` moves the cursor two lines per
   * structure and only appends to the eight lists.
   */
  lemma {:induction false} StructuresMove(p: Params, lines: seq<string>, idx: nat, k: int, n: int, num: Numerals)
    requires StructureFields(p, lines, idx, k, n, num).Got?
    ensures var c := StructureFields(p, lines, idx, k, n, num).value;
      c.idx == idx + 2 * Count(n - k) && Appended(p, c.p)
    decreases n - k
  {
    var c := StructureFields(p, lines, idx, k, n, num).value;
    if k < n {
      var x := NextStructure(p, lines, idx, num).value;
      NextAdvance(p, lines, idx, num);
      StructuresMove(x.p, lines, idx + 2, k + 1, n, num);
      assert c == StructureFields(x.p, lines, idx + 2, k + 1, n, num).value;
      AppendedOne(p, x.p, Variogram(x.p.it[|p.it|], x.p.cc[|p.cc|], x.p.ang1[|p.ang1|], x.p.ang2[|p.ang2|],
                                    x.p.ang3[|p.ang3|], x.p.aa[|p.aa|], x.p.aa1[|p.aa1|], x.p.aa2[|p.aa2|]));
      AppendedTrans(p, x.p, c.p);
    } else {
      AppendedSelf(p);
    }
  }

  /** The structure loop appends one entry per structure to each list. */
  lemma {:induction false} StructuresLengths(p: Params, lines: seq<string>, idx: nat, k: int, n: int, m: nat, num: Numerals)
    requires Lengths(p, m) && StructureFields(p, lines, idx, k, n, num).Got?
    ensures Lengths(StructureFields(p, lines, idx, k, n, num).value.p, m + Count(n - k))
    decreases n - k
  {
    if k < n {
      var x := NextStructure(p, lines, idx, num).value;
      NextReads(p, lines, idx, m, num);
      StructuresLengths(x.p, lines, idx + 2, k + 1, n, m + 1, num);
    }
  }

  /**
   * Entry `e = m + s` appended by the structure loop is read from lines
   * `at = idx + 2*s` and `at + 1`.
   */
  lemma {:induction false} StructureReadAt(p: Params, lines: seq<string>, idx: nat, k: int, n: int, m: nat, s: nat,
                                           at: nat, e: nat, c: Cursor, num: Numerals)
    requires Lengths(p, m) && StructureFields(p, lines, idx, k, n, num) == Got(c) && s < Count(n - k)
    requires at == idx + 2 * s && e == m + s
    ensures FirstRowReady(c.p, e) && SecondRowReady(c.p, e)
    ensures StructureIn(lines, at, num) == Some(StructureOf(c.p, e))
    decreases n - k
  {
    if s == 0 {
      StructureReadFirst(p, lines, idx, k, n, m, c, num);
    } else {
      var q := StructureNext(p, lines, idx, k, n, m, c, num);
      StructureReadAt(q, lines, idx + 2, k + 1, n, m + 1, s - 1, at, e, c, num);
    }
  }

  /** The record after the first structure the loop reads, from which the loop goes on. */
  lemma StructureNext(p: Params, lines: seq<string>, idx: nat, k: int, n: int, m: nat, c: Cursor, num: Numerals)
    returns (q: Params)
    requires Lengths(p, m) && StructureFields(p, lines, idx, k, n, num) == Got(c) && k < n
    ensures Lengths(q, m + 1) && StructureFields(q, lines, idx + 2, k + 1, n, num) == Got(c)
  {
    q := NextStructure(p, lines, idx, num).value.p;
    NextReads(p, lines, idx, m, num);
    NextAdvance(p, lines, idx, num);
  }

  /** The first structure the loop reads is entry `m`, read from lines `idx` and `idx + 1`. */
  lemma StructureReadFirst(p: Params, lines: seq<string>, idx: nat, k: int, n: int, m: nat, c: Cursor, num: Numerals)
    requires Lengths(p, m) && StructureFields(p, lines, idx, k, n, num) == Got(c) && k < n
    ensures FirstRowReady(c.p, m) && SecondRowReady(c.p, m)
    ensures StructureIn(lines, idx, num) == Some(StructureOf(c.p, m))
  {
    var x := NextStructure(p, lines, idx, num).value;
    assert StructureFields(x.p, lines, idx + 2, k + 1, n, num) == Got(c);
    NextReads(p, lines, idx, m, num);
    StructuresMove(x.p, lines, idx + 2, k + 1, n, num);
    KeepsEntry(x.p, c.p, m);
  }

  lemma AppendedSelf(p: Params)
    ensures Appended(p, p)
  {
  }

  /** One entry appended to each list is an extension. */
  lemma AppendedOne(p: Params, x: Params, v: Variogram)
    requires x == p.(it := p.it + [v.it], cc := p.cc + [v.cc], ang1 := p.ang1 + [v.ang1], ang2 := p.ang2 + [v.ang2],
                     ang3 := p.ang3 + [v.ang3], aa := p.aa + [v.aa], aa1 := p.aa1 + [v.aa1], aa2 := p.aa2 + [v.aa2])
    ensures Appended(p, x)
  {
  }

  lemma AppendedTrans(p: Params, x: Params, r: Params)
    requires Appended(p, x) && Appended(x, r)
    ensures Appended(p, r)
  {
  }

  /** An extension keeps the entries it extends. */
  lemma KeepsEntry(x: Params, r: Params, m: nat)
    requires Lengths(x, m + 1) && Appended(x, r)
    ensures FirstRowReady(r, m) && SecondRowReady(r, m)
    ensures StructureOf(r, m) == StructureOf(x, m)
  {
    assert r.it[m] == (x.it + r.it[m + 1..])[m];
    assert r.cc[m] == (x.cc + r.cc[m + 1..])[m];
    assert r.ang1[m] == (x.ang1 + r.ang1[m + 1..])[m];
    assert r.ang2[m] == (x.ang2 + r.ang2[m + 1..])[m];
    assert r.ang3[m] == (x.ang3 + r.ang3[m + 1..])[m];
    assert r.aa[m] == (x.aa + r.aa[m + 1..])[m];
    assert r.aa1[m] == (x.aa1 + r.aa1[m + 1..])[m];
    assert r.aa2[m] == (x.aa2 + r.aa2[m + 1..])[m];
  }

  /** The tail sets the six tail attributes and nothing else. */
  lemma TailAdvance(p: Params, lines: seq<string>, idx: nat, num: Numerals)
    requires TailFields(p, lines, idx, num).Got?
    ensures var c := TailFields(p, lines, idx, num).value;
      && c.idx == idx + 3 <= |lines|
      && c.p == p.(zmin := c.p.zmin, zmax := c.p.zmax, ltail := c.p.ltail, ltpar := c.p.ltpar, utail := c.p.utail, utpar := c.p.utpar)
  {
  }

  // ----- What a successful read consumes -----

  /** The structures and the tail: two lines per structure, read into the emptied lists in file order, then three lines. */
  lemma AfterKrigingReads(c: Cursor, lines: seq<string>, r: Cursor, num: Numerals)
    requires Lengths(c.p, 0) && AfterKriging(c, lines, num) == Got(r)
    ensures r.idx == c.idx + 2 * Count(c.p.nst) + 3 <= |lines|
    ensures r.p.nst == c.p.nst && r.p.idbg == c.p.idbg && Lengths(r.p, Count(c.p.nst))
    ensures forall s :: 0 <= s < Count(c.p.nst) ==> StructureIn(lines, c.idx + 2 * s, num) == Some(StructureOf(r.p, s))
  {
    var d := StructureFields(c.p, lines, c.idx, 0, c.p.nst, num).value;
    assert TailFields(d.p, lines, d.idx, num) == Got(r);
    StructuresMove(c.p, lines, c.idx, 0, c.p.nst, num);
    StructuresLengths(c.p, lines, c.idx, 0, c.p.nst, 0, num);
    TailAdvance(d.p, lines, d.idx, num);
    forall s | 0 <= s < Count(c.p.nst)
      ensures StructureIn(lines, c.idx + 2 * s, num) == Some(StructureOf(r.p, s))
    {
      StructureReadAt(c.p, lines, c.idx, 0, c.p.nst, 0, s, c.idx + 2 * s, s, d, num);
    }
  }

  /** From line 26 on: the kriging lines, with `nst` on the fourth of them, then the structures from line `at`. */
  lemma AfterGridReads(c: Cursor, lines: seq<string>, r: Cursor, at: nat, num: Numerals)
    requires AfterGrid(c, lines, num) == Got(r) && at == c.idx + 4
    ensures at <= r.idx == at + 2 * Count(r.p.nst) + 3 <= |lines|
    ensures r.p.idbg == c.p.idbg && Lengths(r.p, Count(r.p.nst))
    ensures |Split(lines[at - 1])| >= 2 && num.parseInt(Split(lines[at - 1])[0]) == Some(r.p.nst)
    ensures forall s :: 0 <= s < Count(r.p.nst) ==> StructureIn(lines, at + 2 * s, num) == Some(StructureOf(r.p, s))
  {
    var k := KrigingFields(c.p, lines, c.idx, num).value;
    assert AfterKriging(k, lines, num) == Got(r);
    KrigingAdvance(c.p, lines, c.idx, num);
    AfterKrigingReads(k, lines, r, num);
  }

  /** From line 16 on: ten grid and neighbourhood lines come first. */
  lemma AfterRunReads(c: Cursor, lines: seq<string>, r: Cursor, at: nat, num: Numerals)
    requires AfterRun(c, lines, num) == Got(r) && at == c.idx + 14
    ensures at <= r.idx == at + 2 * Count(r.p.nst) + 3 <= |lines|
    ensures r.p.idbg == c.p.idbg && Lengths(r.p, Count(r.p.nst))
    ensures |Split(lines[at - 1])| >= 2 && num.parseInt(Split(lines[at - 1])[0]) == Some(r.p.nst)
    ensures forall s :: 0 <= s < Count(r.p.nst) ==> StructureIn(lines, at + 2 * s, num) == Some(StructureOf(r.p, s))
  {
    var g := GridFields(c.p, lines, c.idx, num).value;
    assert AfterGrid(g, lines, num) == Got(r);
    GridAdvance(c.p, lines, c.idx, num);
    AfterGridReads(g, lines, r, at, num);
  }

  /** From line 7 on: the debugging levels lead, and nine lines come before the grid. */
  lemma AfterDataReads(c: Cursor, lines: seq<string>, r: Cursor, at: nat, num: Numerals)
    requires AfterData(c, lines, num) == Got(r) && at == c.idx + 23
    ensures at <= r.idx == at + 2 * Count(r.p.nst) + 3 <= |lines|
    ensures c.idx < |lines| && Ints(Prefix(Split(lines[c.idx]), 7), num) == Success(r.p.idbg)
    ensures Lengths(r.p, Count(r.p.nst))
    ensures |Split(lines[at - 1])| >= 2 && num.parseInt(Split(lines[at - 1])[0]) == Some(r.p.nst)
    ensures forall s :: 0 <= s < Count(r.p.nst) ==> StructureIn(lines, at + 2 * s, num) == Some(StructureOf(r.p, s))
  {
    var u := RunFields(c.p, lines, c.idx, num).value;
    assert AfterRun(u, lines, num) == Got(r);
    RunAdvance(c.p, lines, c.idx, num);
    RunLevels(c.p, lines, c.idx, num);
    AfterRunReads(u, lines, r, at, num);
  }

  /**
   * A successful read consumes exactly `BlockLength(nst)` = 32 + 2 * nst lines
   * after the marker line: `nst` comes from line 29, each of the eight
   * structure lists ends with exactly `nst` entries, entry `s` read from
   * lines 30 + 2s and 31 + 2s, and `idbg` holds the values of at most the
   * first seven words of line 7.
   */
  lemma ReadConsumes(prior: Params, lines: seq<string>, r: Cursor, num: Numerals)
    requires DecodeTo(prior, lines, num) == Got(r)
    ensures var i := StartIndex(lines);
      && r.idx == i + BlockLength(r.p.nst) <= |lines|
      && Lengths(r.p, Count(r.p.nst))
      && |Split(lines[i + 28])| >= 2 && num.parseInt(Split(lines[i + 28])[0]) == Some(r.p.nst)
      && |r.p.idbg| <= 7 && Ints(Prefix(Split(lines[i + 6]), 7), num) == Success(r.p.idbg)
      && forall s :: 0 <= s < Count(r.p.nst) ==> StructureIn(lines, i + 29 + 2 * s, num) == Some(StructureOf(r.p, s))
  {
    var i := StartIndex(lines);
    DecodeStages(prior, lines, num);
    var d := DataFields(prior, lines, i, num).value;
    assert AfterData(d, lines, num) == Got(r);
    DataAdvance(prior, lines, i, num);
    AfterDataReads(d, lines, r, i + 29, num);
  }

  // ----- A file that stops inside the structures or the tail -----

  /** Lines 1-29: what `read` sets before the structure loop, and where the loop starts. */
  function FixedPart(prior: Params, lines: seq<string>, num: Numerals): Attempt<Cursor> {
    var c :- DataFields(prior, lines, StartIndex(lines), num);
    var c :- RunFields(c.p, lines, c.idx, num);
    var c :- GridFields(c.p, lines, c.idx, num);
    KrigingFields(c.p, lines, c.idx, num)
  }

  /**
   * `q` is `fixed` with entries appended to the structure lists and the tail
   * attributes perhaps set: every other attribute is `fixed`'s.
   */
  predicate PartlyRead(fixed: Params, q: Params) {
    Appended(fixed, q.(zmin := fixed.zmin, zmax := fixed.zmax, ltail := fixed.ltail, ltpar := fixed.ltpar,
                       utail := fixed.utail, utpar := fixed.utpar))
  }

  /** A structure read that fails has appended to some of the lists and changed nothing else. */
  lemma NextStopped(p: Params, lines: seq<string>, idx: nat, q: Params, e: ReadError, num: Numerals)
    requires NextStructure(p, lines, idx, num) == Stopped(q, e)
    ensures Appended(p, q)
  {
    var t := Tokens(lines, idx);
    if t.Success? {
      var v := IntAt(t.value, 0, num);
      if v.Success? {
        AnglesStopped(p, p.(it := p.it + [v.value]), lines, idx, t.value, q, e, num);
      }
    }
  }

  /** The rest of a structure's first line, and its second line, in a structure read that fails. */
  lemma AnglesStopped(p: Params, p1: Params, lines: seq<string>, idx: nat, t: seq<string>, q: Params, e: ReadError,
                      num: Numerals)
    requires Appended(p, p1)
    requires (var x :- Keep(RealAt(t, 1, num), p1);
              var p2 := p1.(cc := p1.cc + [x]);
              var x :- Keep(RealAt(t, 2, num), p2);
              var p3 := p2.(ang1 := p2.ang1 + [x]);
              var x :- Keep(RealAt(t, 3, num), p3);
              var p4 := p3.(ang2 := p3.ang2 + [x]);
              var x :- Keep(RealAt(t, 4, num), p4);
              var p5 := p4.(ang3 := p4.ang3 + [x]);
              var t :- Keep(Tokens(lines, idx + 1), p5);
              var x :- Keep(RealAt(t, 0, num), p5);
              var p6 := p5.(aa := p5.aa + [x]);
              var x :- Keep(RealAt(t, 1, num), p6);
              var p7 := p6.(aa1 := p6.aa1 + [x]);
              var x :- Keep(RealAt(t, 2, num), p7);
              Got(Cursor(p7.(aa2 := p7.aa2 + [x]), idx + 2))) == Stopped(q, e)
    ensures Appended(p, q)
  {
    var x1 := RealAt(t, 1, num);
    if x1.Success? {
      var p2 := p1.(cc := p1.cc + [x1.value]);
      var x2 := RealAt(t, 2, num);
      if x2.Success? {
        var p3 := p2.(ang1 := p2.ang1 + [x2.value]);
        var x3 := RealAt(t, 3, num);
        if x3.Success? {
          var p4 := p3.(ang2 := p3.ang2 + [x3.value]);
          var x4 := RealAt(t, 4, num);
          if x4.Success? {
            SecondRowStopped(p, p4.(ang3 := p4.ang3 + [x4.value]), lines, idx + 1, q, e, num);
          } else {
            assert q == p4;
          }
        } else {
          assert q == p3;
        }
      } else {
        assert q == p2;
      }
    }
  }

  /** The ranges line of a structure read that fails after the first line was read. */
  lemma SecondRowStopped(p: Params, p5: Params, lines: seq<string>, idx: nat, q: Params, e: ReadError, num: Numerals)
    requires Appended(p, p5)
    requires (var t :- Keep(Tokens(lines, idx), p5);
              var x :- Keep(RealAt(t, 0, num), p5);
              var p6 := p5.(aa := p5.aa + [x]);
              var x :- Keep(RealAt(t, 1, num), p6);
              var p7 := p6.(aa1 := p6.aa1 + [x]);
              var x :- Keep(RealAt(t, 2, num), p7);
              Got(Cursor(p7.(aa2 := p7.aa2 + [x]), idx + 1))) == Stopped(q, e)
    ensures Appended(p, q)
  {
    var t := Tokens(lines, idx);
    if t.Success? {
      var x0 := RealAt(t.value, 0, num);
      if x0.Success? {
        var p6 := p5.(aa := p5.aa + [x0.value]);
        var x1 := RealAt(t.value, 1, num);
        if x1.Success? {
          var p7 := p6.(aa1 := p6.aa1 + [x1.value]);
          assert q == p7;
        } else {
          assert q == p6;
        }
      }
    }
  }

  /** A structure loop that fails has only appended to the lists. */
  lemma {:induction false} StructuresStopped(p: Params, lines: seq<string>, idx: nat, k: int, n: int,
                                             q: Params, e: ReadError, num: Numerals)
    requires StructureFields(p, lines, idx, k, n, num) == Stopped(q, e)
    ensures Appended(p, q)
    decreases n - k
  {
    var x := NextStructure(p, lines, idx, num);
    if x.Stopped? {
      NextStopped(p, lines, idx, q, e, num);
    } else {
      NextAdvance(p, lines, idx, num);
      StructuresStopped(x.value.p, lines, idx + 2, k + 1, n, q, e, num);
      var y := x.value.p;
      AppendedOne(p, y, Variogram(y.it[|p.it|], y.cc[|p.cc|], y.ang1[|p.ang1|], y.ang2[|p.ang2|],
                                  y.ang3[|p.ang3|], y.aa[|p.aa|], y.aa1[|p.aa1|], y.aa2[|p.aa2|]));
      AppendedTrans(p, y, q);
    }
  }

  /** A tail that fails has set some of the tail attributes and nothing else. */
  lemma TailStopped(p: Params, lines: seq<string>, idx: nat, q: Params, e: ReadError, num: Numerals)
    requires TailFields(p, lines, idx, num) == Stopped(q, e)
    ensures q == p.(zmin := q.zmin, zmax := q.zmax, ltail := q.ltail, ltpar := q.ltpar, utail := q.utail, utpar := q.utpar)
  {
  }

  /** Structures and tail that need more lines than remain stop, having only appended and set tail attributes. */
  lemma AfterKrigingStops(c: Cursor, lines: seq<string>, num: Numerals)
    requires |lines| < c.idx + 2 * Count(c.p.nst) + 3
    ensures AfterKriging(c, lines, num).Stopped?
    ensures PartlyRead(c.p, AfterKriging(c, lines, num).partial)
  {
    var x := StructureFields(c.p, lines, c.idx, 0, c.p.nst, num);
    if x.Stopped? {
      StructuresStopped(c.p, lines, c.idx, 0, c.p.nst, x.partial, x.error, num);
    } else {
      var d := x.value;
      StructuresMove(c.p, lines, c.idx, 0, c.p.nst, num);
      var y := TailFields(d.p, lines, d.idx, num);
      if y.Got? {
        TailAdvance(d.p, lines, d.idx, num);
        assert false;
      }
      TailStopped(d.p, lines, d.idx, y.partial, y.error, num);
    }
  }

  /** Lines 1-29 take 29 lines after the marker line, and line 29 gives `nst`. */
  lemma FixedAdvance(prior: Params, lines: seq<string>, c: Cursor, num: Numerals)
    requires FixedPart(prior, lines, num) == Got(c)
    ensures c.idx == StartIndex(lines) + 29 <= |lines| && Lengths(c.p, 0)
  {
    var i := StartIndex(lines);
    var d := DataFields(prior, lines, i, num).value;
    DataAdvance(prior, lines, i, num);
    var u := RunFields(d.p, lines, d.idx, num).value;
    RunAdvance(d.p, lines, d.idx, num);
    var g := GridFields(u.p, lines, u.idx, num).value;
    GridAdvance(u.p, lines, u.idx, num);
    KrigingAdvance(g.p, lines, g.idx, num);
  }

  /**
   * `read` is not atomic: when fewer than 2 * nst + 3 lines follow the `nst`
   * line, it fails, and the object keeps everything lines 1-29 set,
   * together with whatever structure entries and tail attributes were read
   * before the failure.
   */
  lemma ShortFileStops(prior: Params, lines: seq<string>, c: Cursor, num: Numerals)
    requires FixedPart(prior, lines, num) == Got(c)
    requires |lines| < StartIndex(lines) + BlockLength(c.p.nst)
    ensures Decode(prior, lines, num).Stopped?
    ensures PartlyRead(c.p, Decode(prior, lines, num).partial)
  {
    FixedAdvance(prior, lines, c, num);
    AfterKrigingStops(c, lines, num);
    assert DecodeTo(prior, lines, num) == AfterKriging(c, lines, num);
  }
}
