/**
 * What the reader and the writer of the parameter file promise each other:
 * the reader starts after the marker line, consumes a fixed block of lines,
 * and reading what `write` emitted gives the record back.
 */
module ParameterProofs {
  import opened Outcomes
  import opened Text
  import opened Numerals
  import opened Parameters

  /** `rows` stand in `lines` from index `idx` on. */
  predicate At(lines: seq<string>, idx: nat, rows: seq<string>) {
    idx + |rows| <= |lines| && forall j :: idx <= j < idx + |rows| ==> Slot(lines, j) == rows[j - idx]
  }

  /**
   * Line `j`. `At` speaks of lines through `Slot` so that its facts are used
   * only where a proof asks for them with `LinesAt`.
   */
  function Slot(lines: seq<string>, j: int): string
    requires 0 <= j < |lines|
  {
    lines[j]
  }

  lemma LinesAt(lines: seq<string>, idx: nat, rows: seq<string>)
    requires At(lines, idx, rows)
    ensures forall j :: idx <= j < idx + |rows| ==> lines[j] == rows[j - idx]
  {
    forall j | idx <= j < idx + |rows|
      ensures lines[j] == rows[j - idx]
    {
      assert Slot(lines, j) == rows[j - idx];
    }
  }

  lemma AtSplit(lines: seq<string>, idx: nat, rows: seq<string>, m: nat)
    requires At(lines, idx, rows) && m <= |rows|
    ensures At(lines, idx, rows[..m]) && At(lines, idx + m, rows[m..])
  {
    assert forall k :: 0 <= k < |rows| - m ==> rows[m..][k] == rows[m + k];
  }

  // ----- Round trip, section by section -----

  /** The record after lines 1-6 written from `p` are read into `q`. */
  function WithData(q: Params, p: Params, num: Numerals): Params {
    q.(icond := p.icond, datafl := p.datafl, icolx := p.icolx, icoly := p.icoly, icolz := p.icolz, icolvr := p.icolvr,
       volgeomfl := p.volgeomfl, volsumfl := p.volsumfl, tmin := SciValue(num, p.tmin), tmax := SciValue(num, p.tmax))
  }

  function WithRun(q: Params, p: Params): Params {
    q.(idbg := Prefix(p.idbg, 7), outfl := p.outfl, nsim := p.nsim, idrawopt := p.idrawopt, refhistFile := p.refhistFile,
       ibt := p.ibt, ibtw := p.ibtw)
  }

  function WithGrid(q: Params, p: Params): Params {
    q.(nx := p.nx, xmn := p.xmn, xsiz := p.xsiz, ny := p.ny, ymn := p.ymn, ysiz := p.ysiz,
       nz := p.nz, zmn := p.zmn, zsiz := p.zsiz, ixv := p.ixv, ndmin := p.ndmin, ndmax := p.ndmax, nodmax := p.nodmax)
  }

  function WithKriging(q: Params, p: Params): Params {
    q.(radius := p.radius, radius1 := p.radius1, radius2 := p.radius2, sang1 := p.sang1, sang2 := p.sang2, sang3 := p.sang3,
       gmean := p.gmean, gvar := p.gvar, nst := p.nst, c0 := p.c0,
       it := [], cc := [], ang1 := [], ang2 := [], ang3 := [], aa := [], aa1 := [], aa2 := [])
  }

  function WithTail(q: Params, p: Params): Params {
    q.(zmin := p.zmin, zmax := p.zmax, ltail := p.ltail, ltpar := p.ltpar, utail := p.utail, utpar := p.utpar)
  }

  /** `int` of `str` of each level gives the levels back. */
  lemma {:induction false} ReadShown(words: seq<string>, levels: seq<int>, num: Numerals)
    requires Sound(num)
    requires |words| == |levels| && forall k :: 0 <= k < |words| ==> words[k] == num.showInt(levels[k])
    ensures Ints(words, num) == Success(levels)
  {
    if |words| > 0 {
      assert words[0] == num.showInt(levels[0]);
      IntRoundTrip(num, levels[0]);
      ReadShown(words[1..], levels[1..], num);
      assert levels == [levels[0]] + levels[1..];
    }
  }

  // Each `...Words` lemma reads the words of a few lines back as the
  // values `write` formatted into them; each `...RoundTrip` lemma then runs
  // the corresponding reading phase over those lines.

  lemma DataWordsA(p: Params, lines: seq<string>, idx: nat, num: Numerals)
    requires Sound(num) && Named(p)
    requires At(lines, idx, Rendered(DataLayout(p, num)))
    ensures IntAt(Split(lines[idx]), 0, num) == Success(p.icond)
    ensures WordAt(Split(lines[idx + 1]), 0) == Success(p.datafl)
    ensures var t := Split(lines[idx + 2]);
      && IntAt(t, 0, num) == Success(p.icolx) && IntAt(t, 1, num) == Success(p.icoly)
      && IntAt(t, 2, num) == Success(p.icolz) && IntAt(t, 3, num) == Success(p.icolvr)
  {
    LinesAt(lines, idx, Rendered(DataLayout(p, num)));
    var layout := DataLayout(p, num);
    LineWords(layout[0]);
    LineWords(layout[1]);
    LineWords(layout[2]);
  }

  lemma DataWordsB(p: Params, lines: seq<string>, idx: nat, num: Numerals)
    requires Sound(num) && Named(p)
    requires At(lines, idx, Rendered(DataLayout(p, num)))
    ensures WordAt(Split(lines[idx + 3]), 0) == Success(p.volgeomfl)
    ensures WordAt(Split(lines[idx + 4]), 0) == Success(p.volsumfl)
    ensures var t := Split(lines[idx + 5]);
      RealAt(t, 0, num) == Success(SciValue(num, p.tmin)) && RealAt(t, 1, num) == Success(SciValue(num, p.tmax))
  {
    LinesAt(lines, idx, Rendered(DataLayout(p, num)));
    var layout := DataLayout(p, num);
    LineWords(layout[3]);
    LineWords(layout[4]);
    LineWords(layout[5]);
  }

  lemma DataRoundTrip(q: Params, p: Params, lines: seq<string>, idx: nat, num: Numerals)
    requires Sound(num) && Named(p)
    requires At(lines, idx, Rendered(DataLayout(p, num)))
    ensures DataFields(q, lines, idx, num) == Got(Cursor(WithData(q, p, num), idx + 6))
  {
    DataWordsA(p, lines, idx, num);
    DataWordsB(p, lines, idx, num);
  }

  /** The leading words of `" ".join(ws)` followed by padding and text are `ws`. */
  lemma JoinWords(ws: seq<string>, g: string, s: string)
    requires forall k :: 0 <= k < |ws| ==> IsToken(ws[k])
    requires IsGap(g)
    ensures Leads(Join(" ", ws) + g + s, ws)
  {
    SplitJoinThen(ws, g, s);
  }

  lemma RunWordsA(p: Params, lines: seq<string>, idx: nat, num: Numerals)
    requires Sound(num) && Named(p) && |p.idbg| >= 7
    requires At(lines, idx, [LevelsRow(p, num)] + Rendered(RunLayout(p, num)))
    ensures Ints(Prefix(Split(lines[idx]), 7), num) == Success(Prefix(p.idbg, 7))
    ensures WordAt(Split(lines[idx + 1]), 0) == Success(p.outfl)
    ensures IntAt(Split(lines[idx + 2]), 0, num) == Success(p.nsim)
  {
    LinesAt(lines, idx, [LevelsRow(p, num)] + Rendered(RunLayout(p, num)));
    var shown := Shown(p.idbg, num);
    forall k | 0 <= k < |shown|
      ensures IsToken(shown[k])
    {
      IntRoundTrip(num, p.idbg[k]);
    }
    assert lines[idx] == Join(" ", shown) + Spaces(13) + "- debugging level";
    JoinWords(shown, Spaces(13), "- debugging level");
    assert Prefix(Split(lines[idx]), 7) == Prefix(shown, 7);
    ReadShown(Prefix(shown, 7), Prefix(p.idbg, 7), num);
    var layout := RunLayout(p, num);
    LineWords(layout[0]);
    LineWords(layout[1]);
  }

  lemma RunWordsB(p: Params, lines: seq<string>, idx: nat, num: Numerals)
    requires Sound(num) && Named(p) && |p.idbg| >= 7
    requires At(lines, idx, [LevelsRow(p, num)] + Rendered(RunLayout(p, num)))
    ensures IntAt(Split(lines[idx + 3]), 0, num) == Success(p.idrawopt)
    ensures WordAt(Split(lines[idx + 4]), 0) == Success(p.refhistFile)
    ensures var t := Split(lines[idx + 5]);
      IntAt(t, 0, num) == Success(p.ibt) && IntAt(t, 1, num) == Success(p.ibtw)
  {
    LinesAt(lines, idx, [LevelsRow(p, num)] + Rendered(RunLayout(p, num)));
    var layout := RunLayout(p, num);
    LineWords(layout[2]);
    LineWords(layout[3]);
    LineWords(layout[4]);
  }

  lemma RunRoundTrip(q: Params, p: Params, lines: seq<string>, idx: nat, num: Numerals)
    requires Sound(num) && Named(p) && |p.idbg| >= 7
    requires At(lines, idx, [LevelsRow(p, num)] + Rendered(RunLayout(p, num)))
    ensures RunFields(q, lines, idx, num) == Got(Cursor(WithRun(q, p), idx + 9))
  {
    RunWordsA(p, lines, idx, num);
    RunWordsB(p, lines, idx, num);
  }

  lemma GridWordsA(p: Params, lines: seq<string>, idx: nat, num: Numerals)
    requires Sound(num) && GridFloats(p, num)
    requires At(lines, idx, Rendered(GridLayout(p, num)))
    ensures var t := Split(lines[idx]);
      IntAt(t, 0, num) == Success(p.nx) && RealAt(t, 1, num) == Success(p.xmn) && RealAt(t, 2, num) == Success(p.xsiz)
    ensures var t := Split(lines[idx + 1]);
      IntAt(t, 0, num) == Success(p.ny) && RealAt(t, 1, num) == Success(p.ymn) && RealAt(t, 2, num) == Success(p.ysiz)
  {
    LinesAt(lines, idx, Rendered(GridLayout(p, num)));
    var layout := GridLayout(p, num);
    LineWords(layout[0]);
    LineWords(layout[1]);
  }

  lemma GridWordsB(p: Params, lines: seq<string>, idx: nat, num: Numerals)
    requires Sound(num) && GridFloats(p, num)
    requires At(lines, idx, Rendered(GridLayout(p, num)))
    ensures var t := Split(lines[idx + 2]);
      IntAt(t, 0, num) == Success(p.nz) && RealAt(t, 1, num) == Success(p.zmn) && RealAt(t, 2, num) == Success(p.zsiz)
    ensures IntAt(Split(lines[idx + 3]), 0, num) == Success(p.ixv)
  {
    LinesAt(lines, idx, Rendered(GridLayout(p, num)));
    var layout := GridLayout(p, num);
    LineWords(layout[2]);
    LineWords(layout[3]);
  }

  lemma GridWordsC(p: Params, lines: seq<string>, idx: nat, num: Numerals)
    requires Sound(num)
    requires At(lines, idx, Rendered(GridLayout(p, num)))
    ensures var t := Split(lines[idx + 4]);
      IntAt(t, 0, num) == Success(p.ndmin) && IntAt(t, 1, num) == Success(p.ndmax)
    ensures IntAt(Split(lines[idx + 5]), 0, num) == Success(p.nodmax)
  {
    LinesAt(lines, idx, Rendered(GridLayout(p, num)));
    var layout := GridLayout(p, num);
    LineWords(layout[4]);
    LineWords(layout[5]);
  }

  lemma GridRoundTrip(q: Params, p: Params, lines: seq<string>, idx: nat, num: Numerals)
    requires Sound(num) && GridFloats(p, num)
    requires At(lines, idx, Rendered(GridLayout(p, num)))
    ensures GridFields(q, lines, idx, num) == Got(Cursor(WithGrid(q, p), idx + 10))
  {
    GridWordsA(p, lines, idx, num);
    GridWordsB(p, lines, idx, num);
    GridWordsC(p, lines, idx, num);
  }

  lemma KrigingWordsA(p: Params, lines: seq<string>, idx: nat, num: Numerals)
    requires Sound(num) && KrigingFloats(p, num)
    requires At(lines, idx, Rendered(KrigingLayout(p, num)))
    ensures var t := Split(lines[idx]);
      && RealAt(t, 0, num) == Success(p.radius) && RealAt(t, 1, num) == Success(p.radius1)
      && RealAt(t, 2, num) == Success(p.radius2)
    ensures var t := Split(lines[idx + 1]);
      && RealAt(t, 0, num) == Success(p.sang1) && RealAt(t, 1, num) == Success(p.sang2)
      && RealAt(t, 2, num) == Success(p.sang3)
  {
    LinesAt(lines, idx, Rendered(KrigingLayout(p, num)));
    var layout := KrigingLayout(p, num);
    LineWords(layout[0]);
    LineWords(layout[1]);
  }

  lemma KrigingWordsB(p: Params, lines: seq<string>, idx: nat, num: Numerals)
    requires Sound(num) && KrigingFloats(p, num)
    requires At(lines, idx, Rendered(KrigingLayout(p, num)))
    ensures var t := Split(lines[idx + 2]);
      RealAt(t, 0, num) == Success(p.gmean) && RealAt(t, 1, num) == Success(p.gvar)
    ensures var t := Split(lines[idx + 3]);
      IntAt(t, 0, num) == Success(p.nst) && RealAt(t, 1, num) == Success(p.c0)
  {
    LinesAt(lines, idx, Rendered(KrigingLayout(p, num)));
    var layout := KrigingLayout(p, num);
    LineWords(layout[2]);
    LineWords(layout[3]);
  }

  lemma KrigingRoundTrip(q: Params, p: Params, lines: seq<string>, idx: nat, num: Numerals)
    requires Sound(num) && KrigingFloats(p, num)
    requires At(lines, idx, Rendered(KrigingLayout(p, num)))
    ensures KrigingFields(q, lines, idx, num) == Got(Cursor(WithKriging(q, p), idx + 4))
  {
    KrigingWordsA(p, lines, idx, num);
    KrigingWordsB(p, lines, idx, num);
  }

  /** The two lines of structure `i` read back as its eight values. */
  lemma StructureWords(p: Params, lines: seq<string>, idx: nat, i: nat, num: Numerals)
    requires Sound(num) && FirstRowReady(p, i) && SecondRowReady(p, i) && StructureFloats(p, num, i)
    requires idx + 2 <= |lines|
    requires lines[idx] == StructureRowA(p, i, num) && lines[idx + 1] == StructureRowB(p, i, num)
    ensures var t := Split(lines[idx]);
      && IntAt(t, 0, num) == Success(p.it[i]) && RealAt(t, 1, num) == Success(p.cc[i])
      && RealAt(t, 2, num) == Success(p.ang1[i]) && RealAt(t, 3, num) == Success(p.ang2[i])
      && RealAt(t, 4, num) == Success(p.ang3[i])
    ensures var t := Split(lines[idx + 1]);
      && RealAt(t, 0, num) == Success(p.aa[i]) && RealAt(t, 1, num) == Success(p.aa1[i])
      && RealAt(t, 2, num) == Success(p.aa2[i])
  {
    IntRoundTrip(num, p.it[i]);
    FloatRoundTrip(num, p.cc[i]);
    FloatRoundTrip(num, p.ang1[i]);
    FloatRoundTrip(num, p.ang2[i]);
    FloatRoundTrip(num, p.ang3[i]);
    LineWords(StructureLine(p, i, num));
    FloatRoundTrip(num, p.aa[i]);
    FloatRoundTrip(num, p.aa1[i]);
    FloatRoundTrip(num, p.aa2[i]);
    SplitAfterSpace(Spaces(9), Render(RangeLine(p, i, num)));
    LineWords(RangeLine(p, i, num));
  }

  /** The eight structure lists of `p`, cut to their first `n` entries. */
  function ListsTo(q: Params, p: Params, n: nat): Params {
    q.(it := Prefix(p.it, n), cc := Prefix(p.cc, n), ang1 := Prefix(p.ang1, n), ang2 := Prefix(p.ang2, n),
       ang3 := Prefix(p.ang3, n), aa := Prefix(p.aa, n), aa1 := Prefix(p.aa1, n), aa2 := Prefix(p.aa2, n))
  }

  /** Where the structures from `i` on stand, structure `i` stands first and the rest follow it. */
  lemma AtStructure(p: Params, lines: seq<string>, idx: nat, i: nat, num: Numerals)
    requires Writable(p) && i < p.nst
    requires At(lines, idx, StructureRows(p, num, i))
    ensures idx + 2 <= |lines|
    ensures lines[idx] == StructureRowA(p, i, num) && lines[idx + 1] == StructureRowB(p, i, num)
  {
    LinesAt(lines, idx, StructureRows(p, num, i));
    var rows := StructureRows(p, num, i);
    assert rows == [StructureRowA(p, i, num), StructureRowB(p, i, num)] + StructureRows(p, num, i + 1);
  }

  lemma AtStructures(p: Params, lines: seq<string>, idx: nat, i: nat, num: Numerals)
    requires Writable(p) && i < p.nst
    requires At(lines, idx, StructureRows(p, num, i))
    ensures At(lines, idx + 2, StructureRows(p, num, i + 1))
  {
    var rows := StructureRows(p, num, i);
    assert rows == [StructureRowA(p, i, num), StructureRowB(p, i, num)] + StructureRows(p, num, i + 1);
    AtSplit(lines, idx, rows, 2);
    assert rows[2..] == StructureRows(p, num, i + 1);
  }

  /** Reading structure `i` appends its values to the lists. */
  lemma StructureStep(q: Params, p: Params, lines: seq<string>, idx: nat, i: nat, num: Numerals)
    requires Sound(num) && Writable(p) && StructuresFloats(p, num) && i < p.nst
    requires At(lines, idx, StructureRows(p, num, i))
    ensures NextStructure(ListsTo(q, p, i), lines, idx, num) == Got(Cursor(ListsTo(q, p, i + 1), idx + 2))
  {
    AtStructure(p, lines, idx, i, num);
    StructureWords(p, lines, idx, i, num);
    PrefixNext(p.it, i);
    PrefixNext(p.cc, i);
    PrefixNext(p.ang1, i);
    PrefixNext(p.ang2, i);
    PrefixNext(p.ang3, i);
    PrefixNext(p.aa, i);
    PrefixNext(p.aa1, i);
    PrefixNext(p.aa2, i);
  }

  lemma {:induction false} StructuresRoundTrip(q: Params, p: Params, lines: seq<string>, idx: nat, i: nat, end: nat, num: Numerals)
    requires Sound(num) && Writable(p) && StructuresFloats(p, num)
    requires i <= Count(p.nst) && end == idx + 2 * (Count(p.nst) - i)
    requires At(lines, idx, StructureRows(p, num, i))
    ensures StructureFields(ListsTo(q, p, i), lines, idx, i, p.nst, num) == Got(Cursor(ListsTo(q, p, Count(p.nst)), end))
    decreases p.nst - i
  {
    if i < p.nst {
      StructuresStep(q, p, lines, idx, i, num);
      AtStructures(p, lines, idx, i, num);
      StructuresRoundTrip(q, p, lines, idx + 2, i + 1, end, num);
    } else {
      assert ListsTo(q, p, i) == ListsTo(q, p, Count(p.nst));
    }
  }

  /** Reading from structure `i` is reading structure `i`, then the rest. */
  lemma StructuresStep(q: Params, p: Params, lines: seq<string>, idx: nat, i: nat, num: Numerals)
    requires Sound(num) && Writable(p) && StructuresFloats(p, num) && i < p.nst
    requires At(lines, idx, StructureRows(p, num, i))
    ensures StructureFields(ListsTo(q, p, i), lines, idx, i, p.nst, num)
            == StructureFields(ListsTo(q, p, i + 1), lines, idx + 2, i + 1, p.nst, num)
  {
    StructureStep(q, p, lines, idx, i, num);
    FieldsStep(ListsTo(q, p, i), lines, idx, i, p.nst, num, Cursor(ListsTo(q, p, i + 1), idx + 2));
  }

  /** One structure read, then the rest. */
  lemma FieldsStep(p: Params, lines: seq<string>, idx: nat, i: int, n: int, num: Numerals, c: Cursor)
    requires i < n && NextStructure(p, lines, idx, num) == Got(c)
    ensures StructureFields(p, lines, idx, i, n, num) == StructureFields(c.p, lines, c.idx, i + 1, n, num)
  {
  }

  lemma TailRoundTrip(q: Params, p: Params, lines: seq<string>, idx: nat, num: Numerals)
    requires Sound(num) && TailFloats(p, num)
    requires At(lines, idx, Rendered(TailLayout(p, num)))
    ensures TailFields(q, lines, idx, num) == Got(Cursor(WithTail(q, p), idx + 3))
  {
    LinesAt(lines, idx, Rendered(TailLayout(p, num)));
    var layout := TailLayout(p, num);
    LineWords(layout[0]);
    LineWords(layout[1]);
    LineWords(layout[2]);
  }

  // ----- Where `write` puts each section -----

  lemma AtAppend(a: seq<string>, b: seq<string>)
    ensures At(a + b, |a|, b)
  {
  }

  lemma AtExtend(lines: seq<string>, idx: nat, rows: seq<string>, more: seq<string>)
    requires At(lines, idx, rows)
    ensures At(lines + more, idx, rows)
  {
    LinesAt(lines, idx, rows);
  }

  lemma PreambleHead(p: Params, num: Numerals)
    ensures var pre := Preamble(p, num);
      pre[0] == Banner[0] && pre[1] == Banner[1] && pre[2] == Banner[2] && pre[3] == MarkerLine
  {
  }

  lemma PreambleData(p: Params, num: Numerals)
    ensures At(Preamble(p, num), 4, Rendered(DataLayout(p, num)))
  {
  }

  lemma PreambleRun(p: Params, num: Numerals)
    ensures At(Preamble(p, num), 10, [LevelsRow(p, num)] + Rendered(RunLayout(p, num)))
  {
  }

  lemma PreambleDssim(p: Params, num: Numerals)
    ensures At(Preamble(p, num), 16, DssimFiller)
  {
  }

  lemma PreambleGrid(p: Params, num: Numerals)
    ensures At(Preamble(p, num), 19, Rendered(GridLayout(p, num)))
  {
  }

  lemma PreambleNeighborhood(p: Params, num: Numerals)
    ensures At(Preamble(p, num), 25, NeighborhoodFiller)
  {
  }

  lemma PreambleKriging(p: Params, num: Numerals)
    ensures At(Preamble(p, num), 29, Rendered(KrigingLayout(p, num)))
  {
  }

  /** The structure loop emits two lines per structure when every list is long enough. */
  lemma {:induction false} StructureRowsLength(p: Params, num: Numerals, i: nat)
    requires Writable(p) && i <= Count(p.nst)
    ensures |StructureRows(p, num, i)| == 2 * (Count(p.nst) - i)
    decreases p.nst - i
  {
    if i < p.nst {
      StructureRowsLength(p, num, i + 1);
    }
  }

  /**
   * `write` emits the 3 banner lines, the marker as line 4, the 29 fixed
   * lines with the two filler blocks, 2 lines per structure and the 3 tail
   * lines: 36 + 2 * nst lines in all.
   */
  lemma WriteLayout(p: Params, num: Numerals)
    requires Writable(p)
    ensures var e := Emitted(p, num);
      && |e| == 36 + 2 * Count(p.nst)
      && At(e, 4, Rendered(DataLayout(p, num)))
      && At(e, 10, [LevelsRow(p, num)] + Rendered(RunLayout(p, num)))
      && At(e, 16, DssimFiller)
      && At(e, 19, Rendered(GridLayout(p, num)))
      && At(e, 25, NeighborhoodFiller)
      && At(e, 29, Rendered(KrigingLayout(p, num)))
      && At(e, 33, StructureRows(p, num, 0))
      && At(e, 33 + 2 * Count(p.nst), Rendered(TailLayout(p, num)))
  {
    var pre := Preamble(p, num);
    var rows := StructureRows(p, num, 0);
    var tail := Rendered(TailLayout(p, num));
    StructureRowsLength(p, num, 0);
    PreambleFixed(p, num, rows, tail);
    AtAppend(pre, rows);
    AtExtend(pre + rows, 33, rows, tail);
    AtAppend(pre + rows, tail);
  }

  /** The fixed sections stay where they are when the structures and the tail follow. */
  lemma PreambleFixed(p: Params, num: Numerals, rows: seq<string>, tail: seq<string>)
    ensures var e := Preamble(p, num) + rows + tail;
      && At(e, 4, Rendered(DataLayout(p, num)))
      && At(e, 10, [LevelsRow(p, num)] + Rendered(RunLayout(p, num)))
      && At(e, 16, DssimFiller)
      && At(e, 19, Rendered(GridLayout(p, num)))
      && At(e, 25, NeighborhoodFiller)
      && At(e, 29, Rendered(KrigingLayout(p, num)))
  {
    var pre := Preamble(p, num);
    PreambleData(p, num);
    PreambleRun(p, num);
    PreambleDssim(p, num);
    PreambleGrid(p, num);
    PreambleNeighborhood(p, num);
    PreambleKriging(p, num);
    forall idx: nat, section: seq<string> | At(pre, idx, section)
      ensures At(pre + rows + tail, idx, section)
    {
      AtExtend(pre, idx, section, rows);
      AtExtend(pre + rows, idx, section, tail);
    }
  }

  /** None of the banner lines contains the marker: none has a capital O. */
  lemma TitleLacksMarker()
    ensures !Contains(Banner[0], Marker)
  {
    LacksCharNotContains(Banner[0], Marker, 'O');
  }

  lemma RuleLacksMarker()
    ensures !Contains(Banner[1], Marker)
  {
    LacksCharNotContains(Banner[1], Marker, 'O');
  }

  lemma MarkerLineHasMarker()
    ensures Contains(MarkerLine, Marker)
  {
    assert MarkerLine[..|Marker|] == Marker;
  }

  /** Reading starts right after the fourth line when only that one of the first four holds the marker. */
  lemma StartAtFour(lines: seq<string>)
    requires |lines| >= 4
    requires !Contains(lines[0], Marker) && !Contains(lines[1], Marker) && !Contains(lines[2], Marker)
    requires Contains(lines[3], Marker)
    ensures StartIndex(lines) == 4
  {
    assert MarkerScan(lines, 3) == 4;
    assert MarkerScan(lines, 1) == MarkerScan(lines, 2) == 4;
  }

  /** Reading `write`'s output starts right after its marker line, the fourth. */
  lemma WriteStart(p: Params, num: Numerals)
    requires Writable(p)
    ensures StartIndex(Emitted(p, num)) == 4
  {
    WriteHead(p, num);
    HeadMarkers(Emitted(p, num));
    StartAtFour(Emitted(p, num));
  }

  /** Of the banner and the marker line, only the marker line contains the marker. */
  lemma HeadMarkers(lines: seq<string>)
    requires |lines| >= 4
    requires lines[0] == Banner[0] && lines[1] == Banner[1] && lines[2] == Banner[2] && lines[3] == MarkerLine
    ensures !Contains(lines[0], Marker) && !Contains(lines[1], Marker) && !Contains(lines[2], Marker)
    ensures Contains(lines[3], Marker)
  {
    TitleLacksMarker();
    RuleLacksMarker();
    assert !Contains(Banner[2], Marker);
    MarkerLineHasMarker();
  }

  lemma WriteHead(p: Params, num: Numerals)
    requires Writable(p)
    ensures var e := Emitted(p, num);
      |e| >= 4 && e[0] == Banner[0] && e[1] == Banner[1] && e[2] == Banner[2] && e[3] == MarkerLine
  {
    PreambleHead(p, num);
  }

  /** `DecodeTo` runs its six phases one after the other, each from where the last one stopped. */
  lemma DecodeSteps(prior: Params, lines: seq<string>, num: Numerals, start: nat,
                    q1: Params, i1: nat, q2: Params, i2: nat, q3: Params, i3: nat,
                    q4: Params, i4: nat, q5: Params, i5: nat, last: Cursor)
    requires StartIndex(lines) == start
    requires DataFields(prior, lines, start, num) == Got(Cursor(q1, i1))
    requires RunFields(q1, lines, i1, num) == Got(Cursor(q2, i2))
    requires GridFields(q2, lines, i2, num) == Got(Cursor(q3, i3))
    requires KrigingFields(q3, lines, i3, num) == Got(Cursor(q4, i4))
    requires StructureFields(q4, lines, i4, 0, q4.nst, num) == Got(Cursor(q5, i5))
    requires TailFields(q5, lines, i5, num) == Got(last)
    ensures DecodeTo(prior, lines, num) == Got(last)
  {
  }

  /** The structure loop, started on emptied lists, reads all of `write`'s structures back. */
  lemma StructuresFromStart(q: Params, p: Params, lines: seq<string>, idx: nat, end: nat, num: Numerals)
    requires Sound(num) && Writable(p) && StructuresFloats(p, num)
    requires q.it == [] && q.cc == [] && q.ang1 == [] && q.ang2 == [] && q.ang3 == []
    requires q.aa == [] && q.aa1 == [] && q.aa2 == []
    requires q.nst == p.nst && end == idx + 2 * Count(p.nst)
    requires At(lines, idx, StructureRows(p, num, 0))
    ensures StructureFields(q, lines, idx, 0, q.nst, num) == Got(Cursor(ListsTo(q, p, Count(p.nst)), end))
  {
    assert ListsTo(q, p, 0) == q;
    StructuresRoundTrip(q, p, lines, idx, 0, end, num);
  }

  lemma TailRoundTripTo(q: Params, p: Params, lines: seq<string>, idx: nat, num: Numerals, r: Params, end: nat)
    requires Sound(num) && TailFloats(p, num)
    requires At(lines, idx, Rendered(TailLayout(p, num)))
    requires r == WithTail(q, p) && end == idx + 3
    ensures TailFields(q, lines, idx, num) == Got(Cursor(r, end))
  {
    TailRoundTrip(q, p, lines, idx, num);
  }

  /** Section by section, reading a written record into any `prior` leaves `Recovered`. */
  lemma RecoveredBySections(prior: Params, p: Params, num: Numerals)
    requires Writable(p) && |p.idbg| >= 7
    ensures WithTail(ListsTo(FixedRead(prior, p, num), p, Count(p.nst)), p) == Recovered(p, num)
  {
  }

  /** The record after the four fixed sections written from `p` are read into `prior`. */
  function FixedRead(prior: Params, p: Params, num: Numerals): Params {
    WithKriging(WithGrid(WithRun(WithData(prior, p, num), p), p), p)
  }

  /** The four fixed sections, each read from where `write` put it. */
  lemma FixedRoundTrip(prior: Params, p: Params, lines: seq<string>, num: Numerals)
    requires Sound(num) && Rereadable(p, num)
    requires At(lines, 4, Rendered(DataLayout(p, num)))
    requires At(lines, 10, [LevelsRow(p, num)] + Rendered(RunLayout(p, num)))
    requires At(lines, 19, Rendered(GridLayout(p, num)))
    requires At(lines, 29, Rendered(KrigingLayout(p, num)))
    ensures DataFields(prior, lines, 4, num) == Got(Cursor(WithData(prior, p, num), 10))
    ensures RunFields(WithData(prior, p, num), lines, 10, num) == Got(Cursor(WithRun(WithData(prior, p, num), p), 19))
    ensures GridFields(WithRun(WithData(prior, p, num), p), lines, 19, num)
            == Got(Cursor(WithGrid(WithRun(WithData(prior, p, num), p), p), 29))
    ensures KrigingFields(WithGrid(WithRun(WithData(prior, p, num), p), p), lines, 29, num)
            == Got(Cursor(FixedRead(prior, p, num), 33))
  {
    var q1 := WithData(prior, p, num);
    DataRoundTrip(prior, p, lines, 4, num);
    var q2 := WithRun(q1, p);
    RunRoundTrip(q1, p, lines, 10, num);
    var q3 := WithGrid(q2, p);
    GridRoundTrip(q2, p, lines, 19, num);
    KrigingRoundTrip(q3, p, lines, 29, num);
  }

  /** The structures, read after the fixed sections. */
  lemma StructuresAfterFixed(prior: Params, p: Params, lines: seq<string>, num: Numerals)
    requires Sound(num) && Rereadable(p, num)
    requires At(lines, 33, StructureRows(p, num, 0))
    ensures StructureFields(FixedRead(prior, p, num), lines, 33, 0, FixedRead(prior, p, num).nst, num)
            == Got(Cursor(ListsTo(FixedRead(prior, p, num), p, Count(p.nst)), 33 + 2 * Count(p.nst)))
  {
    StructuresFromStart(FixedRead(prior, p, num), p, lines, 33, 33 + 2 * Count(p.nst), num);
  }

  /** The tail, read after the structures: the record is now `Recovered(p)`. */
  lemma TailAfterStructures(prior: Params, p: Params, lines: seq<string>, num: Numerals)
    requires Sound(num) && Rereadable(p, num)
    requires |lines| == 36 + 2 * Count(p.nst)
    requires At(lines, 33 + 2 * Count(p.nst), Rendered(TailLayout(p, num)))
    ensures TailFields(ListsTo(FixedRead(prior, p, num), p, Count(p.nst)), lines, 33 + 2 * Count(p.nst), num)
            == Got(Cursor(Recovered(p, num), |lines|))
  {
    RecoveredBySections(prior, p, num);
    TailRoundTripTo(ListsTo(FixedRead(prior, p, num), p, Count(p.nst)), p, lines, 33 + 2 * Count(p.nst), num,
                    Recovered(p, num), |lines|);
  }

  /** Each reading phase, run over lines laid out as `write` lays out `p`, reads its section back. */
  lemma PhasesRoundTrip(prior: Params, p: Params, lines: seq<string>, num: Numerals)
    requires Sound(num) && Rereadable(p, num)
    requires |lines| == 36 + 2 * Count(p.nst)
    requires At(lines, 4, Rendered(DataLayout(p, num)))
    requires At(lines, 10, [LevelsRow(p, num)] + Rendered(RunLayout(p, num)))
    requires At(lines, 19, Rendered(GridLayout(p, num)))
    requires At(lines, 29, Rendered(KrigingLayout(p, num)))
    requires At(lines, 33, StructureRows(p, num, 0))
    requires At(lines, 33 + 2 * Count(p.nst), Rendered(TailLayout(p, num)))
    ensures DataFields(prior, lines, 4, num) == Got(Cursor(WithData(prior, p, num), 10))
    ensures RunFields(WithData(prior, p, num), lines, 10, num) == Got(Cursor(WithRun(WithData(prior, p, num), p), 19))
    ensures GridFields(WithRun(WithData(prior, p, num), p), lines, 19, num)
            == Got(Cursor(WithGrid(WithRun(WithData(prior, p, num), p), p), 29))
    ensures KrigingFields(WithGrid(WithRun(WithData(prior, p, num), p), p), lines, 29, num)
            == Got(Cursor(FixedRead(prior, p, num), 33))
    ensures StructureFields(FixedRead(prior, p, num), lines, 33, 0, FixedRead(prior, p, num).nst, num)
            == Got(Cursor(ListsTo(FixedRead(prior, p, num), p, Count(p.nst)), 33 + 2 * Count(p.nst)))
    ensures TailFields(ListsTo(FixedRead(prior, p, num), p, Count(p.nst)), lines, 33 + 2 * Count(p.nst), num)
            == Got(Cursor(Recovered(p, num), |lines|))
  {
    FixedRoundTrip(prior, p, lines, num);
    StructuresAfterFixed(prior, p, lines, num);
    TailAfterStructures(prior, p, lines, num);
  }

  /** The six phases, chained as `DecodeTo` chains them. */
  lemma PhasesChained(prior: Params, p: Params, lines: seq<string>, num: Numerals)
    requires Rereadable(p, num)
    requires StartIndex(lines) == 4
    requires DataFields(prior, lines, 4, num) == Got(Cursor(WithData(prior, p, num), 10))
    requires RunFields(WithData(prior, p, num), lines, 10, num) == Got(Cursor(WithRun(WithData(prior, p, num), p), 19))
    requires GridFields(WithRun(WithData(prior, p, num), p), lines, 19, num)
            == Got(Cursor(WithGrid(WithRun(WithData(prior, p, num), p), p), 29))
    requires KrigingFields(WithGrid(WithRun(WithData(prior, p, num), p), p), lines, 29, num)
            == Got(Cursor(FixedRead(prior, p, num), 33))
    requires StructureFields(FixedRead(prior, p, num), lines, 33, 0, FixedRead(prior, p, num).nst, num)
            == Got(Cursor(ListsTo(FixedRead(prior, p, num), p, Count(p.nst)), 33 + 2 * Count(p.nst)))
    requires TailFields(ListsTo(FixedRead(prior, p, num), p, Count(p.nst)), lines, 33 + 2 * Count(p.nst), num)
            == Got(Cursor(Recovered(p, num), |lines|))
    ensures DecodeTo(prior, lines, num) == Got(Cursor(Recovered(p, num), |lines|))
  {
    DecodeSteps(prior, lines, num, 4,
                WithData(prior, p, num), 10,
                WithRun(WithData(prior, p, num), p), 19,
                WithGrid(WithRun(WithData(prior, p, num), p), p), 29,
                FixedRead(prior, p, num), 33,
                ListsTo(FixedRead(prior, p, num), p, Count(p.nst)), 33 + 2 * Count(p.nst),
                Cursor(Recovered(p, num), |lines|));
  }

  /**
   * Reading lines laid out as `write` lays out `p` gives back `Recovered(p)`,
   * whatever record the object held before, and consumes every line.
   */
  lemma ReadLaidOut(prior: Params, p: Params, lines: seq<string>, num: Numerals)
    requires Sound(num) && Rereadable(p, num)
    requires |lines| == 36 + 2 * Count(p.nst)
    requires At(lines, 4, Rendered(DataLayout(p, num)))
    requires At(lines, 10, [LevelsRow(p, num)] + Rendered(RunLayout(p, num)))
    requires At(lines, 19, Rendered(GridLayout(p, num)))
    requires At(lines, 29, Rendered(KrigingLayout(p, num)))
    requires At(lines, 33, StructureRows(p, num, 0))
    requires At(lines, 33 + 2 * Count(p.nst), Rendered(TailLayout(p, num)))
    requires StartIndex(lines) == 4
    ensures DecodeTo(prior, lines, num) == Got(Cursor(Recovered(p, num), |lines|))
  {
    PhasesRoundTrip(prior, p, lines, num);
    PhasesChained(prior, p, lines, num);
  }

  /**
   * Write-then-read: reading the lines `write` emits gives back the record,
   * up to what `Recovered` says is lost, and consumes the whole file.
   */
  lemma WriteThenRead(prior: Params, p: Params, num: Numerals)
    requires Sound(num) && Rereadable(p, num)
    ensures DecodeTo(prior, Emitted(p, num), num) == Got(Cursor(Recovered(p, num), |Emitted(p, num)|))
    ensures Decode(prior, Emitted(p, num), num) == Got(Recovered(p, num))
  {
    WriteStart(p, num);
    WriteLayout(p, num);
    ReadLaidOut(prior, p, Emitted(p, num), num);
  }
}
