/**
 * The VISIM parameter file (python/visim/parameters.py).
 *
 * A parameter file is a banner, a line containing the marker
 * `START OF PARAMETERS`, and then one record per line at fixed positions:
 * 12 field lines, 3 legacy lines that are skipped, 6 field lines, 4 more
 * skipped lines, 4 field lines ending with the structure count `nst`,
 * `nst` two-line variogram structures, and a 3-line tail. Only the leading
 * words of each line are read; the rest of the line is a comment.
 *
 * `Params` is the record of every attribute `VisimParams` keeps; the class
 * `VisimParams` holds them in a mutable field and its methods
 * `Read` and `Write` are proved against the pure functions `Decode` and
 * `Emitted` below.
 */
module Parameters {
  import opened Outcomes
  import opened Text
  import opened Numerals

  datatype Params = Params(
    icond: int, datafl: string, icolx: int, icoly: int, icolz: int, icolvr: int,
    volgeomfl: string, volsumfl: string, tmin: real, tmax: real, idbg: seq<int>,
    outfl: string, nsim: int, idrawopt: int, refhistFile: string, ibt: int, ibtw: int,
    nx: int, xmn: real, xsiz: real, ny: int, ymn: real, ysiz: real, nz: int, zmn: real, zsiz: real,
    ixv: int, ndmin: int, ndmax: int, nodmax: int,
    radius: real, radius1: real, radius2: real, sang1: real, sang2: real, sang3: real,
    gmean: real, gvar: real,
    nst: int, c0: real,
    it: seq<int>, cc: seq<real>, ang1: seq<real>, ang2: seq<real>, ang3: seq<real>,
    aa: seq<real>, aa1: seq<real>, aa2: seq<real>,
    zmin: real, zmax: real, ltail: int, ltpar: real, utail: int, utpar: real)

  /** The values `_set_defaults` assigns; they can be written as they are. */
  function Defaults(): (d: Params)
    ensures Writable(d) && d.nst == 1 && |d.idbg| == 7
  {
    Params(
      0, "data.eas", 1, 2, 3, 4,
      "dummy_volgeom.eas", "dummy_volsum.eas", -1.0e21, 1.0e21, [0, -1, -1, -1, -1, 0, 0],
      "visim.out", 1, 0, "reference.eas", 1, 0,
      50, 0.0, 1.0, 50, 0.0, 1.0, 1, 0.0, 1.0,
      69069, 0, 12, 12,
      10.0, 10.0, 10.0, 0.0, 0.0, 0.0,
      0.0, 1.0,
      1, 0.0,
      [1], [1.0], [0.0], [0.0], [0.0],
      [10.0], [10.0], [10.0],
      -10.0, 10.0, 1, 1.0, 1, 1.0)
  }

  // ----- Layout of the file -----

  const Marker := "START OF PARAMETERS"

  const HeaderLines := 12        // lines 1-12: run settings
  const DssimLines := 3          // lines 13-15: DSSIM histogram settings, skipped
  const GridLines := 6           // lines 16-21: grid, seed, data counts
  const NeighborhoodLines := 4   // lines 22-25: neighbourhood and path settings, skipped
  const KrigingLines := 4        // lines 26-29: radii, angles, mean and variance, nst
  const TailLines := 3           // zmin/zmax, lower tail, upper tail

  /** Lines the reader consumes after the marker line. */
  function BlockLength(nst: int): nat {
    HeaderLines + DssimLines + GridLines + NeighborhoodLines + KrigingLines
      + 2 * (if nst < 0 then 0 else nst) + TailLines
  }

  // ----- Reading -----

  /** What `read` raises: IndexError (a missing line or word) or ValueError. */
  datatype ReadError = LineMissing | WordMissing | BadNumber(word: string)

  /**
   * The outcome of a reading step: a value, or the error together with the
   * record as far as it had been updated when the error was raised.
   */
  datatype Attempt<+T> = Got(value: T) | Stopped(partial: Params, error: ReadError) {

    predicate IsFailure() {
      Stopped?
    }

    function PropagateFailure<U>(): Attempt<U>
      requires Stopped?
    {
      Stopped(partial, error)
    }

    function Extract(): T
      requires Got?
    {
      value
    }
  }

  /** The record and the index `idx` of the next line to read. */
  datatype Cursor = Cursor(p: Params, idx: nat)

  function Keep<T>(r: Result<T, ReadError>, p: Params): (a: Attempt<T>)
    ensures r.Success? ==> a == Got(r.value)
    ensures r.Failure? ==> a == Stopped(p, r.error)
  {
    match r
    case Success(v) => Got(v)
    case Failure(e) => Stopped(p, e)
  }

  /** `lines[idx].split()` */
  function Tokens(lines: seq<string>, idx: nat): (r: Result<seq<string>, ReadError>)
    ensures r.Success? <==> idx < |lines|
    ensures r.Success? ==> r.value == Split(lines[idx])
    ensures r.Failure? ==> r.error == LineMissing
  {
    if idx < |lines| then Success(Split(lines[idx])) else Failure(LineMissing)
  }

  /** `int(parts[k])` */
  function IntAt(parts: seq<string>, k: nat, num: Numerals): (r: Result<int, ReadError>)
    ensures r.Success? <==> k < |parts| && num.parseInt(parts[k]).Some?
    ensures r.Success? ==> Some(r.value) == num.parseInt(parts[k])
  {
    if k >= |parts| then Failure(WordMissing)
    else match num.parseInt(parts[k])
      case Some(v) => Success(v)
      case None => Failure(BadNumber(parts[k]))
  }

  /** `float(parts[k])` */
  function RealAt(parts: seq<string>, k: nat, num: Numerals): (r: Result<real, ReadError>)
    ensures r.Success? <==> k < |parts| && num.parseFloat(parts[k]).Some?
    ensures r.Success? ==> Some(r.value) == num.parseFloat(parts[k])
  {
    if k >= |parts| then Failure(WordMissing)
    else match num.parseFloat(parts[k])
      case Some(v) => Success(v)
      case None => Failure(BadNumber(parts[k]))
  }

  /** `parts[k]`, for the file-name fields */
  function WordAt(parts: seq<string>, k: nat): (r: Result<string, ReadError>)
    ensures r.Success? <==> k < |parts|
    ensures r.Success? ==> r.value == parts[k]
  {
    if k >= |parts| then Failure(WordMissing) else Success(parts[k])
  }

  /** `[int(x) for x in words]`: all of them, or the first word that is not a number. */
  function Ints(words: seq<string>, num: Numerals): (r: Result<seq<int>, ReadError>)
    ensures r.Success? ==> |r.value| == |words|
    ensures r.Success? ==> forall k :: 0 <= k < |words| ==> num.parseInt(words[k]) == Some(r.value[k])
    ensures r.Success? <==> AllInts(num, words)
    ensures r.Failure? ==> exists k :: FirstNonInt(num, words, k) && r.error == BadNumber(words[k])
  {
    if |words| == 0 then Success([])
    else match num.parseInt(words[0])
      case None => Failure(BadNumber(words[0]))
      case Some(v) =>
        var rest :- Ints(words[1..], num);
        Success([v] + rest)
  }

  /** The first index at or after `from` whose line contains the marker, plus one; |lines| if none. */
  function MarkerScan(lines: seq<string>, from: nat): (r: nat)
    requires from <= |lines|
    ensures from <= r <= |lines|
    ensures forall j :: from <= j < r - 1 ==> !Contains(lines[j], Marker)
    ensures (r > from && Contains(lines[r - 1], Marker))
            || (r == |lines| && forall j :: from <= j < |lines| ==> !Contains(lines[j], Marker))
    decreases |lines| - from
  {
    if from == |lines| then |lines|
    else if Contains(lines[from], Marker) then from + 1
    else MarkerScan(lines, from + 1)
  }

  /**
   * Where reading starts: just after the first line containing the marker,
   * or at the end of the file when there is none.
   */
  function StartIndex(lines: seq<string>): nat {
    MarkerScan(lines, 0)
  }

  /** Lines 1-6: conditioning data, volume files and trimming limits. */
  function DataFields(p: Params, lines: seq<string>, idx: nat, num: Numerals): Attempt<Cursor> {
    // line 1: conditioning type
    var t :- Keep(Tokens(lines, idx), p);
    var v :- Keep(IntAt(t, 0, num), p);
    var p := p.(icond := v);
    // line 2: conditioning data file
    var t :- Keep(Tokens(lines, idx + 1), p);
    var s :- Keep(WordAt(t, 0), p);
    var p := p.(datafl := s);
    // line 3: columns for x, y, z and the value
    var t :- Keep(Tokens(lines, idx + 2), p);
    var v :- Keep(IntAt(t, 0, num), p);
    var p := p.(icolx := v);
    var v :- Keep(IntAt(t, 1, num), p);
    var p := p.(icoly := v);
    var v :- Keep(IntAt(t, 2, num), p);
    var p := p.(icolz := v);
    var v :- Keep(IntAt(t, 3, num), p);
    var p := p.(icolvr := v);
    // lines 4 and 5: volume geometry and volume summary files
    var t :- Keep(Tokens(lines, idx + 3), p);
    var s :- Keep(WordAt(t, 0), p);
    var p := p.(volgeomfl := s);
    var t :- Keep(Tokens(lines, idx + 4), p);
    var s :- Keep(WordAt(t, 0), p);
    var p := p.(volsumfl := s);
    // line 6: trimming limits
    var t :- Keep(Tokens(lines, idx + 5), p);
    var x :- Keep(RealAt(t, 0, num), p);
    var p := p.(tmin := x);
    var x :- Keep(RealAt(t, 1, num), p);
    var p := p.(tmax := x);
    Got(Cursor(p, idx + 6))
  }

  /** Lines 7-12: debugging, output and histogram settings; then the 3 DSSIM lines are skipped. */
  function RunFields(p: Params, lines: seq<string>, idx: nat, num: Numerals): Attempt<Cursor> {
    // line 7: debugging levels, at most the first seven words
    var t :- Keep(Tokens(lines, idx), p);
    var levels :- Keep(Ints(Prefix(t, 7), num), p);
    var p := p.(idbg := levels);
    // line 8: output file
    var t :- Keep(Tokens(lines, idx + 1), p);
    var s :- Keep(WordAt(t, 0), p);
    var p := p.(outfl := s);
    // line 9: number of realizations
    var t :- Keep(Tokens(lines, idx + 2), p);
    var v :- Keep(IntAt(t, 0, num), p);
    var p := p.(nsim := v);
    // line 10: ccdf type
    var t :- Keep(Tokens(lines, idx + 3), p);
    var v :- Keep(IntAt(t, 0, num), p);
    var p := p.(idrawopt := v);
    // line 11: reference histogram file
    var t :- Keep(Tokens(lines, idx + 4), p);
    var s :- Keep(WordAt(t, 0), p);
    var p := p.(refhistFile := s);
    // line 12: histogram columns
    var t :- Keep(Tokens(lines, idx + 5), p);
    var v :- Keep(IntAt(t, 0, num), p);
    var p := p.(ibt := v);
    var v :- Keep(IntAt(t, 1, num), p);
    var p := p.(ibtw := v);
    Got(Cursor(p, idx + 6 + DssimLines))
  }

  /** Lines 16-21, then the 4 neighbourhood lines are skipped. */
  function GridFields(p: Params, lines: seq<string>, idx: nat, num: Numerals): Attempt<Cursor> {
    // lines 16-18: count, origin and cell size along x, y and z
    var t :- Keep(Tokens(lines, idx), p);
    var v :- Keep(IntAt(t, 0, num), p);
    var p := p.(nx := v);
    var x :- Keep(RealAt(t, 1, num), p);
    var p := p.(xmn := x);
    var x :- Keep(RealAt(t, 2, num), p);
    var p := p.(xsiz := x);
    var t :- Keep(Tokens(lines, idx + 1), p);
    var v :- Keep(IntAt(t, 0, num), p);
    var p := p.(ny := v);
    var x :- Keep(RealAt(t, 1, num), p);
    var p := p.(ymn := x);
    var x :- Keep(RealAt(t, 2, num), p);
    var p := p.(ysiz := x);
    var t :- Keep(Tokens(lines, idx + 2), p);
    var v :- Keep(IntAt(t, 0, num), p);
    var p := p.(nz := v);
    var x :- Keep(RealAt(t, 1, num), p);
    var p := p.(zmn := x);
    var x :- Keep(RealAt(t, 2, num), p);
    var p := p.(zsiz := x);
    // line 19: random seed
    var t :- Keep(Tokens(lines, idx + 3), p);
    var v :- Keep(IntAt(t, 0, num), p);
    var p := p.(ixv := v);
    // line 20: min and max data
    var t :- Keep(Tokens(lines, idx + 4), p);
    var v :- Keep(IntAt(t, 0, num), p);
    var p := p.(ndmin := v);
    var v :- Keep(IntAt(t, 1, num), p);
    var p := p.(ndmax := v);
    // line 21: max previously simulated nodes
    var t :- Keep(Tokens(lines, idx + 5), p);
    var v :- Keep(IntAt(t, 0, num), p);
    var p := p.(nodmax := v);
    Got(Cursor(p, idx + GridLines + NeighborhoodLines))
  }

  /** Lines 26-29; the eight structure lists are emptied once `nst` and `c0` are read. */
  function KrigingFields(p: Params, lines: seq<string>, idx: nat, num: Numerals): Attempt<Cursor> {
    // line 26: search radii
    var t :- Keep(Tokens(lines, idx), p);
    var x :- Keep(RealAt(t, 0, num), p);
    var p := p.(radius := x);
    var x :- Keep(RealAt(t, 1, num), p);
    var p := p.(radius1 := x);
    var x :- Keep(RealAt(t, 2, num), p);
    var p := p.(radius2 := x);
    // line 27: search angles
    var t :- Keep(Tokens(lines, idx + 1), p);
    var x :- Keep(RealAt(t, 0, num), p);
    var p := p.(sang1 := x);
    var x :- Keep(RealAt(t, 1, num), p);
    var p := p.(sang2 := x);
    var x :- Keep(RealAt(t, 2, num), p);
    var p := p.(sang3 := x);
    // line 28: global mean and variance
    var t :- Keep(Tokens(lines, idx + 2), p);
    var x :- Keep(RealAt(t, 0, num), p);
    var p := p.(gmean := x);
    var x :- Keep(RealAt(t, 1, num), p);
    var p := p.(gvar := x);
    // line 29: number of structures and nugget
    var t :- Keep(Tokens(lines, idx + 3), p);
    var v :- Keep(IntAt(t, 0, num), p);
    var p := p.(nst := v);
    var x :- Keep(RealAt(t, 1, num), p);
    var p := p.(c0 := x);
    Got(Cursor(p.(it := [], cc := [], ang1 := [], ang2 := [], ang3 := [], aa := [], aa1 := [], aa2 := []),
               idx + KrigingLines))
  }

  /** One structure: two lines, whose values are appended to the eight lists. */
  function NextStructure(p: Params, lines: seq<string>, idx: nat, num: Numerals): Attempt<Cursor> {
    // model type, contribution and the three angles
    var t :- Keep(Tokens(lines, idx), p);
    var v :- Keep(IntAt(t, 0, num), p);
    var p := p.(it := p.it + [v]);
    var x :- Keep(RealAt(t, 1, num), p);
    var p := p.(cc := p.cc + [x]);
    var x :- Keep(RealAt(t, 2, num), p);
    var p := p.(ang1 := p.ang1 + [x]);
    var x :- Keep(RealAt(t, 3, num), p);
    var p := p.(ang2 := p.ang2 + [x]);
    var x :- Keep(RealAt(t, 4, num), p);
    var p := p.(ang3 := p.ang3 + [x]);
    // the three ranges
    var t :- Keep(Tokens(lines, idx + 1), p);
    var x :- Keep(RealAt(t, 0, num), p);
    var p := p.(aa := p.aa + [x]);
    var x :- Keep(RealAt(t, 1, num), p);
    var p := p.(aa1 := p.aa1 + [x]);
    var x :- Keep(RealAt(t, 2, num), p);
    var p := p.(aa2 := p.aa2 + [x]);
    Got(Cursor(p, idx + 2))
  }

  /** Structures `i` to `n - 1`, in file order. */
  function StructureFields(p: Params, lines: seq<string>, idx: nat, i: int, n: int, num: Numerals): Attempt<Cursor>
    decreases n - i
  {
    if i >= n then Got(Cursor(p, idx))
    else
      var c :- NextStructure(p, lines, idx, num);
      StructureFields(c.p, lines, c.idx, i + 1, n, num)
  }

  /** The 3 tail-extrapolation lines; the cursor ends after the last of them. */
  function TailFields(p: Params, lines: seq<string>, idx: nat, num: Numerals): Attempt<Cursor> {
    var t :- Keep(Tokens(lines, idx), p);
    var x :- Keep(RealAt(t, 0, num), p);
    var p := p.(zmin := x);
    var x :- Keep(RealAt(t, 1, num), p);
    var p := p.(zmax := x);
    var t :- Keep(Tokens(lines, idx + 1), p);
    var v :- Keep(IntAt(t, 0, num), p);
    var p := p.(ltail := v);
    var x :- Keep(RealAt(t, 1, num), p);
    var p := p.(ltpar := x);
    var t :- Keep(Tokens(lines, idx + 2), p);
    var v :- Keep(IntAt(t, 0, num), p);
    var p := p.(utail := v);
    var x :- Keep(RealAt(t, 1, num), p);
    var p := p.(utpar := x);
    Got(Cursor(p, idx + TailLines))
  }

  /** The whole scan: marker, three fixed sections, `nst` structures, tail. */
  function DecodeTo(prior: Params, lines: seq<string>, num: Numerals): Attempt<Cursor> {
    var c :- DataFields(prior, lines, StartIndex(lines), num);
    var c :- RunFields(c.p, lines, c.idx, num);
    var c :- GridFields(c.p, lines, c.idx, num);
    var c :- KrigingFields(c.p, lines, c.idx, num);
    var c :- StructureFields(c.p, lines, c.idx, 0, c.p.nst, num);
    TailFields(c.p, lines, c.idx, num)
  }

  /**
   * What `read` leaves in the object that held `prior`: the decoded record,
   * or the error and the record as far as it had been updated.
   */
  function Decode(prior: Params, lines: seq<string>, num: Numerals): Attempt<Params> {
    var c :- DecodeTo(prior, lines, num);
    Got(c.p)
  }

  // ----- Writing -----

  /** Every structure list has an entry for each of the `nst` structures `write` emits. */
  predicate Writable(p: Params) {
    && p.nst <= |p.it| && p.nst <= |p.cc| && p.nst <= |p.ang1| && p.nst <= |p.ang2| && p.nst <= |p.ang3|
    && p.nst <= |p.aa| && p.nst <= |p.aa1| && p.nst <= |p.aa2|
  }

  /** `map(str, levels)` */
  function Shown(levels: seq<int>, num: Numerals): (r: seq<string>)
    ensures |r| == |levels|
    ensures forall k :: 0 <= k < |levels| ==> r[k] == num.showInt(levels[k])
  {
    seq(|levels|, k requires 0 <= k < |levels| => num.showInt(levels[k]))
  }

  /** `n` blanks: the padding between the fields of a line. */
  function Spaces(n: nat): (r: string)
    ensures |r| == n && AllSpace(r)
  {
    seq(n, _ => ' ')
  }

  const Banner := ["                  Parameters for VISIM", "                  ********************", ""]
  const MarkerLine := "START OF PARAMETERS:"

  const DssimFiller := [
    "-3.5 3.5 100                  - min_Gmean,max_Gmean,n_Gmean",
    "0 2 100                       - min_Gvar,max_Gvar,n_Gvar",
    "170 0                         - nQ (number of quantiles)"]

  const NeighborhoodFiller := [
    "0 8 0.001                     - Volume Neighborhood",
    "1                             - Random Path (1=independent)",
    "1                             - assign data to nodes (1=yes)",
    "0                             - maximum data per octant"]

  /** Lines 1-6 as `write` formats them. */
  function DataLayout(p: Params, num: Numerals): (r: seq<Line>)
    ensures |r| == 6
  {
    [ Line([(num.showInt(p.icond), Spaces(29))], "- conditional simulation (0=no,1=p+v,2=p,3=v)"),
      Line([(p.datafl, Spaces(17))], "- file with conditioning data"),
      Line([(num.showInt(p.icolx), Spaces(1)), (num.showInt(p.icoly), Spaces(1)), (num.showInt(p.icolz), Spaces(1)),
            (num.showInt(p.icolvr), Spaces(23))], "- columns for X,Y,Z,val"),
      Line([(p.volgeomfl, Spaces(12))], "- Geometry of volume"),
      Line([(p.volsumfl, Spaces(14))], "- Summary of volgeom.eas"),
      Line([(num.sci1(p.tmin), Spaces(3)), (num.sci1(p.tmax), Spaces(14))], "- trimming limits") ]
  }

  /** Line 7: all the debugging levels, one blank apart. */
  function LevelsRow(p: Params, num: Numerals): string {
    Join(" ", Shown(p.idbg, num)) + Spaces(13) + "- debugging level"
  }

  /** Lines 8-12. */
  function RunLayout(p: Params, num: Numerals): (r: seq<Line>)
    ensures |r| == 5
  {
    [ Line([(p.outfl, Spaces(13))], "- file for output"),
      Line([(num.showInt(p.nsim), Spaces(29))], "- number of realizations"),
      Line([(num.showInt(p.idrawopt), Spaces(29))], "- ccdf type: 0=Gaussian, 1=DSSIM"),
      Line([(p.refhistFile, Spaces(17))], "- reference histogram"),
      Line([(num.showInt(p.ibt), Spaces(4)), (num.showInt(p.ibtw), Spaces(24))], "- columns for variable and weights") ]
  }

  /** Lines 16-21. */
  function GridLayout(p: Params, num: Numerals): (r: seq<Line>)
    ensures |r| == GridLines
  {
    [ Line([(num.showInt(p.nx), Spaces(3)), (num.showFloat(p.xmn), Spaces(3)), (num.showFloat(p.xsiz), Spaces(16))], "- nx,xmn,xsiz"),
      Line([(num.showInt(p.ny), Spaces(3)), (num.showFloat(p.ymn), Spaces(3)), (num.showFloat(p.ysiz), Spaces(16))], "- ny,ymn,ysiz"),
      Line([(num.showInt(p.nz), Spaces(4)), (num.showFloat(p.zmn), Spaces(3)), (num.showFloat(p.zsiz), Spaces(16))], "- nz,zmn,zsiz"),
      Line([(num.showInt(p.ixv), Spaces(25))], "- random number seed"),
      Line([(num.showInt(p.ndmin), Spaces(4)), (num.showInt(p.ndmax), Spaces(23))], "- min and max data for kriging"),
      Line([(num.showInt(p.nodmax), Spaces(28))], "- max previously simulated nodes") ]
  }

  /** Lines 26-29. */
  function KrigingLayout(p: Params, num: Numerals): (r: seq<Line>)
    ensures |r| == KrigingLines
  {
    [ Line([(num.showFloat(p.radius), Spaces(2)), (num.showFloat(p.radius1), Spaces(2)), (num.showFloat(p.radius2), Spaces(14))],
           "- maximum search radii"),
      Line([(num.showFloat(p.sang1), Spaces(3)), (num.showFloat(p.sang2), Spaces(3)), (num.showFloat(p.sang3), Spaces(15))],
           "- angles for search ellipsoid"),
      Line([(num.showFloat(p.gmean), Spaces(2)), (num.showFloat(p.gvar), Spaces(21))], "- global mean and variance"),
      Line([(num.showInt(p.nst), Spaces(4)), (num.showFloat(p.c0), Spaces(21))], "- nst, nugget effect") ]
  }

  /** The 33 lines before the structures: banner, marker and the three fixed sections with their fillers. */
  function Preamble(p: Params, num: Numerals): (r: seq<string>)
    ensures |r| == 33
  {
    Banner + [MarkerLine] + Rendered(DataLayout(p, num)) + [LevelsRow(p, num)] + Rendered(RunLayout(p, num))
      + DssimFiller + Rendered(GridLayout(p, num)) + NeighborhoodFiller + Rendered(KrigingLayout(p, num))
  }

  /** Structure `i`'s first line can be formatted: `it`, `cc` and the angles have entry `i`. */
  predicate FirstRowReady(p: Params, i: int) {
    0 <= i && i < |p.it| && i < |p.cc| && i < |p.ang1| && i < |p.ang2| && i < |p.ang3|
  }

  /** Structure `i`'s ranges can be formatted. */
  predicate SecondRowReady(p: Params, i: int) {
    0 <= i && i < |p.aa| && i < |p.aa1| && i < |p.aa2|
  }

  /** Structure `i`'s first line: model type, contribution and the three angles. */
  function StructureLine(p: Params, i: int, num: Numerals): Line
    requires FirstRowReady(p, i)
  {
    Line([(num.showInt(p.it[i]), Spaces(4)), (num.showFloat(p.cc[i]), Spaces(2)), (num.showFloat(p.ang1[i]), Spaces(3)),
          (num.showFloat(p.ang2[i]), Spaces(3)), (num.showFloat(p.ang3[i]), Spaces(4))], "- it,cc,ang1,ang2,ang3")
  }

  /** Structure `i`'s second line, after an indent of nine blanks: the three ranges. */
  function RangeLine(p: Params, i: int, num: Numerals): Line
    requires SecondRowReady(p, i)
  {
    Line([(num.showFloat(p.aa[i]), Spaces(1)), (num.showFloat(p.aa1[i]), Spaces(2)), (num.showFloat(p.aa2[i]), Spaces(7))],
         "- a_hmax, a_hmin, a_vert")
  }

  function StructureRowA(p: Params, i: int, num: Numerals): string
    requires FirstRowReady(p, i)
  {
    Render(StructureLine(p, i, num))
  }

  function StructureRowB(p: Params, i: int, num: Numerals): string
    requires SecondRowReady(p, i)
  {
    Spaces(9) + Render(RangeLine(p, i, num))
  }

  /**
   * The lines the structure loop writes from structure `i` on. A list that
   * runs out raises IndexError, and the loop stops after the lines already
   * written (possibly after the first line of a structure).
   */
  function StructureRows(p: Params, num: Numerals, i: nat): seq<string>
    decreases p.nst - i
  {
    if i >= p.nst then []
    else if !FirstRowReady(p, i) then []
    else if !SecondRowReady(p, i) then [StructureRowA(p, i, num)]
    else [StructureRowA(p, i, num), StructureRowB(p, i, num)] + StructureRows(p, num, i + 1)
  }

  /** The three tail lines. */
  function TailLayout(p: Params, num: Numerals): (r: seq<Line>)
    ensures |r| == TailLines
  {
    [ Line([(num.showFloat(p.zmin), Spaces(3)), (num.showFloat(p.zmax), Spaces(18))], "- zmin,zmax (tail)"),
      Line([(num.showInt(p.ltail), Spaces(7)), (num.showFloat(p.ltpar), Spaces(19))], "- lower tail option, parameter"),
      Line([(num.showInt(p.utail), Spaces(6)), (num.showFloat(p.utpar), Spaces(19))], "- upper tail option, parameter") ]
  }

  /** The lines `write` leaves in the file; all of the layout exactly when the record is writable. */
  function Emitted(p: Params, num: Numerals): seq<string> {
    Preamble(p, num) + StructureRows(p, num, 0) + (if Writable(p) then Rendered(TailLayout(p, num)) else [])
  }

  // ----- The object -----

  /** The five file names are single words, as `split()` reads them back. */
  predicate Named(p: Params) {
    IsToken(p.datafl) && IsToken(p.volgeomfl) && IsToken(p.volsumfl) && IsToken(p.outfl) && IsToken(p.refhistFile)
  }

  /** The grid's origins and cell sizes are float values, so `str` writes them exactly. */
  predicate GridFloats(p: Params, num: Numerals) {
    num.isFloat(p.xmn) && num.isFloat(p.xsiz) && num.isFloat(p.ymn) && num.isFloat(p.ysiz)
    && num.isFloat(p.zmn) && num.isFloat(p.zsiz)
  }

  /** The search radii and angles, the global mean and variance and the nugget are float values. */
  predicate KrigingFloats(p: Params, num: Numerals) {
    num.isFloat(p.radius) && num.isFloat(p.radius1) && num.isFloat(p.radius2)
    && num.isFloat(p.sang1) && num.isFloat(p.sang2) && num.isFloat(p.sang3)
    && num.isFloat(p.gmean) && num.isFloat(p.gvar) && num.isFloat(p.c0)
  }

  /** Structure `i`'s contribution, angles and ranges are float values. */
  predicate StructureFloats(p: Params, num: Numerals, i: int)
    requires FirstRowReady(p, i) && SecondRowReady(p, i)
  {
    num.isFloat(p.cc[i]) && num.isFloat(p.ang1[i]) && num.isFloat(p.ang2[i]) && num.isFloat(p.ang3[i])
    && num.isFloat(p.aa[i]) && num.isFloat(p.aa1[i]) && num.isFloat(p.aa2[i])
  }

  /** The tail bounds and parameters are float values. */
  predicate TailFloats(p: Params, num: Numerals) {
    num.isFloat(p.zmin) && num.isFloat(p.zmax) && num.isFloat(p.ltpar) && num.isFloat(p.utpar)
  }

  /** The structures `write` emits hold float values. */
  predicate StructuresFloats(p: Params, num: Numerals)
    requires Writable(p)
  {
    forall i :: 0 <= i < p.nst ==> StructureFloats(p, num, i)
  }

  /**
   * The record `read` of `write`'s output gives back; `Emitted` and `Decode`
   * are inverse up to it: the lists cover `nst`, file names are single words
   * and every real written with `str` is a float value.
   */
  predicate Rereadable(p: Params, num: Numerals) {
    && Writable(p) && |p.idbg| >= 7 && Named(p)
    && GridFloats(p, num) && KrigingFloats(p, num) && StructuresFloats(p, num) && TailFloats(p, num)
  }

  /**
   * What a written record reads back as: the trimming limits as their
   * `.1e` texts read back, the debugging levels cut to seven, each structure list
   * cut to `nst` entries; everything else unchanged.
   */
  function Recovered(p: Params, num: Numerals): Params {
    var n := Count(p.nst);
    p.(tmin := SciValue(num, p.tmin), tmax := SciValue(num, p.tmax), idbg := Prefix(p.idbg, 7),
       it := Prefix(p.it, n), cc := Prefix(p.cc, n), ang1 := Prefix(p.ang1, n), ang2 := Prefix(p.ang2, n),
       ang3 := Prefix(p.ang3, n), aa := Prefix(p.aa, n), aa1 := Prefix(p.aa1, n), aa2 := Prefix(p.aa2, n))
  }

  /**
   * The structure loop of `write`: two lines per structure, stopping with
   * `ok` false at the first list that has no entry for the structure.
   */
  method WriteStructures(p: Params, num: Numerals) returns (rows: seq<string>, ok: bool)
    ensures rows == StructureRows(p, num, 0)
    ensures ok <==> Writable(p)
  {
    rows := [];
    var i := 0;
    while i < p.nst
      invariant 0 <= i
      invariant i <= |p.it| && i <= |p.cc| && i <= |p.ang1| && i <= |p.ang2| && i <= |p.ang3|
      invariant i <= |p.aa| && i <= |p.aa1| && i <= |p.aa2|
      invariant StructureRows(p, num, 0) == rows + StructureRows(p, num, i)
    {
      if !FirstRowReady(p, i) {
        assert rows + [] == rows;
        return rows, false;
      }
      var first := StructureRowA(p, i, num);
      if !SecondRowReady(p, i) {
        return rows + [first], false;
      }
      var second := StructureRowB(p, i, num);
      StructureRowsStep(rows, p, num, i);
      rows := rows + [first] + [second];
      i := i + 1;
    }
    ok := true;
  }

  /** One more structure's two rows, in the terms `WriteStructures` appends them. */
  lemma StructureRowsStep(rows: seq<string>, p: Params, num: Numerals, i: nat)
    requires i < p.nst && FirstRowReady(p, i) && SecondRowReady(p, i)
    requires StructureRows(p, num, 0) == rows + StructureRows(p, num, i)
    ensures StructureRows(p, num, 0)
         == rows + [StructureRowA(p, i, num)] + [StructureRowB(p, i, num)] + StructureRows(p, num, i + 1)
  {
    var first, second, rest := StructureRowA(p, i, num), StructureRowB(p, i, num), StructureRows(p, num, i + 1);
    assert StructureRows(p, num, i) == [first, second] + rest;
    assert rows + ([first, second] + rest) == rows + [first] + [second] + rest;
  }

  /** Where a reading method got to, as an `Attempt`. */
  function Reached(p: Params, r: Result<nat, ReadError>): Attempt<Cursor> {
    match r
    case Success(j) => Got(Cursor(p, j))
    case Failure(e) => Stopped(p, e)
  }

  function Outcome(p: Params, err: Option<ReadError>): Attempt<Params> {
    match err
    case None => Got(p)
    case Some(e) => Stopped(p, e)
  }

  /**
   * A `VisimParams` object. Its attributes are held as one record, `attrs`,
   * which the methods update attribute by attribute in the order the source
   * assigns them.
   */
  class VisimParams {
    var attrs: Params
    /** The raw lines of the last file read (`_lines`). */
    var rawLines: seq<string>

    /** `VisimParams()`: defaults and no lines; `VisimParams(f)` is this followed by `Read`. */
    constructor ()
      ensures attrs == Defaults() && rawLines == []
    {
      attrs := Defaults();
      rawLines := [];
    }

    method SetDefaults()
      modifies this
      ensures attrs == Defaults() && rawLines == old(rawLines)
    {
      attrs := Defaults();
    }

    /**
     * `read`: scan for the marker, then set the attributes one by one. On an
     * error the attributes already set keep their new values.
     */
    method Read(lines: seq<string>, num: Numerals) returns (err: Option<ReadError>)
      modifies this
      ensures rawLines == lines
      ensures Outcome(attrs, err) == Decode(old(attrs), lines, num)
    {
      rawLines := lines;
      var idx := 0;
      while idx < |lines|
        invariant 0 <= idx <= |lines|
        invariant MarkerScan(lines, idx) == StartIndex(lines)
        invariant attrs == old(attrs)
      {
        if Contains(lines[idx], Marker) {
          idx := idx + 1;
          break;
        }
        idx := idx + 1;
      }
      var r := ReadData(lines, idx, num);
      if r.Failure? {
        return Some(r.error);
      }
      r := ReadRun(lines, r.value, num);
      if r.Failure? {
        return Some(r.error);
      }
      r := ReadGrid(lines, r.value, num);
      if r.Failure? {
        return Some(r.error);
      }
      r := ReadKriging(lines, r.value, num);
      if r.Failure? {
        return Some(r.error);
      }
      r := ReadStructures(lines, r.value, num);
      if r.Failure? {
        return Some(r.error);
      }
      r := ReadTail(lines, r.value, num);
      if r.Failure? {
        return Some(r.error);
      }
      return None;
    }

    method ReadData(lines: seq<string>, idx: nat, num: Numerals) returns (r: Result<nat, ReadError>)
      modifies this
      ensures rawLines == old(rawLines)
      ensures Reached(attrs, r) == DataFields(old(attrs), lines, idx, num)
    {
      var t :- Tokens(lines, idx);
      var v :- IntAt(t, 0, num);
      attrs := attrs.(icond := v);
      t :- Tokens(lines, idx + 1);
      var s :- WordAt(t, 0);
      attrs := attrs.(datafl := s);
      t :- Tokens(lines, idx + 2);
      v :- IntAt(t, 0, num);
      attrs := attrs.(icolx := v);
      v :- IntAt(t, 1, num);
      attrs := attrs.(icoly := v);
      v :- IntAt(t, 2, num);
      attrs := attrs.(icolz := v);
      v :- IntAt(t, 3, num);
      attrs := attrs.(icolvr := v);
      t :- Tokens(lines, idx + 3);
      s :- WordAt(t, 0);
      attrs := attrs.(volgeomfl := s);
      t :- Tokens(lines, idx + 4);
      s :- WordAt(t, 0);
      attrs := attrs.(volsumfl := s);
      t :- Tokens(lines, idx + 5);
      var x :- RealAt(t, 0, num);
      attrs := attrs.(tmin := x);
      x :- RealAt(t, 1, num);
      attrs := attrs.(tmax := x);
      r := Success(idx + 6);
    }

    method ReadRun(lines: seq<string>, idx: nat, num: Numerals) returns (r: Result<nat, ReadError>)
      modifies this
      ensures rawLines == old(rawLines)
      ensures Reached(attrs, r) == RunFields(old(attrs), lines, idx, num)
    {
      var t :- Tokens(lines, idx);
      var levels :- Ints(Prefix(t, 7), num);
      attrs := attrs.(idbg := levels);
      t :- Tokens(lines, idx + 1);
      var s :- WordAt(t, 0);
      attrs := attrs.(outfl := s);
      t :- Tokens(lines, idx + 2);
      var v :- IntAt(t, 0, num);
      attrs := attrs.(nsim := v);
      t :- Tokens(lines, idx + 3);
      v :- IntAt(t, 0, num);
      attrs := attrs.(idrawopt := v);
      t :- Tokens(lines, idx + 4);
      s :- WordAt(t, 0);
      attrs := attrs.(refhistFile := s);
      t :- Tokens(lines, idx + 5);
      v :- IntAt(t, 0, num);
      attrs := attrs.(ibt := v);
      v :- IntAt(t, 1, num);
      attrs := attrs.(ibtw := v);
      r := Success(idx + 6 + DssimLines);
    }

    method ReadGrid(lines: seq<string>, idx: nat, num: Numerals) returns (r: Result<nat, ReadError>)
      modifies this
      ensures rawLines == old(rawLines)
      ensures Reached(attrs, r) == GridFields(old(attrs), lines, idx, num)
    {
      var t :- Tokens(lines, idx);
      var v :- IntAt(t, 0, num);
      attrs := attrs.(nx := v);
      var x :- RealAt(t, 1, num);
      attrs := attrs.(xmn := x);
      x :- RealAt(t, 2, num);
      attrs := attrs.(xsiz := x);
      t :- Tokens(lines, idx + 1);
      v :- IntAt(t, 0, num);
      attrs := attrs.(ny := v);
      x :- RealAt(t, 1, num);
      attrs := attrs.(ymn := x);
      x :- RealAt(t, 2, num);
      attrs := attrs.(ysiz := x);
      t :- Tokens(lines, idx + 2);
      v :- IntAt(t, 0, num);
      attrs := attrs.(nz := v);
      x :- RealAt(t, 1, num);
      attrs := attrs.(zmn := x);
      x :- RealAt(t, 2, num);
      attrs := attrs.(zsiz := x);
      t :- Tokens(lines, idx + 3);
      v :- IntAt(t, 0, num);
      attrs := attrs.(ixv := v);
      t :- Tokens(lines, idx + 4);
      v :- IntAt(t, 0, num);
      attrs := attrs.(ndmin := v);
      v :- IntAt(t, 1, num);
      attrs := attrs.(ndmax := v);
      t :- Tokens(lines, idx + 5);
      v :- IntAt(t, 0, num);
      attrs := attrs.(nodmax := v);
      r := Success(idx + GridLines + NeighborhoodLines);
    }

    method ReadKriging(lines: seq<string>, idx: nat, num: Numerals) returns (r: Result<nat, ReadError>)
      modifies this
      ensures rawLines == old(rawLines)
      ensures Reached(attrs, r) == KrigingFields(old(attrs), lines, idx, num)
    {
      var t :- Tokens(lines, idx);
      var x :- RealAt(t, 0, num);
      attrs := attrs.(radius := x);
      x :- RealAt(t, 1, num);
      attrs := attrs.(radius1 := x);
      x :- RealAt(t, 2, num);
      attrs := attrs.(radius2 := x);
      t :- Tokens(lines, idx + 1);
      x :- RealAt(t, 0, num);
      attrs := attrs.(sang1 := x);
      x :- RealAt(t, 1, num);
      attrs := attrs.(sang2 := x);
      x :- RealAt(t, 2, num);
      attrs := attrs.(sang3 := x);
      t :- Tokens(lines, idx + 2);
      x :- RealAt(t, 0, num);
      attrs := attrs.(gmean := x);
      x :- RealAt(t, 1, num);
      attrs := attrs.(gvar := x);
      t :- Tokens(lines, idx + 3);
      var v :- IntAt(t, 0, num);
      attrs := attrs.(nst := v);
      x :- RealAt(t, 1, num);
      attrs := attrs.(c0 := x);
      attrs := attrs.(it := [], cc := [], ang1 := [], ang2 := [], ang3 := [], aa := [], aa1 := [], aa2 := []);
      r := Success(idx + KrigingLines);
    }

    /** The `for i in range(self.nst)` loop over the variogram structures. */
    method ReadStructures(lines: seq<string>, idx0: nat, num: Numerals) returns (r: Result<nat, ReadError>)
      modifies this
      ensures rawLines == old(rawLines)
      ensures Reached(attrs, r) == StructureFields(old(attrs), lines, idx0, 0, old(attrs.nst), num)
    {
      var idx := idx0;
      var i := 0;
      var n := attrs.nst;
      while i < n
        invariant attrs.nst == n == old(attrs.nst) && rawLines == old(rawLines)
        invariant StructureFields(attrs, lines, idx, i, n, num) == StructureFields(old(attrs), lines, idx0, 0, n, num)
      {
        var t :- Tokens(lines, idx);
        var v :- IntAt(t, 0, num);
        attrs := attrs.(it := attrs.it + [v]);
        var x :- RealAt(t, 1, num);
        attrs := attrs.(cc := attrs.cc + [x]);
        x :- RealAt(t, 2, num);
        attrs := attrs.(ang1 := attrs.ang1 + [x]);
        x :- RealAt(t, 3, num);
        attrs := attrs.(ang2 := attrs.ang2 + [x]);
        x :- RealAt(t, 4, num);
        attrs := attrs.(ang3 := attrs.ang3 + [x]);
        t :- Tokens(lines, idx + 1);
        x :- RealAt(t, 0, num);
        attrs := attrs.(aa := attrs.aa + [x]);
        x :- RealAt(t, 1, num);
        attrs := attrs.(aa1 := attrs.aa1 + [x]);
        x :- RealAt(t, 2, num);
        attrs := attrs.(aa2 := attrs.aa2 + [x]);
        idx := idx + 2;
        i := i + 1;
      }
      r := Success(idx);
    }

    method ReadTail(lines: seq<string>, idx: nat, num: Numerals) returns (r: Result<nat, ReadError>)
      modifies this
      ensures rawLines == old(rawLines)
      ensures Reached(attrs, r) == TailFields(old(attrs), lines, idx, num)
    {
      var t :- Tokens(lines, idx);
      var x :- RealAt(t, 0, num);
      attrs := attrs.(zmin := x);
      x :- RealAt(t, 1, num);
      attrs := attrs.(zmax := x);
      t :- Tokens(lines, idx + 1);
      var v :- IntAt(t, 0, num);
      attrs := attrs.(ltail := v);
      x :- RealAt(t, 1, num);
      attrs := attrs.(ltpar := x);
      t :- Tokens(lines, idx + 2);
      v :- IntAt(t, 0, num);
      attrs := attrs.(utail := v);
      x :- RealAt(t, 1, num);
      attrs := attrs.(utpar := x);
      r := Success(idx + TailLines);
    }

    /**
     * `write`: the lines it puts in the file, in order. `ok` is false when a
     * structure list is shorter than `nst` and the loop raised IndexError;
     * the lines written before that stay in the file.
     */
    method Write(num: Numerals) returns (out: seq<string>, ok: bool)
      ensures out == Emitted(attrs, num)
      ensures ok <==> Writable(attrs)
    {
      out := Preamble(attrs, num);
      var rows;
      rows, ok := WriteStructures(attrs, num);
      out := out + rows;
      if ok {
        out := out + Rendered(TailLayout(attrs, num));
      }
    }
  }
}
