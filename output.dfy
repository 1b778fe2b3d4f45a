/**
 * The readers of python/visim/output.py: `read_visim_output` (a realization
 * count, grid extents and one value per line), `read_estimation_output` (a
 * GEO-EAS file whose rows carry a kriged mean and variance) and
 * `reshape_to_grid` (the column-major index map from a flat list of node
 * values to an `nx` × `ny` × `nz` grid).
 *
 * The two readers are methods with the source's loops, proved against the
 * functions `ParseOutput` and `ParseEstimation`.
 */
module VisimOutput {
  import opened Outcomes
  import opened Text
  import opened Numerals
  import opened GeoEas

  /**
   * The exceptions: a header line without the expected `:` or `x` piece
   * (IndexError), `int()` or `float()` rejecting a word (ValueError), a value
   * count that does not match (ValueError), and a shape numpy's `reshape`
   * refuses (ValueError).
   */
  datatype OutputError = FieldMissing | BadInt(word: string) | BadFloat(word: string)
                       | CountMismatch(expected: int, got: nat) | BadShape

  /** `int(word)` */
  function IntOf(word: string, num: Numerals): (r: Result<int, OutputError>)
    ensures r.Success? <==> num.parseInt(word).Some?
    ensures r.Success? ==> num.parseInt(word) == Some(r.value)
    ensures r.Failure? ==> r.error == BadInt(word)
  {
    match num.parseInt(word)
    case Some(i) => Success(i)
    case None => Failure(BadInt(word))
  }

  // ----- Arithmetic -----

  lemma MulLe(a: nat, b: nat, d: nat)
    requires a <= b
    ensures a * d <= b * d
  {
    assert b * d == a * d + (b - a) * d;
  }

  lemma MulSucc(a: nat, d: nat)
    ensures (a + 1) * d == a * d + d
  {
  }

  /** Dividing `q*d + r` by `d` gives back `q` and `r`. */
  lemma DivModOf(d: nat, q: nat, r: nat)
    requires 0 <= r < d
    ensures (q * d + r) / d == q && (q * d + r) % d == r
  {
    var n := q * d + r;
    var q', r' := n / d, n % d;
    assert n == q' * d + r';
    if q' > q {
      MulLe(q + 1, q', d);
      MulSucc(q, d);
      assert false;
    } else if q' < q {
      MulLe(q' + 1, q, d);
      MulSucc(q', d);
      assert false;
    }
  }

  lemma DivBelow(n: nat, a: nat, b: nat)
    requires a > 0 && n < a * b
    ensures n / a < b
  {
    assert n == (n / a) * a + n % a;
    if n / a >= b {
      MulLe(b, n / a, a);
      assert false;
    }
  }

  // ----- read_visim_output -----

  /** `line.split(':')[1].strip()`: the text after the first colon, up to any second one. */
  function AfterColon(line: string): (r: Result<string, OutputError>)
    ensures r.Success? <==> ':' in line
    ensures r.Failure? ==> r.error == FieldMissing
  {
    SplitOnFindsSeparator(line, ':');
    var parts := SplitOn(line, ':');
    if |parts| < 2 then Failure(FieldMissing) else Success(Strip(parts[1]))
  }

  datatype Extents = Extents(nx: int, ny: int, nz: int)

  /** `parts = text.split('x')`, then `int(parts[0].strip())`, `int(parts[1].strip())`, `int(parts[2].strip())` in turn. */
  function ParseExtents(text: string, num: Numerals): (r: Result<Extents, OutputError>)
    ensures |SplitOn(text, 'x')| < 3 ==> r.Failure?
    ensures 'x' !in text ==> r.Failure?
    ensures r.Success? ==> && num.parseInt(Strip(SplitOn(text, 'x')[0])) == Some(r.value.nx)
                           && num.parseInt(Strip(SplitOn(text, 'x')[1])) == Some(r.value.ny)
                           && num.parseInt(Strip(SplitOn(text, 'x')[2])) == Some(r.value.nz)
    ensures |SplitOn(text, 'x')| >= 3 && num.parseInt(Strip(SplitOn(text, 'x')[0])).Some?
            && num.parseInt(Strip(SplitOn(text, 'x')[1])).Some? && num.parseInt(Strip(SplitOn(text, 'x')[2])).Some?
            ==> r.Success?
  {
    var parts := SplitOn(text, 'x');
    SplitOnFindsSeparator(text, 'x');
    var nx :- IntOf(Strip(parts[0]), num);
    if |parts| < 2 then Failure(FieldMissing)
    else
      var ny :- IntOf(Strip(parts[1]), num);
      if |parts| < 3 then Failure(FieldMissing)
      else
        var nz :- IntOf(Strip(parts[2]), num);
        Success(Extents(nx, ny, nz))
  }

  /**
   * What one body line contributes: its value when, stripped, it is
   * non-empty, does not start with `*` and `float` accepts it; nothing
   * otherwise.
   */
  function LineValue(line: string, num: Numerals): Option<real> {
    if Strip(line) == "" || StartsWith(Strip(line), "*") then None
    else num.parseFloat(Strip(line))
  }

  /** The values of the body lines, in file order. */
  function BodyValues(body: seq<string>, num: Numerals): (r: seq<real>)
    ensures |r| <= |body|
  {
    if |body| == 0 then []
    else match LineValue(body[0], num)
      case Some(v) => [v] + BodyValues(body[1..], num)
      case None => BodyValues(body[1..], num)
  }

  /** `data` as returned: 1-D for one realization, otherwise one row per realization. */
  datatype Values = Single(values: seq<real>) | Stacked(rows: seq<seq<real>>)

  /** `values.reshape(n, m)`: `n` consecutive rows of `m` values. */
  function Chunks(values: seq<real>, n: nat, m: nat): (r: seq<seq<real>>)
    requires |values| == n * m
    ensures |r| == n
    decreases n
  {
    if n == 0 then []
    else
      MulSucc(n - 1, m);
      [values[..m]] + Chunks(values[m..], n - 1, m)
  }

  /** The count check and, for several realizations, the split into rows. */
  function Arrange(nReal: int, nNodes: int, values: seq<real>): (r: Result<Values, OutputError>)
    ensures r.Success? <==>
              if nReal == 1 then |values| == nNodes
              else |values| == nReal * nNodes && nReal >= 0 && nNodes >= 0
    ensures r.Success? && nReal == 1 ==> r.value == Single(values)
    ensures r.Success? && nReal != 1 ==> r.value.Stacked? && |r.value.rows| == nReal
    ensures nReal == 1 && |values| != nNodes ==> r == Failure(CountMismatch(nNodes, |values|))
    ensures nReal != 1 && |values| != nReal * nNodes ==> r == Failure(CountMismatch(nReal * nNodes, |values|))
  {
    if nReal == 1 then
      if |values| != nNodes then Failure(CountMismatch(nNodes, |values|)) else Success(Single(values))
    else if |values| != nReal * nNodes then Failure(CountMismatch(nReal * nNodes, |values|))
    else if nReal < 0 || nNodes < 0 then Failure(BadShape)
    else Success(Stacked(Chunks(values, nReal, nNodes)))
  }

  /** What `read_visim_output` returns. */
  datatype Simulation = Simulation(nReal: int, nx: int, ny: int, nz: int, nNodes: int, data: Values)

  /** `read_visim_output` on a file whose lines are `lines`; the title line is read and ignored. */
  function ParseOutput(lines: seq<string>, num: Numerals): (r: Result<Simulation, OutputError>)
    ensures ':' !in Strip(Readline(lines, 1)) ==> r == Failure(FieldMissing)
    ensures r.Success? ==> r.value.nNodes == r.value.nx * r.value.ny * r.value.nz
    ensures r.Success? ==> Arrange(r.value.nReal, r.value.nNodes, BodyValues(Remaining(lines, 3), num)) == Success(r.value.data)
  {
    var countText :- AfterColon(Strip(Readline(lines, 1)));
    var nReal :- IntOf(countText, num);
    var extentText :- AfterColon(Strip(Readline(lines, 2)));
    var e :- ParseExtents(extentText, num);
    Assemble(nReal, e, BodyValues(Remaining(lines, 3), num))
  }

  /** The result once the header is read: the values checked against the count and arranged. */
  function Assemble(nReal: int, e: Extents, values: seq<real>): (r: Result<Simulation, OutputError>)
    ensures r.Success? <==> Arrange(nReal, e.nx * e.ny * e.nz, values).Success?
  {
    var data :- Arrange(nReal, e.nx * e.ny * e.nz, values);
    Success(Simulation(nReal, e.nx, e.ny, e.nz, e.nx * e.ny * e.nz, data))
  }

  /** `read_visim_output`: the header, the value loop, then the count check. */
  method ReadVisimOutput(lines: seq<string>, num: Numerals) returns (r: Result<Simulation, OutputError>)
    ensures r == ParseOutput(lines, num)
  {
    var countText := AfterColon(Strip(Readline(lines, 1)));
    if countText.Failure? {
      return Failure(countText.error);
    }
    var nReal := IntOf(countText.value, num);
    if nReal.Failure? {
      return Failure(nReal.error);
    }
    var extentText := AfterColon(Strip(Readline(lines, 2)));
    if extentText.Failure? {
      return Failure(extentText.error);
    }
    var e := ParseExtents(extentText.value, num);
    if e.Failure? {
      return Failure(e.error);
    }
    var nNodes := e.value.nx * e.value.ny * e.value.nz;
    var values := ReadValues(Remaining(lines, 3), num);
    var data := Arrange(nReal.value, nNodes, values);
    if data.Failure? {
      return Failure(data.error);
    }
    r := Success(Simulation(nReal.value, e.value.nx, e.value.ny, e.value.nz, nNodes, data.value));
  }

  /** `for line in f`: keep the value of each line `float` accepts, skipping blank and `*` lines. */
  method ReadValues(body: seq<string>, num: Numerals) returns (values: seq<real>)
    ensures values == BodyValues(body, num)
  {
    values := [];
    var k := 0;
    while k < |body|
      invariant 0 <= k <= |body|
      invariant values == BodyValues(body[..k], num)
    {
      ValuesStep(body, k, num);
      var line := Strip(body[k]);
      if line != "" && !StartsWith(line, "*") {
        var v := num.parseFloat(line);
        if v.Some? {
          values := values + [v.value];
        }
      }
      k := k + 1;
    }
    assert body[..k] == body;
  }

  /** Values come out in file order: reading `a + b` is reading `a`, then `b`. */
  lemma {:induction false} BodyValuesAppend(a: seq<string>, b: seq<string>, num: Numerals)
    ensures BodyValues(a + b, num) == BodyValues(a, num) + BodyValues(b, num)
  {
    if |a| == 0 {
      assert a + b == b;
    } else {
      assert (a + b)[0] == a[0];
      assert (a + b)[1..] == a[1..] + b;
      BodyValuesAppend(a[1..], b, num);
    }
  }

  /** One pass of the value loop. */
  lemma ValuesStep(body: seq<string>, k: nat, num: Numerals)
    requires k < |body|
    ensures LineValue(body[k], num).None? ==> BodyValues(body[..k + 1], num) == BodyValues(body[..k], num)
    ensures LineValue(body[k], num).Some? ==>
              BodyValues(body[..k + 1], num) == BodyValues(body[..k], num) + [LineValue(body[k], num).value]
  {
    assert body[..k + 1] == body[..k] + [body[k]];
    BodyValuesAppend(body[..k], [body[k]], num);
    OneLineValue(body[k], num);
    if LineValue(body[k], num).None? {
      assert BodyValues(body[..k], num) + [] == BodyValues(body[..k], num);
    }
  }

  /** A single line gives its value, or nothing. */
  lemma OneLineValue(line: string, num: Numerals)
    ensures LineValue(line, num).None? ==> BodyValues([line], num) == []
    ensures LineValue(line, num).Some? ==> BodyValues([line], num) == [LineValue(line, num).value]
  {
    assert [line][1..] == [];
  }

  /** A blank line, a `*` line or a line `float` rejects anywhere in the body adds no value. */
  lemma SkippedLineInvisible(a: seq<string>, line: string, b: seq<string>, num: Numerals)
    requires LineValue(line, num).None?
    ensures BodyValues(a + [line] + b, num) == BodyValues(a + b, num)
  {
    BodyValuesAppend(a + [line], b, num);
    BodyValuesAppend(a, [line], num);
    assert [line][1..] == [];
    assert BodyValues(a, num) + [] == BodyValues(a, num);
    BodyValuesAppend(a, b, num);
  }

  /** Row `i` of `values.reshape(n, m)` holds `values[i*m .. i*m + m]`. */
  lemma {:induction false} ChunkEntry(values: seq<real>, n: nat, m: nat, i: nat, j: nat)
    requires |values| == n * m && i < n && j < m
    ensures i * m + j < |values|
    ensures |Chunks(values, n, m)[i]| == m
    ensures Chunks(values, n, m)[i][j] == values[i * m + j]
    decreases i
  {
    MulLe(i + 1, n, m);
    MulSucc(i, m);
    MulSucc(n - 1, m);
    if i > 0 {
      ChunkEntry(values[m..], n - 1, m, i - 1, j);
      MulSucc(i - 1, m);
    }
  }

  /**
   * Several realizations: realization `r`, node `j` is value `r*n_nodes + j`
   * of the file; realizations are not interleaved.
   */
  lemma StackedEntry(nReal: int, nNodes: int, values: seq<real>, r: nat, j: nat)
    requires nReal != 1 && Arrange(nReal, nNodes, values).Success?
    requires r < nReal && j < nNodes
    ensures r * nNodes + j < |values|
    ensures |Arrange(nReal, nNodes, values).value.rows[r]| == nNodes
    ensures Arrange(nReal, nNodes, values).value.rows[r][j] == values[r * nNodes + j]
  {
    ChunkEntry(values, nReal, nNodes, r, j);
  }

  // ----- Reading back a laid-out output file -----

  /** `str(i)` has no `:` and no `x`, and `str(x)` does not start with `*`. */
  ghost predicate Plain(num: Numerals) {
    && (forall i: int :: ':' !in num.showInt(i) && 'x' !in num.showInt(i))
    && (forall x: real :: !StartsWith(num.showFloat(x), "*"))
  }

  lemma PlainInt(num: Numerals, i: int)
    requires Plain(num)
    ensures ':' !in num.showInt(i) && 'x' !in num.showInt(i)
  {
  }

  lemma PlainFloat(num: Numerals, x: real)
    requires Plain(num)
    ensures !StartsWith(num.showFloat(x), "*")
  {
  }

  /** A header caption: no colon, and no leading whitespace. */
  predicate Label(s: string) {
    ':' !in s && (|s| == 0 || !IsSpace(s[0]))
  }

  /** A header line neither starts nor ends with whitespace. */
  lemma LabelLineTrimmed(caption: string, s: string)
    requires Label(caption)
    requires |s| > 0 && !IsSpace(s[|s| - 1])
    ensures Strip(caption + ": " + s) == caption + ": " + s
  {
    var line := caption + ": " + s;
    assert line[0] == (if |caption| == 0 then ':' else caption[0]);
    assert line[|line| - 1] == s[|s| - 1];
  }

  /** `<caption>: <int>` */
  function CountLine(caption: string, n: int, num: Numerals): string {
    caption + ": " + num.showInt(n)
  }

  /** `<caption>: <int> x <int> x <int>` */
  function ExtentLine(caption: string, e: Extents, num: Numerals): string {
    caption + ": " + num.showInt(e.nx) + " x " + num.showInt(e.ny) + " x " + num.showInt(e.nz)
  }

  /** One value per line. */
  function ValueLines(values: seq<real>, num: Numerals): (r: seq<string>)
    ensures |r| == |values|
    ensures forall k :: 0 <= k < |values| ==> r[k] == num.showFloat(values[k])
  {
    seq(|values|, k requires 0 <= k < |values| => num.showFloat(values[k]))
  }

  /** An output file: title, realization count, extents, then the values. */
  function OutputText(title: string, countCaption: string, gridCaption: string, nReal: int, e: Extents,
                      values: seq<real>, num: Numerals): seq<string> {
    [title, CountLine(countCaption, nReal, num), ExtentLine(gridCaption, e, num)] + ValueLines(values, num)
  }

  /** The text after the caption's colon, stripped. */
  lemma AfterLabel(caption: string, s: string)
    requires Label(caption) && ':' !in s
    requires |s| > 0 && !IsSpace(s[0]) && !IsSpace(s[|s| - 1])
    ensures Strip(caption + ": " + s) == caption + ": " + s
    ensures AfterColon(caption + ": " + s) == Success(s)
  {
    LabelLineTrimmed(caption, s);
    ColonPieces(caption, s);
    StripLeadingSpace(s);
  }

  /** A header line splits on `:` into the caption and the rest. */
  lemma ColonPieces(caption: string, s: string)
    requires Label(caption) && ':' !in s
    ensures SplitOn(caption + ": " + s, ':') == [caption, " " + s]
  {
    assert caption + ": " + s == caption + [':'] + (" " + s);
    SplitOnAfter(caption, ':', " " + s);
    assert ':' !in " " + s;
    SplitOnAbsent(" " + s, ':');
  }

  /** The realization-count line reads back as its count. */
  lemma CountLineRead(caption: string, n: int, num: Numerals)
    requires Sound(num) && Plain(num) && Label(caption)
    ensures Strip(CountLine(caption, n, num)) == CountLine(caption, n, num)
    ensures AfterColon(CountLine(caption, n, num)) == Success(num.showInt(n))
    ensures IntOf(num.showInt(n), num) == Success(n)
  {
    IntRoundTrip(num, n);
    PlainInt(num, n);
    AfterLabel(caption, num.showInt(n));
  }

  /** `a x b x c` splits on `x` into three words, each padded with spaces. */
  lemma ExtentWords(a: string, b: string, c: string)
    requires 'x' !in a && 'x' !in b && 'x' !in c
    ensures SplitOn(a + " x " + b + " x " + c, 'x') == [a + " ", " " + b + " ", " " + c]
  {
    var rest := " " + b + " x " + c;
    Around(a, b + " x " + c);
    assert a + " x " + b + " x " + c == a + " x " + (b + " x " + c);
    assert " " + (b + " x " + c) == rest;
    Absent(a, " ", 'x');
    SplitOnAfter(a + " ", 'x', rest);
    ExtentRest(b, c);
  }

  /** ` b x c` splits on `x` into two words, each padded with spaces. */
  lemma ExtentRest(b: string, c: string)
    requires 'x' !in b && 'x' !in c
    ensures SplitOn(" " + b + " x " + c, 'x') == [" " + b + " ", " " + c]
  {
    Around(" " + b, c);
    Absent(" ", b, 'x');
    Absent(" " + b, " ", 'x');
    SplitOnAfter(" " + b + " ", 'x', " " + c);
    Absent(" ", c, 'x');
    SplitOnAbsent(" " + c, 'x');
  }

  /** ` x ` between two texts is a padded separator. */
  lemma Around(u: string, v: string)
    ensures u + " x " + v == (u + " ") + ['x'] + (" " + v)
  {
    assert " x " == " " + ['x'] + " ";
  }

  /** A character in neither text is not in the two joined. */
  lemma Absent(s: string, t: string, ch: char)
    requires ch !in s && ch !in t
    ensures ch !in s + t
  {
  }

  /** The extents text reads back as its three extents. */
  lemma ExtentsRead(e: Extents, num: Numerals)
    requires Sound(num) && Plain(num)
    ensures ParseExtents(num.showInt(e.nx) + " x " + num.showInt(e.ny) + " x " + num.showInt(e.nz), num) == Success(e)
  {
    var a, b, c := num.showInt(e.nx), num.showInt(e.ny), num.showInt(e.nz);
    IntRoundTrip(num, e.nx);
    IntRoundTrip(num, e.ny);
    IntRoundTrip(num, e.nz);
    PlainInt(num, e.nx);
    PlainInt(num, e.ny);
    PlainInt(num, e.nz);
    ExtentWords(a, b, c);
    var parts := SplitOn(a + " x " + b + " x " + c, 'x');
    StripPadded("", a, " ");
    assert "" + a + " " == parts[0];
    StripPadded(" ", b, " ");
    StripPadded(" ", c, "");
    assert " " + c + "" == parts[2];
    ExtentsOfPieces(a + " x " + b + " x " + c, e, num);
  }

  /** Three `x`-separated pieces whose stripped texts read as the extents give those extents. */
  lemma ExtentsOfPieces(text: string, e: Extents, num: Numerals)
    requires |SplitOn(text, 'x')| >= 3
    requires num.parseInt(Strip(SplitOn(text, 'x')[0])) == Some(e.nx)
    requires num.parseInt(Strip(SplitOn(text, 'x')[1])) == Some(e.ny)
    requires num.parseInt(Strip(SplitOn(text, 'x')[2])) == Some(e.nz)
    ensures ParseExtents(text, num) == Success(e)
  {
  }

  /** The extent line reads back as its extents. */
  lemma ExtentLineRead(caption: string, e: Extents, num: Numerals)
    requires Sound(num) && Plain(num) && Label(caption)
    ensures Strip(ExtentLine(caption, e, num)) == ExtentLine(caption, e, num)
    ensures AfterColon(ExtentLine(caption, e, num)).Success?
    ensures ParseExtents(AfterColon(ExtentLine(caption, e, num)).value, num) == Success(e)
  {
    var a, b, c := num.showInt(e.nx), num.showInt(e.ny), num.showInt(e.nz);
    var s := a + " x " + b + " x " + c;
    IntRoundTrip(num, e.nx);
    IntRoundTrip(num, e.nz);
    PlainInt(num, e.nx);
    PlainInt(num, e.ny);
    PlainInt(num, e.nz);
    assert s[0] == a[0] && s[|s| - 1] == c[|c| - 1];
    assert ':' !in s;
    assert ExtentLine(caption, e, num) == caption + ": " + s;
    AfterLabel(caption, s);
    ExtentsRead(e, num);
  }

  /** The unary conversions are plain, so `Sound` and `Plain` can be met together. */
  lemma PlainMet()
    ensures Sound(Unary()) && Plain(Unary())
  {
    SoundMet();
    var num := Unary();
    forall i: int ensures ':' !in num.showInt(i) && 'x' !in num.showInt(i) {
      var s := num.showInt(i);
      assert forall k :: 0 <= k < |s| ==> s[k] == '1' || s[k] == '0';
    }
    forall x: real ensures !StartsWith(num.showFloat(x), "*") {
      var s := num.showFloat(x);
      assert s[0] == '1' || s[0] == '0';
    }
  }

  /** Every value is a float value, as the simulation writes them. */
  predicate Floats(values: seq<real>, num: Numerals) {
    forall k :: 0 <= k < |values| ==> num.isFloat(values[k])
  }

  /** A value line reads back as its value. */
  lemma ValueLineRead(x: real, num: Numerals)
    requires Sound(num) && Plain(num) && num.isFloat(x)
    ensures LineValue(num.showFloat(x), num) == Some(x)
  {
    FloatRoundTrip(num, x);
    PlainFloat(num, x);
    assert Strip(num.showFloat(x)) == num.showFloat(x);
  }

  /** Value lines read back as their values. */
  lemma {:induction false} ValueLinesRead(values: seq<real>, num: Numerals)
    requires Sound(num) && Plain(num) && Floats(values, num)
    ensures BodyValues(ValueLines(values, num), num) == values
  {
    if |values| > 0 {
      ValueLinesRead(values[1..], num);
      ValueLinesCons(values, num);
    }
  }

  /** The step of `ValueLinesRead`: one more value in front. */
  lemma ValueLinesCons(values: seq<real>, num: Numerals)
    requires Sound(num) && Plain(num) && Floats(values, num) && |values| > 0
    requires BodyValues(ValueLines(values[1..], num), num) == values[1..]
    ensures BodyValues(ValueLines(values, num), num) == values
  {
    var lines := ValueLines(values, num);
    ValueLineRead(values[0], num);
    assert lines[0] == num.showFloat(values[0]);
    assert lines[1..] == ValueLines(values[1..], num);
    assert values == [values[0]] + values[1..];
  }

  /**
   * A file laid out as the simulation writes it reads back with its count,
   * its extents and its values, and fails exactly when the count check
   * fails; the title is never looked at.
   */
  lemma OutputRoundTrip(title: string, countCaption: string, gridCaption: string, nReal: int, e: Extents,
                        values: seq<real>, num: Numerals)
    requires Sound(num) && Plain(num) && Floats(values, num) && Label(countCaption) && Label(gridCaption)
    requires OneLine(title) && OneLine(countCaption) && OneLine(gridCaption)
    ensures ParseOutput(OutputText(title, countCaption, gridCaption, nReal, e, values, num), num) == Assemble(nReal, e, values)
  {
    var lines := OutputText(title, countCaption, gridCaption, nReal, e, values, num);
    assert Readline(lines, 1) == CountLine(countCaption, nReal, num);
    assert Readline(lines, 2) == ExtentLine(gridCaption, e, num);
    assert Remaining(lines, 3) == ValueLines(values, num);
    CountLineRead(countCaption, nReal, num);
    ExtentLineRead(gridCaption, e, num);
    ValueLinesRead(values, num);
    ParseLaidOut(lines, nReal, e, values, num);
  }

  /** The reader on any file whose header and body read as given. */
  lemma ParseLaidOut(lines: seq<string>, nReal: int, e: Extents, values: seq<real>, num: Numerals)
    requires AfterColon(Strip(Readline(lines, 1))).Success?
    requires IntOf(AfterColon(Strip(Readline(lines, 1))).value, num) == Success(nReal)
    requires AfterColon(Strip(Readline(lines, 2))).Success?
    requires ParseExtents(AfterColon(Strip(Readline(lines, 2))).value, num) == Success(e)
    requires BodyValues(Remaining(lines, 3), num) == values
    ensures ParseOutput(lines, num) == Assemble(nReal, e, values)
  {
  }

  // ----- reshape_to_grid -----

  /** Where node (i, j, k) sits in the flat list: the first index varies fastest. */
  function Flat(nx: int, ny: int, i: int, j: int, k: int): int {
    i + nx * j + nx * ny * k
  }

  /** The node at flat position `n`. */
  function Coords(nx: nat, ny: nat, n: nat): (r: (nat, nat, nat))
    requires nx > 0 && ny > 0
  {
    (n % nx, (n / nx) % ny, (n / nx) / ny)
  }

  /** Every node of the box has a flat position inside the list. */
  lemma FlatInBox(nx: nat, ny: nat, nz: nat, i: nat, j: nat, k: nat)
    requires i < nx && j < ny && k < nz
    ensures 0 <= Flat(nx, ny, i, j, k) < nx * ny * nz
  {
    MulLe(k + 1, nz, ny);
    MulSucc(k, ny);
    assert j + ny * k < ny * nz;
    MulLe(j + ny * k + 1, ny * nz, nx);
    MulSucc(j + ny * k, nx);
    assert nx * (j + ny * k) == nx * j + nx * ny * k;
    assert nx * (ny * nz) == nx * ny * nz;
  }

  /** Every flat position of the list names a node of the box, whose flat position it is. */
  lemma CoordsFlat(nx: nat, ny: nat, nz: nat, n: nat)
    requires nx > 0 && ny > 0 && n < nx * ny * nz
    ensures Coords(nx, ny, n).0 < nx && Coords(nx, ny, n).1 < ny && Coords(nx, ny, n).2 < nz
    ensures Flat(nx, ny, Coords(nx, ny, n).0, Coords(nx, ny, n).1, Coords(nx, ny, n).2) == n
  {
    var q := n / nx;
    assert nx * ny * nz == nx * (ny * nz);
    DivBelow(n, nx, ny * nz);
    DivBelow(q, ny, nz);
    assert n == q * nx + n % nx;
    assert q == (q / ny) * ny + q % ny;
    assert nx * q == nx * (q % ny) + nx * ny * (q / ny);
  }

  /** The flat position of a node of the box leads back to that node: no two nodes share a position. */
  lemma FlatCoords(nx: nat, ny: nat, nz: nat, i: nat, j: nat, k: nat)
    requires i < nx && j < ny && k < nz
    ensures Coords(nx, ny, Flat(nx, ny, i, j, k)) == (i, j, k)
  {
    var q := j + ny * k;
    assert Flat(nx, ny, i, j, k) == q * nx + i;
    DivModOf(nx, q, i);
    assert q == k * ny + j;
    DivModOf(ny, k, j);
  }

  /** The grid as `reshape_to_grid` returns it, with the extents numpy settled on. */
  datatype Grid = Grid(nx: nat, ny: nat, nz: nat, cells: seq<seq<seq<real>>>)

  /**
   * The extents numpy's `reshape` settles on for `size` values: all three as
   * given when none is negative and their product is `size`. When exactly
   * one is negative (numpy takes any negative extent as the unknown one, not
   * only -1), that one is inferred from the size, provided the other two have
   * a positive product that divides it. Two or three negative extents, or a
   * size that does not fit, give none.
   */
  function Shape(size: nat, nx: int, ny: int, nz: int): (r: Option<(nat, nat, nat)>)
    ensures r.Some? ==> r.value.0 * r.value.1 * r.value.2 == size
    ensures r.Some? ==> (nx >= 0 ==> r.value.0 == nx) && (ny >= 0 ==> r.value.1 == ny) && (nz >= 0 ==> r.value.2 == nz)
    ensures nx >= 0 && ny >= 0 && nz >= 0 ==> (r.Some? <==> nx * ny * nz == size)
    ensures nx < 0 && ny >= 0 && nz >= 0 ==> (r.Some? <==> ny * nz > 0 && size % (ny * nz) == 0)
    ensures ny < 0 && nx >= 0 && nz >= 0 ==> (r.Some? <==> nx * nz > 0 && size % (nx * nz) == 0)
    ensures nz < 0 && nx >= 0 && ny >= 0 ==> (r.Some? <==> nx * ny > 0 && size % (nx * ny) == 0)
    ensures r.Some? ==> (nx < 0 ==> ny >= 0 && nz >= 0) && (ny < 0 ==> nx >= 0 && nz >= 0)
  {
    if nx >= 0 && ny >= 0 && nz >= 0 then
      if nx * ny * nz == size then Some((nx, ny, nz)) else None
    else if nx < 0 && ny >= 0 && nz >= 0 then
      if ny * nz > 0 && size % (ny * nz) == 0 then Inferred(size, ny * nz, ny, nz, 0) else None
    else if ny < 0 && nx >= 0 && nz >= 0 then
      if nx * nz > 0 && size % (nx * nz) == 0 then Inferred(size, nx * nz, nx, nz, 1) else None
    else if nz < 0 && nx >= 0 && ny >= 0 then
      if nx * ny > 0 && size % (nx * ny) == 0 then Inferred(size, nx * ny, nx, ny, 2) else None
    else None
  }

  /** The extents with the one at `pos` inferred as `size / (a*b)`, `a` and `b` the other two in order. */
  function Inferred(size: nat, p: nat, a: nat, b: nat, pos: nat): (r: Option<(nat, nat, nat)>)
    requires p == a * b && p > 0 && size % p == 0 && pos < 3
    ensures r.Some?
    ensures r.value.0 * r.value.1 * r.value.2 == size
    ensures pos == 0 ==> r.value.1 == a && r.value.2 == b
    ensures pos == 1 ==> r.value.0 == a && r.value.2 == b
    ensures pos == 2 ==> r.value.0 == a && r.value.1 == b
  {
    var q := size / p;
    assert size == q * p;
    if pos == 0 then
      assert q * a * b == q * (a * b);
      Some((q, a, b))
    else if pos == 1 then
      assert a * q * b == q * (a * b);
      Some((a, q, b))
    else
      assert a * b * q == q * (a * b);
      Some((a, b, q))
  }

  /** The value at node (i, j, k). */
  function Cell(data: seq<real>, nx: nat, ny: nat, nz: nat, i: nat, j: nat, k: nat): real
    requires |data| == nx * ny * nz && i < nx && j < ny && k < nz
  {
    FlatInBox(nx, ny, nz, i, j, k);
    data[Flat(nx, ny, i, j, k)]
  }

  function Cells(data: seq<real>, nx: nat, ny: nat, nz: nat): (r: seq<seq<seq<real>>>)
    requires |data| == nx * ny * nz
    ensures |r| == nx
    ensures forall i :: 0 <= i < nx ==> |r[i]| == ny
    ensures forall i, j :: 0 <= i < nx && 0 <= j < ny ==> |r[i][j]| == nz
  {
    seq(nx, i requires 0 <= i < nx =>
      seq(ny, j requires 0 <= j < ny =>
        seq(nz, k requires 0 <= k < nz => Cell(data, nx, ny, nz, i, j, k))))
  }

  /** `reshape_to_grid`: `data.reshape((nx, ny, nz), order='F')`. */
  function ReshapeToGrid(data: seq<real>, nx: int, ny: int, nz: int): (r: Result<Grid, OutputError>)
    ensures r.Success? <==> Shape(|data|, nx, ny, nz).Some?
    ensures nx >= 0 && ny >= 0 && nz >= 0 ==> (r.Success? <==> nx * ny * nz == |data|)
    ensures r.Success? ==> r.value.nx * r.value.ny * r.value.nz == |data|
    ensures r.Success? ==> (nx >= 0 ==> r.value.nx == nx) && (ny >= 0 ==> r.value.ny == ny) && (nz >= 0 ==> r.value.nz == nz)
    ensures r.Success? ==> r.value.cells == Cells(data, r.value.nx, r.value.ny, r.value.nz)
  {
    match Shape(|data|, nx, ny, nz)
    case None => Failure(BadShape)
    case Some((a, b, c)) => Success(Grid(a, b, c, Cells(data, a, b, c)))
  }

  /** Node (i, j, k) of the grid holds `data[i + nx*j + nx*ny*k]`: x varies fastest, then y, then z. */
  lemma GridAt(data: seq<real>, nx: nat, ny: nat, nz: nat, i: nat, j: nat, k: nat)
    requires |data| == nx * ny * nz && i < nx && j < ny && k < nz
    ensures Flat(nx, ny, i, j, k) < |data|
    ensures Cells(data, nx, ny, nz)[i][j][k] == data[Flat(nx, ny, i, j, k)]
  {
    FlatInBox(nx, ny, nz, i, j, k);
  }

  /** Every value of the list lands on the grid, at the node `Coords` names. */
  lemma GridCovers(data: seq<real>, nx: nat, ny: nat, nz: nat, n: nat)
    requires |data| == nx * ny * nz && n < |data|
    ensures nx > 0 && ny > 0
    ensures Coords(nx, ny, n).0 < nx && Coords(nx, ny, n).1 < ny && Coords(nx, ny, n).2 < nz
    ensures Cells(data, nx, ny, nz)[Coords(nx, ny, n).0][Coords(nx, ny, n).1][Coords(nx, ny, n).2] == data[n]
  {
    CoordsFlat(nx, ny, nz, n);
    GridAt(data, nx, ny, nz, Coords(nx, ny, n).0, Coords(nx, ny, n).1, Coords(nx, ny, n).2);
  }

  /**
   * A single-realization result always has the length `reshape_to_grid`
   * needs for its own extents, and the reshape succeeds with those extents
   * when none of them is negative.
   */
  lemma SingleFitsGrid(lines: seq<string>, num: Numerals)
    requires ParseOutput(lines, num).Success? && ParseOutput(lines, num).value.nReal == 1
    ensures ParseOutput(lines, num).value.data.Single?
    ensures FitsGrid(ParseOutput(lines, num).value)
  {
    var s := ParseOutput(lines, num).value;
    assert Arrange(1, s.nNodes, BodyValues(Remaining(lines, 3), num)) == Success(s.data);
  }

  /** A 1-D result's length is the node count, and the non-negative extents reshape it. */
  predicate FitsGrid(s: Simulation)
    requires s.data.Single?
  {
    && |s.data.values| == s.nx * s.ny * s.nz
    && (s.nx >= 0 && s.ny >= 0 && s.nz >= 0 ==>
          ReshapeToGrid(s.data.values, s.nx, s.ny, s.nz).Success? &&
          ReshapeToGrid(s.data.values, s.nx, s.ny, s.nz).value.nx == s.nx &&
          ReshapeToGrid(s.data.values, s.nx, s.ny, s.nz).value.ny == s.ny &&
          ReshapeToGrid(s.data.values, s.nx, s.ny, s.nz).value.nz == s.nz)
  }

  // ----- read_estimation_output -----

  /** What `read_estimation_output` returns. */
  datatype Estimate = Estimate(nNodes: nat, mean: seq<real>, variance: seq<real>)

  /** A word of a data row that `float` rejects; the data rows raise nothing else. */
  function FromEas(e: EasError): OutputError
    requires e.BadNumber?
  {
    BadFloat(e.word)
  }

  /** The (mean, variance) pairs: the first two numbers of each row that has at least two. */
  function RowPairs(rows: seq<seq<real>>): seq<(real, real)> {
    if |rows| == 0 then []
    else if |rows[0]| >= 2 then [(rows[0][0], rows[0][1])] + RowPairs(rows[1..])
    else RowPairs(rows[1..])
  }

  function Means(ps: seq<(real, real)>): (r: seq<real>)
    ensures |r| == |ps|
    ensures forall k :: 0 <= k < |ps| ==> r[k] == ps[k].0
  {
    seq(|ps|, k requires 0 <= k < |ps| => ps[k].0)
  }

  function Variances(ps: seq<(real, real)>): (r: seq<real>)
    ensures |r| == |ps|
    ensures forall k :: 0 <= k < |ps| ==> r[k] == ps[k].1
  {
    seq(|ps|, k requires 0 <= k < |ps| => ps[k].1)
  }

  /**
   * `read_estimation_output` on a file whose lines are `lines`: a GEO-EAS
   * header, then the data rows as `read_eas` reads them (blank lines
   * skipped, the first word `float` rejects ends the read), of which those
   * with two numbers or more give a mean and a variance. Rows of differing
   * lengths are accepted: no array is built from them.
   */
  function ParseEstimation(lines: seq<string>, num: Numerals): (r: Result<Estimate, OutputError>)
    ensures r.Success? ==> |r.value.mean| == r.value.nNodes && |r.value.variance| == r.value.nNodes
    ensures num.parseInt(Strip(Readline(lines, 1))).None? ==> r == Failure(BadInt(Strip(Readline(lines, 1))))
  {
    var n :- IntOf(Strip(Readline(lines, 1)), num);
    match DataRows(Remaining(lines, 2 + Count(n)), num)
    case Failure(e) => Failure(FromEas(e))
    case Success(rows) =>
      Success(Estimate(|RowPairs(rows)|, Means(RowPairs(rows)), Variances(RowPairs(rows))))
  }

  /** `read_estimation_output`: the header, the name loop, then the pair loop. */
  method ReadEstimationOutput(lines: seq<string>, num: Numerals) returns (r: Result<Estimate, OutputError>)
    ensures r == ParseEstimation(lines, num)
  {
    var n := IntOf(Strip(Readline(lines, 1)), num);
    if n.Failure? {
      return Failure(n.error);
    }
    var names := ReadNames(lines, n.value);
    var body := Remaining(lines, 2 + Count(n.value));
    var meanList: seq<real> := [];
    var varList: seq<real> := [];
    ghost var rows: seq<seq<real>> := [];
    var k := 0;
    while k < |body|
      invariant 0 <= k <= |body|
      invariant DataRows(body[..k], num) == Success(rows)
      invariant meanList == Means(RowPairs(rows)) && varList == Variances(RowPairs(rows))
    {
      var e := Entry(body[k], num);
      RowsStep(body, k, rows, num);
      if e.Some? {
        if e.value.Failure? {
          return Failure(FromEas(e.value.error));
        }
        var values := e.value.value;
        PairsStep(rows, values);
        rows := rows + [values];
        if |values| >= 2 {
          meanList := meanList + [values[0]];
          varList := varList + [values[1]];
        }
      }
      k := k + 1;
    }
    assert body[..k] == body;
    r := Success(Estimate(|meanList|, meanList, varList));
  }

  /** A row read after `rows` adds its pair when it has two numbers, and nothing otherwise. */
  lemma {:induction false} RowPairsSnoc(rows: seq<seq<real>>, row: seq<real>)
    ensures |row| >= 2 ==> RowPairs(rows + [row]) == RowPairs(rows) + [(row[0], row[1])]
    ensures |row| < 2 ==> RowPairs(rows + [row]) == RowPairs(rows)
  {
    if |rows| == 0 {
      assert rows + [row] == [row];
      assert [row][1..] == [];
      if |row| >= 2 {
        assert [(row[0], row[1])] + [] == [(row[0], row[1])];
      }
    } else {
      assert (rows + [row])[0] == rows[0];
      assert (rows + [row])[1..] == rows[1..] + [row];
      RowPairsSnoc(rows[1..], row);
      if |row| >= 2 && |rows[0]| >= 2 {
        var p, ps := (rows[0][0], rows[0][1]), RowPairs(rows[1..]);
        assert [p] + (ps + [(row[0], row[1])]) == ([p] + ps) + [(row[0], row[1])];
      }
    }
  }

  /** One row of the pair loop: the mean and variance lists grow by its pair, if it has one. */
  lemma PairsStep(rows: seq<seq<real>>, row: seq<real>)
    ensures |row| >= 2 ==> Means(RowPairs(rows + [row])) == Means(RowPairs(rows)) + [row[0]]
    ensures |row| >= 2 ==> Variances(RowPairs(rows + [row])) == Variances(RowPairs(rows)) + [row[1]]
    ensures |row| < 2 ==> RowPairs(rows + [row]) == RowPairs(rows)
  {
    RowPairsSnoc(rows, row);
  }

  /** With every row at least two wide, the pairs are the rows' first two columns, row by row. */
  lemma {:induction false} WidePairs(rows: seq<seq<real>>)
    requires forall k :: 0 <= k < |rows| ==> |rows[k]| >= 2
    ensures |RowPairs(rows)| == |rows|
    ensures forall k :: 0 <= k < |rows| ==> RowPairs(rows)[k] == (rows[k][0], rows[k][1])
  {
    if |rows| > 0 {
      WidePairs(rows[1..]);
      assert RowPairs(rows) == [(rows[0][0], rows[0][1])] + RowPairs(rows[1..]);
    }
  }

  /**
   * `read_estimation_output` reads the file `read_eas` reads alike: when
   * `read_eas` succeeds, the means and variances are the first two numbers
   * of each of its rows that has two.
   */
  lemma EstimationAgreesWithEas(lines: seq<string>, num: Numerals)
    requires ParseEas(lines, num).Success?
    ensures ParseEstimation(lines, num)
         == Success(Estimate(|RowPairs(ParseEas(lines, num).value.rows)|,
                             Means(RowPairs(ParseEas(lines, num).value.rows)),
                             Variances(RowPairs(ParseEas(lines, num).value.rows))))
  {
    EasParts(lines, num);
  }

  /**
   * A kriged mean and variance written by `write_eas` as the first two of
   * `w` columns come back from `read_estimation_output` as their `.10f`
   * texts read back, one pair per row.
   */
  lemma EstimationRoundTrip(rows: seq<seq<real>>, w: nat, names: Option<seq<string>>, num: Numerals)
    requires Sound(num) && w >= 2
    requires forall k :: 0 <= k < |rows| ==> |rows[k]| == w
    requires names.Some? ==> |names.value| == w && forall k :: 0 <= k < w ==> Heading(names.value[k])
    ensures ParseEstimation(EasText(Matrix(rows, w), None, names, num), num)
         == Success(Estimate(|rows|, FixedColumn(rows, 0, num), FixedColumn(rows, 1, num)))
  {
    var lines := EasText(Matrix(rows, w), None, names, num);
    EasRoundTrip(Matrix(rows, w), None, names, num);
    EstimationAgreesWithEas(lines, num);
    FixedPairs(rows, w, num);
  }

  /** The pairs of rows written with `.10f`: their first two columns, as those texts read back. */
  lemma FixedPairs(rows: seq<seq<real>>, w: nat, num: Numerals)
    requires w >= 2 && forall k :: 0 <= k < |rows| ==> |rows[k]| == w
    ensures |RowPairs(FixedRows(rows, num))| == |rows|
    ensures Means(RowPairs(FixedRows(rows, num))) == FixedColumn(rows, 0, num)
    ensures Variances(RowPairs(FixedRows(rows, num))) == FixedColumn(rows, 1, num)
  {
    WidePairs(FixedRows(rows, num));
  }
}
