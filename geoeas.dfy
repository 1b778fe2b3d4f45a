/**
 * The GEO-EAS tabular format of python/visim/data.py: a title line, a line
 * holding the number of variables, that many variable-name lines, then one
 * line of whitespace-separated numbers per data point; blank lines in the
 * data section are skipped.
 *
 * `ReadEas` and `WriteEas` are the loops of `read_eas` and `write_eas`,
 * proved against the functions `ParseEas` and `EasText`; the round trip and
 * the 4-column point view are lemmas about those functions.
 */
module GeoEas {
  import opened Outcomes
  import opened Text
  import opened Numerals

  // ----- Reading -----

  /** `f.readline()` once `k` lines have been read: the empty string at end of file. */
  function Readline(lines: seq<string>, k: nat): string {
    if k < |lines| then lines[k] else ""
  }

  /** The lines `for line in f` still visits once `k` lines have been read. */
  function Remaining(lines: seq<string>, k: nat): seq<string> {
    if k <= |lines| then lines[k..] else []
  }

  /** `line.strip()` is empty: the data loop skips the line. */
  predicate Blank(line: string) {
    Strip(line) == ""
  }

  /** What `read_eas` returns: `title`, `n_vars`, `var_names` and the rows of `data`. */
  datatype Table = Table(title: string, nVars: int, names: seq<string>, rows: seq<seq<real>>)

  /**
   * The exceptions: `int()` rejects the count line, `float()` rejects a word
   * of a data line, `np.array` refuses rows of different lengths, and
   * (in `read_conditioning_data`) `data.shape[1]` does not exist or is below 4.
   */
  datatype EasError = BadCount(word: string) | BadNumber(word: string) | Ragged | NoColumns | TooFewColumns(got: nat)

  /** Every row has the length of the first: the rows make a 2-D numpy array. */
  predicate Uniform(rows: seq<seq<real>>) {
    forall k :: 0 <= k < |rows| ==> |rows[k]| == |rows[0]|
  }

  /** The name lines: `Count(n)` further lines, each stripped. */
  function NameLines(lines: seq<string>, n: int): (r: seq<string>)
    ensures |r| == Count(n)
  {
    seq(Count(n), k requires 0 <= k < Count(n) => Strip(Readline(lines, 2 + k)))
  }

  /** The words of a data line as numbers, or the first word `float` rejects. */
  function RowOf(line: string, num: Numerals): (r: Result<seq<real>, EasError>)
    ensures r.Success? <==> AllFloats(num, Split(Strip(line)))
    ensures r.Success? ==> |r.value| == |Split(Strip(line))|
    ensures r.Success? ==> forall k :: 0 <= k < |r.value| ==> num.parseFloat(Split(Strip(line))[k]) == Some(r.value[k])
    ensures r.Failure? ==> r.error.BadNumber? && r.error.word in Split(Strip(line))
    ensures r.Failure? ==> exists k :: FirstNonFloat(num, Split(Strip(line)), k) && r.error == BadNumber(Split(Strip(line))[k])
  {
    match ParseFloats(num, Split(Strip(line)))
    case Failure(w) => Failure(BadNumber(w))
    case Success(row) => Success(row)
  }

  /** What the data loop makes of one line: nothing for a blank line, otherwise its row or the error. */
  function Entry(line: string, num: Numerals): (r: Option<Result<seq<real>, EasError>>)
    ensures r.None? <==> Blank(line)
    ensures r.Some? && r.value.Failure? ==> r.value.error.BadNumber?
  {
    if Blank(line) then None else Some(RowOf(line, num))
  }

  function Entries(body: seq<string>, num: Numerals): (r: seq<Option<Result<seq<real>, EasError>>>)
    ensures |r| == |body|
  {
    if |body| == 0 then [] else [Entry(body[0], num)] + Entries(body[1..], num)
  }

  /** The rows of the entries, in order, or the first error. */
  function Gather(es: seq<Option<Result<seq<real>, EasError>>>): (r: Result<seq<seq<real>>, EasError>)
    ensures r.Success? ==> |r.value| <= |es|
    ensures r.Failure? ==> Some(Failure(r.error)) in es
  {
    if |es| == 0 then Success([])
    else match es[0]
      case None => Gather(es[1..])
      case Some(Failure(e)) => Failure(e)
      case Some(Success(row)) =>
        var rest :- Gather(es[1..]);
        Success([row] + rest)
  }

  /** The data loop: one row per non-blank line, in file order; the first bad word ends the read. */
  function DataRows(body: seq<string>, num: Numerals): (r: Result<seq<seq<real>>, EasError>)
    ensures r.Failure? ==> r.error.BadNumber?
  {
    EntriesFail(body, num);
    Gather(Entries(body, num))
  }

  /** Every failing entry of the data loop is a word `float` rejects. */
  lemma {:induction false} EntriesFail(body: seq<string>, num: Numerals)
    ensures forall e: EasError :: Some(Failure(e)) in Entries(body, num) ==> e.BadNumber?
  {
    if |body| > 0 {
      EntriesFail(body[1..], num);
      assert Entries(body, num) == [Entry(body[0], num)] + Entries(body[1..], num);
    }
  }

  /** `read_eas` on a file whose lines are `lines`. */
  function ParseEas(lines: seq<string>, num: Numerals): (r: Result<Table, EasError>)
    ensures r.Success? ==> |r.value.names| == Count(r.value.nVars)
    ensures r.Success? ==> Uniform(r.value.rows)
    ensures r.Success? ==> num.parseInt(Strip(Readline(lines, 1))) == Some(r.value.nVars)
  {
    var word := Strip(Readline(lines, 1));
    match num.parseInt(word)
    case None => Failure(BadCount(word))
    case Some(n) =>
      var rows :- DataRows(Remaining(lines, 2 + Count(n)), num);
      if Uniform(rows) then Success(Table(Strip(Readline(lines, 0)), n, NameLines(lines, n), rows))
      else Failure(Ragged)
  }

  /** A table read by `read_eas` took its count from line 1 and its rows from the lines after the names. */
  lemma EasParts(lines: seq<string>, num: Numerals)
    requires ParseEas(lines, num).Success?
    ensures var t := ParseEas(lines, num).value;
      && num.parseInt(Strip(Readline(lines, 1))) == Some(t.nVars)
      && DataRows(Remaining(lines, 2 + Count(t.nVars)), num) == Success(t.rows)
  {
    var n := num.parseInt(Strip(Readline(lines, 1))).value;
    assert DataRows(Remaining(lines, 2 + Count(n)), num).Success?;
  }

  /** `read_eas`: the header, then the name loop and the data loop. */
  method ReadEas(lines: seq<string>, num: Numerals) returns (r: Result<Table, EasError>)
    ensures r == ParseEas(lines, num)
  {
    var title := Strip(Readline(lines, 0));
    var word := Strip(Readline(lines, 1));
    var count := num.parseInt(word);
    if count.None? {
      return Failure(BadCount(word));
    }
    var n := count.value;
    var names := ReadNames(lines, n);
    var rows := ReadRows(Remaining(lines, 2 + Count(n)), num);
    if rows.Failure? {
      return Failure(rows.error);
    }
    if !Uniform(rows.value) {
      return Failure(Ragged);
    }
    r := Success(Table(title, n, names, rows.value));
  }

  /** `for _ in range(n_vars): var_names.append(f.readline().strip())` */
  method ReadNames(lines: seq<string>, n: int) returns (names: seq<string>)
    ensures names == NameLines(lines, n)
  {
    names := [];
    var i := 0;
    while i < n
      invariant 0 <= i <= Count(n)
      invariant names == NameLines(lines, n)[..i]
    {
      NamesStep(lines, n, i);
      names := names + [Strip(Readline(lines, 2 + i))];
      i := i + 1;
    }
    NamesDone(lines, n);
  }

  /** One pass of the name loop. */
  lemma NamesStep(lines: seq<string>, n: int, i: nat)
    requires i < Count(n)
    ensures NameLines(lines, n)[..i + 1] == NameLines(lines, n)[..i] + [Strip(Readline(lines, 2 + i))]
  {
    var all := NameLines(lines, n);
    assert all[i] == Strip(Readline(lines, 2 + i));
    assert all[..i + 1] == all[..i] + [all[i]];
  }

  lemma NamesDone(lines: seq<string>, n: int)
    ensures NameLines(lines, n)[..Count(n)] == NameLines(lines, n)
  {
  }

  /** `for line in f`: a row for each non-blank line, stopping at the first word `float` rejects. */
  method ReadRows(body: seq<string>, num: Numerals) returns (r: Result<seq<seq<real>>, EasError>)
    ensures r == DataRows(body, num)
  {
    var rows: seq<seq<real>> := [];
    var k := 0;
    while k < |body|
      invariant 0 <= k <= |body|
      invariant DataRows(body[..k], num) == Success(rows)
    {
      var e := Entry(body[k], num);
      RowsStep(body, k, rows, num);
      if e.Some? {
        if e.value.Failure? {
          return Failure(e.value.error);
        }
        rows := rows + [e.value.value];
      }
      k := k + 1;
    }
    assert body[..k] == body;
    r := Success(rows);
  }

  /** One pass of the data loop, from the rows of the first `k` lines. */
  lemma RowsStep(body: seq<string>, k: nat, rows: seq<seq<real>>, num: Numerals)
    requires k < |body| && DataRows(body[..k], num) == Success(rows)
    ensures Entry(body[k], num).None? ==> DataRows(body[..k + 1], num) == Success(rows)
    ensures Entry(body[k], num).Some? && Entry(body[k], num).value.Failure? ==>
              DataRows(body, num) == Failure(Entry(body[k], num).value.error)
    ensures Entry(body[k], num).Some? && Entry(body[k], num).value.Success? ==>
              DataRows(body[..k + 1], num) == Success(rows + [Entry(body[k], num).value.value])
  {
    RowsGrow(body, k, rows, num);
    EntryRows(body[k], num);
    var e := Entry(body[k], num);
    if e.None? {
      assert rows + [] == rows;
    } else if e.value.Failure? {
      DataRowsAppend(body[..k + 1], body[k + 1..], num);
      assert body == body[..k + 1] + body[k + 1..];
    }
  }

  /** The rows of the first `k + 1` lines, from those of the first `k`. */
  lemma RowsGrow(body: seq<string>, k: nat, rows: seq<seq<real>>, num: Numerals)
    requires k < |body| && DataRows(body[..k], num) == Success(rows)
    ensures DataRows(body[..k + 1], num) == Both(Success(rows), DataRows([body[k]], num))
  {
    assert body[..k + 1] == body[..k] + [body[k]];
    DataRowsAppend(body[..k], [body[k]], num);
  }

  /** One entry: no row, its error, or its single row. */
  lemma GatherOne(e: Option<Result<seq<real>, EasError>>)
    ensures e.None? ==> Gather([e]) == Success([])
    ensures e.Some? && e.value.Failure? ==> Gather([e]) == Failure(e.value.error)
    ensures e.Some? && e.value.Success? ==> Gather([e]) == Success([e.value.value])
  {
    assert [e][1..] == [];
    if e.Some? && e.value.Success? {
      assert [e.value.value] + [] == [e.value.value];
    }
  }

  /** What one line contributes to the data rows. */
  lemma EntryRows(line: string, num: Numerals)
    ensures Entry(line, num).None? ==> DataRows([line], num) == Success([])
    ensures Entry(line, num).Some? && Entry(line, num).value.Failure? ==> DataRows([line], num) == Failure(Entry(line, num).value.error)
    ensures Entry(line, num).Some? && Entry(line, num).value.Success? ==> DataRows([line], num) == Success([Entry(line, num).value.value])
  {
    assert Entries([line], num) == [Entry(line, num)] + Entries([], num);
    GatherOne(Entry(line, num));
  }

  /** The rows read from `a + b`: those of `a`, then those of `b`, or the first error. */
  function Both(x: Result<seq<seq<real>>, EasError>, y: Result<seq<seq<real>>, EasError>): Result<seq<seq<real>>, EasError> {
    match x
    case Failure(e) => Failure(e)
    case Success(xs) =>
      match y
      case Failure(e) => Failure(e)
      case Success(ys) => Success(xs + ys)
  }

  lemma {:induction false} GatherAppend(a: seq<Option<Result<seq<real>, EasError>>>, b: seq<Option<Result<seq<real>, EasError>>>)
    ensures Gather(a + b) == Both(Gather(a), Gather(b))
  {
    if |a| == 0 {
      assert a + b == b;
      if Gather(b).Success? {
        assert [] + Gather(b).value == Gather(b).value;
      }
    } else {
      assert (a + b)[0] == a[0];
      assert (a + b)[1..] == a[1..] + b;
      GatherAppend(a[1..], b);
      if a[0].Some? && a[0].value.Success? && Gather(a[1..]).Success? && Gather(b).Success? {
        var row, xs, ys := a[0].value.value, Gather(a[1..]).value, Gather(b).value;
        assert [row] + (xs + ys) == ([row] + xs) + ys;
      }
    }
  }

  lemma {:induction false} EntriesAppend(a: seq<string>, b: seq<string>, num: Numerals)
    ensures Entries(a + b, num) == Entries(a, num) + Entries(b, num)
  {
    if |a| == 0 {
      assert a + b == b;
    } else {
      assert (a + b)[0] == a[0];
      assert (a + b)[1..] == a[1..] + b;
      EntriesAppend(a[1..], b, num);
    }
  }

  /** Rows come out in file order: reading `a + b` is reading `a`, then `b`. */
  lemma DataRowsAppend(a: seq<string>, b: seq<string>, num: Numerals)
    ensures DataRows(a + b, num) == Both(DataRows(a, num), DataRows(b, num))
  {
    EntriesAppend(a, b, num);
    GatherAppend(Entries(a, num), Entries(b, num));
  }

  /** A blank line anywhere in the data section adds no row. */
  lemma BlankLineSkipped(a: seq<string>, line: string, b: seq<string>, num: Numerals)
    requires Blank(line)
    ensures DataRows(a + [line] + b, num) == DataRows(a + b, num)
  {
    DataRowsAppend(a + [line], b, num);
    DataRowsAppend(a, [line], num);
    var es := Entries([line], num);
    assert es[0] == Entry(line, num) == None;
    assert es[1..] == [];
    assert Gather(es) == Gather(es[1..]) == Success([]);
    if DataRows(a, num).Success? {
      assert DataRows(a, num).value + [] == DataRows(a, num).value;
    }
    DataRowsAppend(a, b, num);
  }

  /** A non-blank data line adds exactly one row, its words as numbers, or fails as `float` does. */
  lemma LineGivesRow(line: string, num: Numerals)
    requires !Blank(line)
    ensures RowOf(line, num).Success? ==> DataRows([line], num) == Success([RowOf(line, num).value])
    ensures RowOf(line, num).Failure? ==> DataRows([line], num) == Failure(RowOf(line, num).error)
    ensures DataRows([line], num).Success? <==> AllFloats(num, Split(Strip(line)))
    ensures DataRows([line], num).Failure? ==>
      exists k :: FirstNonFloat(num, Split(Strip(line)), k) && DataRows([line], num).error == BadNumber(Split(Strip(line))[k])
  {
    var r := RowOf(line, num);
    LineRows(line, num);
    assert DataRows([line], num).Success? <==> r.Success?;
    if r.Failure? {
      assert DataRows([line], num).error == r.error;
    }
  }

  /** The data loop over one non-blank line gives that line's `RowOf`, as one row or as the error. */
  lemma LineRows(line: string, num: Numerals)
    requires !Blank(line)
    ensures DataRows([line], num) == if RowOf(line, num).Success? then Success([RowOf(line, num).value])
                                     else Failure(RowOf(line, num).error)
  {
    var es := Entries([line], num);
    assert es[0] == Entry(line, num) == Some(RowOf(line, num));
    assert es[1..] == [];
    assert Gather(es[1..]) == Success([]);
    if RowOf(line, num).Success? {
      assert [RowOf(line, num).value] + [] == [RowOf(line, num).value];
    }
  }

  // ----- Writing -----

  /** A numpy array as `write_eas` receives it: one-dimensional, or `rows` × `cols`. */
  datatype Array = Vector(values: seq<real>) | Matrix(rows: seq<seq<real>>, cols: nat)

  /** A 2-D array's rows all have `cols` entries. */
  predicate Rectangular(data: Array) {
    data.Matrix? ==> forall k :: 0 <= k < |data.rows| ==> |data.rows[k]| == data.cols
  }

  /** The rows after `data.reshape(-1, 1)` for a 1-D array: one single-value row per entry. */
  function Points(data: Array): (r: seq<seq<real>>)
    ensures data.Vector? ==> |r| == |data.values| && forall k :: 0 <= k < |r| ==> r[k] == [data.values[k]]
    ensures data.Matrix? ==> r == data.rows
  {
    match data
    case Vector(vs) => seq(|vs|, k requires 0 <= k < |vs| => [vs[k]])
    case Matrix(rows, _) => rows
  }

  /** `n_vars` as `write_eas` takes it from `data.shape`. */
  function Columns(data: Array): nat {
    match data
    case Vector(_) => 1
    case Matrix(_, cols) => cols
  }

  /** `f"var{i+1}"` for each column. */
  function DefaultNames(n: nat, num: Numerals): (r: seq<string>)
    ensures |r| == n
    ensures forall k :: 0 <= k < n ==> r[k] == "var" + num.showInt(k + 1)
  {
    seq(n, k requires 0 <= k < n => "var" + num.showInt(k + 1))
  }

  function TitleOr(title: Option<string>): string {
    match title
    case Some(t) => t
    case None => "Data"
  }

  function NamesOr(names: Option<seq<string>>, n: nat, num: Numerals): seq<string> {
    match names
    case Some(ns) => ns
    case None => DefaultNames(n, num)
  }

  /** `f'{x:.10f}'` for each value of a row. */
  function FixedWords(row: seq<real>, num: Numerals): (r: seq<string>)
    ensures |r| == |row|
    ensures forall k :: 0 <= k < |row| ==> r[k] == num.fixed10(row[k])
  {
    seq(|row|, k requires 0 <= k < |row| => num.fixed10(row[k]))
  }

  /** One data line: the row's values, space-separated. */
  function DataLine(row: seq<real>, num: Numerals): string {
    Join(" ", FixedWords(row, num))
  }

  function DataLines(rows: seq<seq<real>>, num: Numerals): (r: seq<string>)
    ensures |r| == |rows|
    ensures forall k :: 0 <= k < |rows| ==> r[k] == DataLine(rows[k], num)
  {
    seq(|rows|, k requires 0 <= k < |rows| => DataLine(rows[k], num))
  }

  /** The file `write_eas` writes: title, column count, names, one line per row. */
  function EasText(data: Array, title: Option<string>, names: Option<seq<string>>, num: Numerals): seq<string> {
    [TitleOr(title), num.showInt(Columns(data))] + NamesOr(names, Columns(data), num) + DataLines(Points(data), num)
  }

  /** `write_eas`, with its two loops. */
  method WriteEas(data: Array, title: Option<string>, varNames: Option<seq<string>>, num: Numerals)
    returns (out: seq<string>)
    ensures out == EasText(data, title, varNames, num)
  {
    var rows := Points(data);
    var n := Columns(data);
    var t := if title.None? then "Data" else title.value;
    var names := if varNames.None? then DefaultNames(n, num) else varNames.value;
    assert t == TitleOr(title) && names == NamesOr(varNames, n, num);
    out := [t, num.showInt(n)];
    for k := 0 to |names|
      invariant out == [t, num.showInt(n)] + names[..k]
    {
      out := out + [names[k]];
    }
    assert names[..|names|] == names;
    ghost var head := out;
    for k := 0 to |rows|
      invariant out == head + DataLines(rows[..k], num)
    {
      DataLinesSnoc(rows, k, num);
      out := out + [DataLine(rows[k], num)];
    }
    assert rows[..|rows|] == rows;
  }

  /** The data lines of one more row: those before it, then its own. */
  lemma DataLinesSnoc(rows: seq<seq<real>>, k: nat, num: Numerals)
    requires k < |rows|
    ensures DataLines(rows[..k + 1], num) == DataLines(rows[..k], num) + [DataLine(rows[k], num)]
  {
  }

  // ----- Write, then read -----

  /** What reading back a written value gives: its `.10f` text, read back. */
  function FixedRow(row: seq<real>, num: Numerals): (r: seq<real>)
    ensures |r| == |row|
    ensures forall k :: 0 <= k < |row| ==> r[k] == FixedValue(num, row[k])
  {
    seq(|row|, k requires 0 <= k < |row| => FixedValue(num, row[k]))
  }

  function FixedRows(rows: seq<seq<real>>, num: Numerals): (r: seq<seq<real>>)
    ensures |r| == |rows|
    ensures forall k :: 0 <= k < |rows| ==> r[k] == FixedRow(rows[k], num)
  {
    seq(|rows|, k requires 0 <= k < |rows| => FixedRow(rows[k], num))
  }

  /** A line with no leading or trailing whitespace is its own `strip()`. */
  predicate Trimmed(s: string) {
    Strip(s) == s
  }

  /** Lines that are each their own `strip()`. */
  predicate AllTrimmed(lines: seq<string>) {
    forall k :: 0 <= k < |lines| ==> Trimmed(lines[k])
  }

  /**
   * A title or name that `write_eas` writes as exactly one line (no line
   * break, which the reader would take as the end of the line) and that
   * `strip()` leaves as it is.
   */
  predicate Heading(s: string) {
    Trimmed(s) && OneLine(s)
  }

  /** Words joined by single spaces neither start nor end with whitespace. */
  lemma {:induction false} JoinEnds(ts: seq<string>)
    requires |ts| > 0 && forall k :: 0 <= k < |ts| ==> IsToken(ts[k])
    ensures |Join(" ", ts)| > 0
    ensures !IsSpace(Join(" ", ts)[0]) && !IsSpace(Join(" ", ts)[|Join(" ", ts)| - 1])
  {
    assert IsToken(ts[0]);
    var t := ts[0];
    assert !IsSpace(t[0]) && !IsSpace(t[|t| - 1]);
    if |ts| > 1 {
      JoinEnds(ts[1..]);
      var rest := Join(" ", ts[1..]);
      assert Join(" ", ts) == t + " " + rest;
      assert (t + " " + rest)[0] == t[0];
      assert (t + " " + rest)[|t + " " + rest| - 1] == rest[|rest| - 1];
    }
  }

  /** `float(w)` of each `.10f` word gives the row as its `.10f` texts read back. */
  lemma {:induction false} ReadFixedWords(row: seq<real>, num: Numerals)
    requires Sound(num)
    ensures ParseFloats(num, FixedWords(row, num)) == Success(FixedRow(row, num))
  {
    if |row| > 0 {
      FixedRoundTrip(num, row[0]);
      assert FixedWords(row, num)[1..] == FixedWords(row[1..], num);
      ReadFixedWords(row[1..], num);
      assert FixedRow(row, num) == [FixedValue(num, row[0])] + FixedRow(row[1..], num);
    }
  }

  /** A written data line reads back as its row, each value as its `.10f` text reads back. */
  lemma ReadDataLine(row: seq<real>, num: Numerals)
    requires Sound(num) && |row| > 0
    ensures !Blank(DataLine(row, num))
    ensures RowOf(DataLine(row, num), num) == Success(FixedRow(row, num))
  {
    var ws := FixedWords(row, num);
    forall k | 0 <= k < |ws| ensures IsToken(ws[k]) {
      FixedRoundTrip(num, row[k]);
    }
    JoinEnds(ws);
    assert Trimmed(DataLine(row, num));
    SplitJoin(ws);
    ReadFixedWords(row, num);
  }

  /** The data lines of rows of one width read back as the rows, or as nothing when the width is 0. */
  lemma {:induction false} ReadDataLines(rows: seq<seq<real>>, width: nat, num: Numerals)
    requires Sound(num)
    requires forall k :: 0 <= k < |rows| ==> |rows[k]| == width
    ensures DataRows(DataLines(rows, num), num) == Success(if width == 0 then [] else FixedRows(rows, num))
  {
    if |rows| == 0 {
      assert DataLines(rows, num) == [];
    } else {
      ReadDataLines(rows[1..], width, num);
      ReadMoreLines(rows, width, num);
    }
  }

  /** The step of `ReadDataLines`: one more row in front. */
  lemma ReadMoreLines(rows: seq<seq<real>>, width: nat, num: Numerals)
    requires Sound(num) && |rows| > 0 && |rows[0]| == width
    requires DataRows(DataLines(rows[1..], num), num) == Success(if width == 0 then [] else FixedRows(rows[1..], num))
    ensures DataRows(DataLines(rows, num), num) == Success(if width == 0 then [] else FixedRows(rows, num))
  {
    DataLinesCons(rows, num);
    DataRowsAppend([DataLine(rows[0], num)], DataLines(rows[1..], num), num);
    ReadFirstLine(rows[0], width, num);
    if width == 0 {
      var none: seq<seq<real>> := [];
      assert none + none == none;
    } else {
      FixedRowsCons(rows, num);
    }
  }

  lemma DataLinesCons(rows: seq<seq<real>>, num: Numerals)
    requires |rows| > 0
    ensures DataLines(rows, num) == [DataLine(rows[0], num)] + DataLines(rows[1..], num)
  {
  }

  lemma FixedRowsCons(rows: seq<seq<real>>, num: Numerals)
    requires |rows| > 0
    ensures FixedRows(rows, num) == [FixedRow(rows[0], num)] + FixedRows(rows[1..], num)
  {
  }

  /** One written data line reads back as one row, or as none when the row is empty. */
  lemma ReadFirstLine(row: seq<real>, width: nat, num: Numerals)
    requires Sound(num) && |row| == width
    ensures DataRows([DataLine(row, num)], num) == Success(if width == 0 then [] else [FixedRow(row, num)])
  {
    EntryRows(DataLine(row, num), num);
    if width == 0 {
      assert FixedWords(row, num) == [];
      assert Blank(DataLine(row, num));
    } else {
      ReadDataLine(row, num);
    }
  }

  /** `var<i>` has no whitespace at either end. */
  lemma DefaultNamesTrimmed(n: nat, num: Numerals)
    requires Sound(num)
    ensures forall k :: 0 <= k < n ==> Trimmed(DefaultNames(n, num)[k])
  {
    forall k | 0 <= k < n ensures Trimmed(DefaultNames(n, num)[k]) {
      IntRoundTrip(num, k + 1);
      var s := "var" + num.showInt(k + 1);
      assert s[0] == 'v';
      assert s[|s| - 1] == num.showInt(k + 1)[|num.showInt(k + 1)| - 1];
    }
  }

  /** `str(n)` is its own `strip()` and reads back as `n`. */
  lemma CountLineReads(n: int, num: Numerals)
    requires Sound(num)
    ensures Strip(num.showInt(n)) == num.showInt(n)
    ensures num.parseInt(Strip(num.showInt(n))) == Some(n)
  {
    IntRoundTrip(num, n);
    assert !IsSpace(num.showInt(n)[0]) && !IsSpace(num.showInt(n)[|num.showInt(n)| - 1]);
  }

  /** The name loop reads back trimmed names written after two header lines. */
  lemma NameLinesRead(head: seq<string>, names: seq<string>, body: seq<string>)
    requires |head| == 2
    requires forall k :: 0 <= k < |names| ==> Trimmed(names[k])
    ensures NameLines(head + names + body, |names|) == names
    ensures Remaining(head + names + body, 2 + Count(|names|)) == body
  {
    forall k | 0 <= k < |names| ensures NameLines(head + names + body, |names|)[k] == names[k] {
      assert (head + names + body)[2 + k] == names[k];
    }
    assert (head + names + body)[2 + |names|..] == body;
  }

  /** The header of a file laid out as `write_eas` lays it out. */
  lemma ReadHeader(title: string, n: nat, names: seq<string>, body: seq<string>, num: Numerals)
    requires Sound(num) && Trimmed(title) && |names| == n
    requires forall k :: 0 <= k < n ==> Trimmed(names[k])
    ensures Strip(Readline([title, num.showInt(n)] + names + body, 0)) == title
    ensures num.parseInt(Strip(Readline([title, num.showInt(n)] + names + body, 1))) == Some(n)
    ensures NameLines([title, num.showInt(n)] + names + body, n) == names
    ensures Remaining([title, num.showInt(n)] + names + body, 2 + Count(n)) == body
  {
    CountLineReads(n, num);
    NameLinesRead([title, num.showInt(n)], names, body);
  }

  /** A file whose header and data section read as given reads as that table. */
  lemma ParseLaidOut(lines: seq<string>, title: string, n: nat, names: seq<string>, rows: seq<seq<real>>, num: Numerals)
    requires Strip(Readline(lines, 0)) == title
    requires num.parseInt(Strip(Readline(lines, 1))) == Some(n)
    requires NameLines(lines, n) == names
    requires DataRows(Remaining(lines, 2 + Count(n)), num) == Success(rows)
    requires Uniform(rows)
    ensures ParseEas(lines, num) == Success(Table(title, n, names, rows))
  {
  }

  /** Every row `write_eas` writes has one value per column. */
  lemma PointsWidth(data: Array)
    requires Rectangular(data)
    ensures forall k :: 0 <= k < |Points(data)| ==> |Points(data)[k]| == Columns(data)
  {
  }

  /** Rows of one width, read back, still have that width. */
  lemma FixedRowsUniform(rows: seq<seq<real>>, width: nat, num: Numerals)
    requires forall k :: 0 <= k < |rows| ==> |rows[k]| == width
    ensures Uniform(if width == 0 then [] else FixedRows(rows, num))
  {
  }

  lemma TitleTrimmed(title: Option<string>)
    requires title.Some? ==> Heading(title.value)
    ensures Trimmed(TitleOr(title))
  {
    if title.None? {
      assert !IsSpace('D') && !IsSpace('a');
    }
  }

  lemma NamesTrimmed(names: Option<seq<string>>, n: nat, num: Numerals)
    requires Sound(num)
    requires names.Some? ==> |names.value| == n && forall k :: 0 <= k < n ==> Heading(names.value[k])
    ensures |NamesOr(names, n, num)| == n
    ensures forall k :: 0 <= k < n ==> Trimmed(NamesOr(names, n, num)[k])
  {
    if names.None? {
      DefaultNamesTrimmed(n, num);
    }
  }

  /** The header `write_eas` writes reads back as its title, column count and names. */
  lemma EasHeaderRead(data: Array, title: Option<string>, names: Option<seq<string>>, num: Numerals)
    requires Sound(num)
    requires title.Some? ==> Heading(title.value)
    requires names.Some? ==> |names.value| == Columns(data) && forall k :: 0 <= k < |names.value| ==> Heading(names.value[k])
    ensures Strip(Readline(EasText(data, title, names, num), 0)) == TitleOr(title)
    ensures num.parseInt(Strip(Readline(EasText(data, title, names, num), 1))) == Some(Columns(data))
    ensures NameLines(EasText(data, title, names, num), Columns(data)) == NamesOr(names, Columns(data), num)
    ensures Remaining(EasText(data, title, names, num), 2 + Count(Columns(data))) == DataLines(Points(data), num)
  {
    HeadingsTrimmed(title, names, Columns(data), num);
    HeaderLinesRead(data, title, names, num);
  }

  /** The title and the names `write_eas` writes are lines that `strip()` leaves alone. */
  lemma HeadingsTrimmed(title: Option<string>, names: Option<seq<string>>, n: nat, num: Numerals)
    requires Sound(num)
    requires title.Some? ==> Heading(title.value)
    requires names.Some? ==> |names.value| == n && forall k :: 0 <= k < |names.value| ==> Heading(names.value[k])
    ensures Trimmed(TitleOr(title))
    ensures |NamesOr(names, n, num)| == n && AllTrimmed(NamesOr(names, n, num))
  {
    NamesTrimmed(names, n, num);
    TitleTrimmed(title);
  }

  /** The same, once the title line and the name lines are known to be their own `strip()`. */
  lemma HeaderLinesRead(data: Array, title: Option<string>, names: Option<seq<string>>, num: Numerals)
    requires Sound(num) && Trimmed(TitleOr(title))
    requires |NamesOr(names, Columns(data), num)| == Columns(data) && AllTrimmed(NamesOr(names, Columns(data), num))
    ensures Strip(Readline(EasText(data, title, names, num), 0)) == TitleOr(title)
    ensures num.parseInt(Strip(Readline(EasText(data, title, names, num), 1))) == Some(Columns(data))
    ensures NameLines(EasText(data, title, names, num), Columns(data)) == NamesOr(names, Columns(data), num)
    ensures Remaining(EasText(data, title, names, num), 2 + Count(Columns(data))) == DataLines(Points(data), num)
  {
    ReadHeader(TitleOr(title), Columns(data), NamesOr(names, Columns(data), num), DataLines(Points(data), num), num);
  }

  /** The data lines `write_eas` writes read back as uniform rows of `FixedValue`s. */
  lemma EasBodyRead(data: Array, num: Numerals)
    requires Sound(num) && Rectangular(data)
    ensures DataRows(DataLines(Points(data), num), num) == Success(if Columns(data) == 0 then [] else FixedRows(Points(data), num))
    ensures Uniform(if Columns(data) == 0 then [] else FixedRows(Points(data), num))
  {
    PointsWidth(data);
    ReadDataLines(Points(data), Columns(data), num);
    FixedRowsUniform(Points(data), Columns(data), num);
  }

  /**
   * Reading back what `write_eas` wrote gives the title, the column count,
   * the names and the rows as their `.10f` texts read back, as long as the title and the
   * names are single lines without surrounding whitespace and there is one
   * name per column.
   * A matrix without columns writes empty data lines, which read back as
   * no rows at all.
   */
  lemma EasRoundTrip(data: Array, title: Option<string>, names: Option<seq<string>>, num: Numerals)
    requires Sound(num) && Rectangular(data)
    requires title.Some? ==> Heading(title.value)
    requires names.Some? ==> |names.value| == Columns(data) && forall k :: 0 <= k < |names.value| ==> Heading(names.value[k])
    ensures ParseEas(EasText(data, title, names, num), num)
         == Success(Table(TitleOr(title), Columns(data), NamesOr(names, Columns(data), num),
                          if Columns(data) == 0 then [] else FixedRows(Points(data), num)))
  {
    var text, n := EasText(data, title, names, num), Columns(data);
    var rows := if n == 0 then [] else FixedRows(Points(data), num);
    EasHeaderRead(data, title, names, num);
    EasBodyRead(data, num);
    assert Remaining(text, 2 + Count(n)) == DataLines(Points(data), num);
    ParseLaidOut(text, TitleOr(title), n, NamesOr(names, n, num), rows, num);
  }

  // ----- Points -----

  /** What `read_conditioning_data` returns. */
  datatype Conditioning = Conditioning(x: seq<real>, y: seq<real>, z: seq<real>, value: seq<real>, nPoints: nat)

  /** Column `c` of the rows. */
  function Column(rows: seq<seq<real>>, c: nat): (r: seq<real>)
    requires forall k :: 0 <= k < |rows| ==> c < |rows[k]|
  {
    seq(|rows|, k requires 0 <= k < |rows| => rows[k][c])
  }

  /**
   * The column view of a table: with no rows numpy's array is 1-D and
   * `shape[1]` fails; with fewer than 4 columns the check fails; otherwise
   * columns 0 to 3 are `x`, `y`, `z` and `value`.
   */
  function PointsOf(t: Table): (r: Result<Conditioning, EasError>)
    requires Uniform(t.rows)
    ensures r.Success? <==> |t.rows| > 0 && |t.rows[0]| >= 4
    ensures |t.rows| == 0 ==> r == Failure(NoColumns)
    ensures |t.rows| > 0 && |t.rows[0]| < 4 ==> r == Failure(TooFewColumns(|t.rows[0]|))
    ensures r.Success? ==> r.value.nPoints == |t.rows|
    ensures r.Success? ==> |r.value.x| == |r.value.y| == |r.value.z| == |r.value.value| == |t.rows|
    ensures r.Success? ==> forall k :: 0 <= k < |t.rows| ==>
              r.value.x[k] == t.rows[k][0] && r.value.y[k] == t.rows[k][1] &&
              r.value.z[k] == t.rows[k][2] && r.value.value[k] == t.rows[k][3]
  {
    if |t.rows| == 0 then Failure(NoColumns)
    else if |t.rows[0]| < 4 then Failure(TooFewColumns(|t.rows[0]|))
    else Success(Conditioning(Column(t.rows, 0), Column(t.rows, 1), Column(t.rows, 2), Column(t.rows, 3), |t.rows|))
  }

  /** `read_conditioning_data` */
  function ConditioningData(lines: seq<string>, num: Numerals): (r: Result<Conditioning, EasError>)
    ensures ParseEas(lines, num).Failure? ==> r == Failure(ParseEas(lines, num).error)
    ensures ParseEas(lines, num).Success? ==> var rows := ParseEas(lines, num).value.rows;
      && (r.Success? <==> |rows| > 0 && |rows[0]| >= 4)
      && (|rows| == 0 ==> r == Failure(NoColumns))
      && (|rows| > 0 && |rows[0]| < 4 ==> r == Failure(TooFewColumns(|rows[0]|)))
      && (r.Success? ==> r.value.nPoints == |rows| && |r.value.x| == |r.value.y| == |r.value.z| == |r.value.value| == |rows|)
      && (r.Success? ==> forall k :: 0 <= k < |rows| ==>
            r.value.x[k] == rows[k][0] && r.value.y[k] == rows[k][1] &&
            r.value.z[k] == rows[k][2] && r.value.value[k] == rows[k][3])
  {
    var t :- ParseEas(lines, num);
    PointsOf(t)
  }

  /** Column `c` of the rows, each value as it reads back from `.10f`. */
  function FixedColumn(rows: seq<seq<real>>, c: nat, num: Numerals): (r: seq<real>)
    requires forall k :: 0 <= k < |rows| ==> c < |rows[k]|
  {
    seq(|rows|, k requires 0 <= k < |rows| => FixedValue(num, rows[k][c]))
  }

  lemma ColumnOfFixed(rows: seq<seq<real>>, c: nat, num: Numerals)
    requires forall k :: 0 <= k < |rows| ==> c < |rows[k]|
    ensures Column(FixedRows(rows, num), c) == FixedColumn(rows, c, num)
  {
  }

  /**
   * Points written by `write_eas` as four columns come back from
   * `read_conditioning_data` as `x`, `y`, `z` and `value`, each as its
   * `.10f` text reads back.
   */
  lemma PointsRoundTrip(rows: seq<seq<real>>, names: Option<seq<string>>, num: Numerals)
    requires Sound(num) && |rows| > 0
    requires forall k :: 0 <= k < |rows| ==> |rows[k]| == 4
    requires names.Some? ==> |names.value| == 4 && forall k :: 0 <= k < 4 ==> Heading(names.value[k])
    ensures ConditioningData(EasText(Matrix(rows, 4), None, names, num), num)
         == Success(Conditioning(FixedColumn(rows, 0, num), FixedColumn(rows, 1, num), FixedColumn(rows, 2, num),
                                 FixedColumn(rows, 3, num), |rows|))
  {
    var text := EasText(Matrix(rows, 4), None, names, num);
    EasRoundTrip(Matrix(rows, 4), None, names, num);
    var t := ParseEas(text, num).value;
    assert t.rows == FixedRows(rows, num);
    PointsOfFixed(t, rows, num);
  }

  /** The column view of a table holding the rows as their `.10f` texts read back. */
  lemma PointsOfFixed(t: Table, rows: seq<seq<real>>, num: Numerals)
    requires |rows| > 0 && forall k :: 0 <= k < |rows| ==> |rows[k]| == 4
    requires t.rows == FixedRows(rows, num)
    ensures Uniform(t.rows)
    ensures PointsOf(t) == Success(Conditioning(FixedColumn(rows, 0, num), FixedColumn(rows, 1, num),
                                                FixedColumn(rows, 2, num), FixedColumn(rows, 3, num), |rows|))
  {
    ColumnOfFixed(rows, 0, num);
    ColumnOfFixed(rows, 1, num);
    ColumnOfFixed(rows, 2, num);
    ColumnOfFixed(rows, 3, num);
  }
}
