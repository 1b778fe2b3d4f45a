# VISIM codecs in Dafny

This project models the text codecs of the VISIM Python interface and proves
properties of them:

- **The parameter file** (`VisimParams` in `python/visim/parameters.py`).
  - `read` finds the line holding `START OF PARAMETERS`, then walks a cursor
    through a fixed line layout. It reads only the leading words of each line.
  - It skips 3 DSSIM lines and 4 neighbourhood lines by count.
  - It reads `nst` and then `nst` two-line variogram structures, followed by a
    3-line tail.
  - `write` emits the same layout, with literal filler lines where `read`
    skips.
  - The class `Parameters.VisimParams` keeps the attributes in a mutable
    record. Its methods set them one by one, as the source does, and are
    proved against the pure functions `Parameters.Decode` (reading) and
    `Parameters.Emitted` (writing).
- **The GEO-EAS table** (`python/visim/data.py`).
  - The file is a title, a variable count, that many names, then one row of
    numbers per non-blank line.
  - `write_eas` writes such a file.
  - `read_conditioning_data` is the 4-column point view.
- **The simulation output** (`python/visim/output.py`).
  - `read_visim_output` reads a realization count and `nx x ny x nz` extents,
    then one value per line, with blank, `*` and non-numeric lines skipped.
    It checks the value count and splits the values into realizations.
  - `read_estimation_output` reads a GEO-EAS body as (mean, variance) pairs.
  - `reshape_to_grid` is the column-major index map, and it is proved to be a
    bijection.

Files are sequences of lines without their terminators. Python's numeric
text conversions (`int`, `float`, `str`, `:.10f`, `:.1e`) are abstract
functions in `Numerals.Numerals`, together with `isFloat`, which tells the
reals a Python float holds. The round trips assume `Numerals.Sound`:
- `str` of an int is one word that reads back exactly;
- `str` of a real is one word, and it reads back exactly when the real is a
  float value (`repr` is shortest-round-trip);
- the `.1e` and `.10f` renderings are single words that read back as some
  number.

`Numerals.SoundMet` shows that these assumptions can be met together, by
whole numbers written in unary.

Modules:
- `Outcomes`: Option and Result.
- `Text`: Python's `split`, `strip`, `split(c)`, `in` and `join`.
- `Numerals`: the abstract numeric conversions.
- `Parameters`: the parameter file, the phase functions and the class.
- `ParameterProofs`: write-then-read.
- `ParameterReads`: what `read` does with any file.
- `GeoEas`: `data.py`.
- `VisimOutput`: `output.py`.

Behaviour of the code worth noting, which the model follows:
- The marker match is a case-sensitive substring test. It is not
  case-insensitive.
- A failed `read` leaves the attributes it had already set on the object, so
  `read` is not atomic.
- A missing marker makes the first field access fail with an index error. No
  separate error kind exists for it.
- No error carries a line number.
- `read_eas` does not compare a row's width with the declared variable count.
  Only rows of differing widths fail, because numpy refuses the array.
- `write` writes the stored `nst` and indexes the structure lists with it. It
  does not derive `nst` from the lists.

## Model

| member | source | states |
|---|---|---|
| `Parameters.Defaults` | python/visim/parameters.py:56-126 | the default record is writable as it stands: `nst` is 1, every structure list has an entry for it, and `idbg` has seven levels |
| `Parameters.VisimParams.constructor` | python/visim/parameters.py:38-54 | a new object holds the defaults and no raw lines |
| `Parameters.VisimParams.SetDefaults` | python/visim/parameters.py:56-126 | the attributes become the defaults; the raw lines are kept |
| `Parameters.MarkerScan` | python/visim/parameters.py:143-148 | the scan stops one past the first marker line at or after its start, with no marker line before that; without a marker it ends at the end of the file |
| `Parameters.Tokens` | python/visim/parameters.py:151 | a line's words exist exactly when the line exists; a missing line is an index error |
| `Parameters.IntAt` | python/visim/parameters.py:159-163 | `int(parts[k])` succeeds exactly when word `k` exists and `int` accepts it, giving that value |
| `Parameters.RealAt` | python/visim/parameters.py:175-177 | `float(parts[k])` succeeds exactly when word `k` exists and `float` accepts it, giving that value |
| `Parameters.Ints` | python/visim/parameters.py:180-182 | succeeds exactly when `int` accepts every word, giving one value per word in order; otherwise fails with `BadNumber` of the first word `int` rejects |
| `Parameters.VisimParams.Read` | python/visim/parameters.py:128-323 | keeps the raw lines, and the attributes end as `Decode` of the old attributes: the whole record on success, the partly updated record with the error on failure |
| `Parameters.VisimParams.ReadData` | python/visim/parameters.py:150-178 | lines 1-6 set the attributes exactly as `DataFields` says, one by one, stopping at the first error |
| `Parameters.VisimParams.ReadRun` | python/visim/parameters.py:180-208 | lines 7-12 set the run attributes as `RunFields` says, and the cursor then skips the three DSSIM lines |
| `Parameters.VisimParams.ReadGrid` | python/visim/parameters.py:210-255 | lines 16-21 set the grid attributes as `GridFields` says, and the cursor then skips the four neighbourhood lines |
| `Parameters.VisimParams.ReadKriging` | python/visim/parameters.py:257-291 | lines 26-29 set radii, angles, mean, variance, `nst` and nugget as `KrigingFields` says, and empty the eight structure lists |
| `Parameters.VisimParams.ReadStructures` | python/visim/parameters.py:293-308 | the loop over `range(nst)` appends to the eight lists exactly as `StructureFields` reads from the file |
| `Parameters.VisimParams.ReadTail` | python/visim/parameters.py:310-323 | the three tail lines set the tail attributes as `TailFields` says |
| `Parameters.Shown` | python/visim/parameters.py:347 | `map(str, idbg)` has one word per level, each the `str` of its level |
| `Parameters.DataLayout` | python/visim/parameters.py:341-346 | `write` emits six lines for fields 1-6 |
| `Parameters.RunLayout` | python/visim/parameters.py:348-352 | `write` emits five lines for fields 8-12 |
| `Parameters.GridLayout` | python/visim/parameters.py:356-361 | `write` emits six grid lines |
| `Parameters.KrigingLayout` | python/visim/parameters.py:366-369 | `write` emits four kriging lines |
| `Parameters.Preamble` | python/visim/parameters.py:335-369 | everything `write` emits before the structures is 33 lines |
| `Parameters.TailLayout` | python/visim/parameters.py:375-377 | `write` emits three tail lines |
| `Parameters.WriteStructures` | python/visim/parameters.py:371-373 | the loop writes two lines per structure and succeeds exactly when every structure list has `nst` entries; on an index error the lines already written stay |
| `Parameters.VisimParams.Write` | python/visim/parameters.py:325-377 | `write` puts `Emitted(attrs)` in the file, and completes exactly when the record is writable |
| `ParameterProofs.DataRoundTrip` | python/visim/parameters.py:150-178 | reading `write`'s lines 1-6 gives back the file names and columns exactly and the trimming limits as their `.1e` text reads back, and consumes 6 lines |
| `ParameterProofs.RunRoundTrip` | python/visim/parameters.py:180-208 | reading `write`'s lines 7-15 gives back the first seven debugging levels and the run attributes, and consumes 9 lines including the DSSIM filler |
| `ParameterProofs.GridRoundTrip` | python/visim/parameters.py:210-255 | reading `write`'s grid lines gives back every grid attribute, and consumes 10 lines including the neighbourhood filler |
| `ParameterProofs.KrigingRoundTrip` | python/visim/parameters.py:257-291 | reading `write`'s kriging lines gives back radii, angles, mean, variance, `nst` and nugget, and empties the lists |
| `ParameterProofs.StructuresRoundTrip` | python/visim/parameters.py:293-308 | reading `write`'s structure lines from structure `i` on gives back the first `nst` entries of every list, in order, and ends 2 lines per structure further on |
| `ParameterProofs.TailRoundTrip` | python/visim/parameters.py:310-323 | reading `write`'s tail lines gives back the six tail attributes |
| `ParameterProofs.ReadShown` | python/visim/parameters.py:182 | the debugging levels written with `str` read back as the same levels |
| `ParameterProofs.StructureWords` | python/visim/parameters.py:295-307 | the two lines written for structure `i` lead with exactly the eight values of that structure |
| `ParameterProofs.StructureRowsLength` | python/visim/parameters.py:371-373 | a writable record gives exactly 2 lines per remaining structure |
| `ParameterProofs.WriteLayout` | python/visim/parameters.py:335-377 | `write` emits 36 + 2·nst lines; sections start at 4, 10, 16, 19, 25 and 29, the structures at 33 and the tail at 33 + 2·nst |
| `ParameterProofs.PreambleFixed` | python/visim/parameters.py:353-365 | the DSSIM and neighbourhood fillers sit on lines 16-18 and 25-28 of the file, the lines `read` skips |
| `ParameterProofs.WriteHead` | python/visim/parameters.py:335-338 | the written file starts with the three banner lines and the marker line |
| `ParameterProofs.WriteStart` | python/visim/parameters.py:143-148 | reading a written file starts on its fifth line, just after the marker |
| `ParameterProofs.FixedRoundTrip` | python/visim/parameters.py:150-281 | the four fixed phases read `write`'s lines back phase by phase, ending at line 33 |
| `ParameterProofs.PhasesRoundTrip` | python/visim/parameters.py:150-323 | every phase of `read` on a laid-out file returns the written values and hands the next phase the right line |
| `ParameterProofs.ReadLaidOut` | python/visim/parameters.py:128-323 | any file laid out as `write` lays it out reads back as the recovered record and is consumed to its end |
| `ParameterProofs.WriteThenRead` | python/visim/parameters.py:325-377 | for a record whose file names are single words, whose `idbg` has at least seven levels and whose reals written with `str` are float values, reading what `write` emits gives the record back, whatever the object held before: limits as their `.1e` text reads back, seven levels, `nst` structures, everything else exact |
| `ParameterReads.ScanToMarker` | python/visim/parameters.py:144-148 | scanning from inside a marker-free preamble stops just after the marker line that follows it |
| `ParameterReads.StartAfterFirstMarker` | python/visim/parameters.py:143-148 | parsing starts on the line right after the first line containing the marker |
| `ParameterReads.PreambleIgnored` | python/visim/parameters.py:143-151 | lines before the marker play no part: other marker-free lines of the same count, and another marker line, give the same result |
| `ParameterReads.NoMarkerFails` | python/visim/parameters.py:143-151 | without a marker the cursor is at the end of the file, and `read` fails on the first field with nothing changed |
| `ParameterReads.DecodeSame` | python/visim/parameters.py:150-323 | `read` looks only at the lines from its starting line on: files that agree from there read alike |
| `ParameterReads.DataSame` | python/visim/parameters.py:150-178 | lines 1-6 read alike in files that agree from the cursor on |
| `ParameterReads.StructuresSame` | python/visim/parameters.py:293-308 | the structure loop reads alike in files that agree from the cursor on |
| `ParameterReads.DataAdvance` | python/visim/parameters.py:150-178 | lines 1-6 consume exactly six lines, all present |
| `ParameterReads.RunAdvance` | python/visim/parameters.py:180-208 | lines 7-15 move the cursor nine lines, and only the first six must exist, because the three DSSIM lines are skipped unread |
| `ParameterReads.RunLevels` | python/visim/parameters.py:180-183 | `idbg` is the values of at most the first seven words of line 7; further words are ignored |
| `ParameterReads.GridAdvance` | python/visim/parameters.py:210-255 | lines 16-25 move the cursor ten lines, and only the first six must exist, because the four neighbourhood lines are skipped unread; `idbg` is left alone |
| `ParameterReads.KrigingAdvance` | python/visim/parameters.py:257-291 | lines 26-29 consume four lines, take `nst` from the first word of line 29, and leave all eight lists empty |
| `ParameterReads.NextAdvance` | python/visim/parameters.py:294-308 | one structure consumes two lines and appends exactly one entry to each of the eight lists |
| `ParameterReads.NextReads` | python/visim/parameters.py:294-308 | the appended entries are the structure that its two lines describe |
| `ParameterReads.StructuresMove` | python/visim/parameters.py:293-308 | the loop moves the cursor 2 lines per structure and changes nothing but the eight lists, which it only extends |
| `ParameterReads.StructuresLengths` | python/visim/parameters.py:283-308 | the loop adds exactly `nst` entries to each list |
| `ParameterReads.StructureReadAt` | python/visim/parameters.py:293-308 | entry `m + s` of the lists is the structure read from lines `idx + 2s` and `idx + 2s + 1`, in file order |
| `ParameterReads.TailAdvance` | python/visim/parameters.py:310-323 | the tail consumes three lines and sets the six tail attributes and nothing else |
| `ParameterReads.AfterKrigingReads` | python/visim/parameters.py:283-323 | after line 29, a successful read holds `nst` entries per list, each read from its two lines in order, and ends 2·nst + 3 lines on |
| `ParameterReads.ReadConsumes` | python/visim/parameters.py:150-323 | a successful `read` consumes exactly 32 + 2·nst lines after the marker. `nst` comes from line 29, each list has exactly `nst` entries, entry `s` is read from lines 30 + 2s and 31 + 2s, and `idbg` comes from at most the first seven words of line 7 |
| `ParameterReads.NextStopped` | python/visim/parameters.py:294-307 | a structure that fails part-way has appended to some of the lists and changed nothing else |
| `ParameterReads.StructuresStopped` | python/visim/parameters.py:293-308 | a structure loop that fails has only extended the lists |
| `ParameterReads.TailStopped` | python/visim/parameters.py:310-323 | a tail that fails has changed only tail attributes |
| `ParameterReads.AfterKrigingStops` | python/visim/parameters.py:293-323 | fewer than 2·nst + 3 lines after line 29 make the read fail, with the record as line 29 left it except for extended lists and tail attributes |
| `ParameterReads.FixedAdvance` | python/visim/parameters.py:150-291 | the fixed part reads 29 lines after the marker and ends with empty lists |
| `ParameterReads.ShortFileStops` | python/visim/parameters.py:293-323 | `read` is not atomic. A file shorter than the marker line plus 32 + 2·nst lines makes it fail, and the object keeps everything lines 1-29 set, plus whatever structure entries and tail attributes were read before the failure |
| `GeoEas.NameLines` | python/visim/data.py:41-43 | there is exactly one name per declared variable, none for a negative count |
| `GeoEas.ParseEas` | python/visim/data.py:33-60 | on success there are `n_vars` names, `n_vars` is the integer on line 2, and the rows make a rectangular array |
| `GeoEas.ReadEas` | python/visim/data.py:33-60 | the header and the two loops compute `ParseEas` |
| `GeoEas.ReadNames` | python/visim/data.py:41-43 | the name loop collects the stripped name lines |
| `GeoEas.ReadRows` | python/visim/data.py:46-51 | the data loop computes the rows of `DataRows`, or its first error |
| `GeoEas.DataRowsAppend` | python/visim/data.py:46-51 | rows come out in file order: the rows of `a + b` are those of `a`, then those of `b` |
| `GeoEas.BlankLineSkipped` | python/visim/data.py:47-49 | a blank line anywhere in the data adds no row |
| `GeoEas.LineGivesRow` | python/visim/data.py:48-51 | a non-blank line adds exactly one row, its words as numbers; it succeeds exactly when `float` accepts every word, and otherwise fails with `BadNumber` of the first word `float` rejects |
| `GeoEas.Points` | python/visim/data.py:88-89 | a 1-D array becomes one single-value row per entry; a 2-D array is its rows |
| `GeoEas.DefaultNames` | python/visim/data.py:96-97 | the default names are `var1` to `varN`, one per column |
| `GeoEas.FixedWords` | python/visim/data.py:113 | each value is written as its `.10f` text, in order |
| `GeoEas.DataLines` | python/visim/data.py:112-113 | `write_eas` writes one data line per row |
| `GeoEas.WriteEas` | python/visim/data.py:63-113 | the writer's loops emit the title (default `Data`), the column count, the names (default `var1..varN`) and one line per row |
| `GeoEas.ReadDataLines` | python/visim/data.py:46-51 | written data lines read back as the rows, each value as its `.10f` text reads back; zero-width rows read back as no rows |
| `GeoEas.ReadHeader` | python/visim/data.py:35-43 | a title line, the count line and name lines with no surrounding whitespace read back as written |
| `GeoEas.EasRoundTrip` | python/visim/data.py:100-113 | reading back a written table gives the title, the column count, the names and the rows, each value as its `.10f` text reads back, when the title and names are single lines with no surrounding whitespace |
| `GeoEas.ConditioningData` | python/visim/data.py:142-153 | `read_conditioning_data` from start to finish: an error of `read_eas` is passed on; otherwise the result is the column view of the rows (see `PointsOf`, `PointsRoundTrip`): it fails with `NoColumns` without rows and `TooFewColumns` under 4 columns, and otherwise gives columns 0-3 and the row count |
| `GeoEas.PointsOf` | python/visim/data.py:145-153 | the view fails exactly when there are no rows or fewer than 4 columns; otherwise x, y, z and value are columns 0-3 and `n_points` is the row count |
| `GeoEas.PointsRoundTrip` | python/visim/data.py:142-153 | four-column points written by `write_eas` come back from `read_conditioning_data` column by column, each value as its `.10f` text reads back |
| `Numerals.SoundMet` | python/visim/parameters.py:175-177 | the assumptions on `int`, `float` and `str` are not contradictory: one set of conversions meets them all |
| `VisimOutput.PlainMet` | python/visim/output.py:45-65 | the output reader's extra assumptions on `str` can be met together with the others |
| `Numerals.ParseFloats` | python/visim/data.py:50 | succeeds exactly when `float` accepts every word, giving each word's `float` in order; otherwise reports the first word `float` rejects |
| `VisimOutput.IntOf` | python/visim/output.py:45 | `int(word)` succeeds exactly when `int` accepts the word |
| `VisimOutput.AfterColon` | python/visim/output.py:45 | the text after the colon exists exactly when the line has a colon |
| `VisimOutput.ParseExtents` | python/visim/output.py:49-52 | fewer than three `x`-separated pieces fail; on success `nx`, `ny` and `nz` are the `int` of the first three pieces, stripped; and when all three pieces are integers the parse succeeds |
| `VisimOutput.Arrange` | python/visim/output.py:69-79 | one realization succeeds exactly when the count is `n_nodes` and stays 1-D; otherwise the count must be `n_real * n_nodes` and there is one row per realization |
| `VisimOutput.ParseOutput` | python/visim/output.py:39-88 | a count line without a colon fails; on success `n_nodes = nx*ny*nz` and the data is the arranged body values |
| `VisimOutput.Assemble` | python/visim/output.py:54-79 | the result exists exactly when the count check passes |
| `VisimOutput.ReadVisimOutput` | python/visim/output.py:39-88 | the header, the value loop and the count check compute `ParseOutput` |
| `VisimOutput.ReadValues` | python/visim/output.py:57-65 | the loop keeps, in order, the value of each line that is non-blank, not a `*` line and numeric |
| `VisimOutput.BodyValuesAppend` | python/visim/output.py:58-65 | values come out in file order |
| `VisimOutput.SkippedLineInvisible` | python/visim/output.py:60-65 | a blank, `*` or non-numeric line anywhere adds no value |
| `VisimOutput.StackedEntry` | python/visim/output.py:75-79 | with several realizations, realization `r` node `j` is value `r*n_nodes + j`; realizations are not interleaved |
| `VisimOutput.OutputRoundTrip` | python/visim/output.py:39-88 | a file laid out as the simulation writes it (single-line header, float values) reads back with its count, extents and values, and fails exactly when the count check fails |
| `VisimOutput.FlatInBox` | python/visim/output.py:151-152 | every node of the box has a flat position `i + nx*j + nx*ny*k` inside the list |
| `VisimOutput.CoordsFlat` | python/visim/output.py:175 | every flat position names a node of the box whose position it is |
| `VisimOutput.FlatCoords` | python/visim/output.py:175 | a node's flat position leads back to that node, so the map is a bijection |
| `VisimOutput.Shape` | python/visim/output.py:175 | numpy's reshape keeps the size and the given non-negative extents; with none negative it succeeds exactly when `nx*ny*nz` is the length; with exactly one negative (any negative value, not only -1) it succeeds exactly when the other two have a positive product dividing the length; with two or more negative it fails |
| `VisimOutput.ReshapeToGrid` | python/visim/output.py:147-175 | the reshape succeeds exactly when `Shape` settles the extents (for non-negative extents, when the length is `nx*ny*nz`) and gives a grid of those extents holding the values in column-major order |
| `VisimOutput.GridAt` | python/visim/output.py:151-152 | `grid[i][j][k] == data[i + nx*j + nx*ny*k]`: x varies fastest |
| `VisimOutput.GridCovers` | python/visim/output.py:175 | every value of the list lands on the grid |
| `VisimOutput.SingleFitsGrid` | python/visim/output.py:70-73 | a single-realization result is 1-D with exactly the length `reshape_to_grid` needs for its own extents |
| `VisimOutput.ParseEstimation` | python/visim/output.py:117-144 | `mean` and `variance` both have `n_nodes` entries; a bad count line fails |
| `VisimOutput.ReadEstimationOutput` | python/visim/output.py:117-144 | the header, the name loop and the pair loop compute `ParseEstimation` |
| `VisimOutput.PairsStep` | python/visim/output.py:129-135 | a row with two numbers or more adds its first as a mean and its second as a variance; a shorter row adds nothing |
| `VisimOutput.WidePairs` | python/visim/output.py:133-135 | when every row has two numbers, there is one pair per row, in order |
| `VisimOutput.EstimationAgreesWithEas` | python/visim/output.py:119-135 | the estimation reader skips the header as `read_eas` does and takes its pairs from the rows `read_eas` reads |
| `VisimOutput.EstimationRoundTrip` | python/visim/output.py:129-141 | a mean and a variance written as the first two columns come back as their `.10f` texts read back, one pair per row |
| `Text.Split` | python/visim/parameters.py:151 | `str.split()` yields only non-empty words without whitespace |
| `Text.Strip` | python/visim/data.py:35 | `strip()` is empty exactly for all-whitespace text, and otherwise starts and ends with a non-space |
| `Text.SplitOn` | python/visim/output.py:45 | `split(':')` gives at least one piece, none containing the separator |
| `Text.SplitOnFindsSeparator` | python/visim/output.py:45 | there is a second piece exactly when the separator occurs |
| `Text.JoinSplitOn` | python/visim/output.py:49 | joining the pieces with the separator gives back the text |
| `Text.SplitJoin` | python/visim/parameters.py:347 | words joined by single spaces split back into the same words |
| `Text.LineWords` | python/visim/parameters.py:341 | a written line leads with its fields; the comment after them never changes them |

## Left out

- `python/visim/runner.py` is not part of this model. It covers subprocess
  launch, stream capture, timing, executable lookup, batches and the stdout
  path heuristic.
- `get_statistics`, `__repr__`, `python/visim/__init__.py`, `python/setup.py`
  and the example scripts are not part of this model.
- File opening, reading and writing are not modelled. Files are sequences of
  lines, and `readlines()` terminators are dropped, because `split()` and
  `strip()` ignore them.
- Python's numeric text conversions are not modelled. They are abstract, and
  the round trips assume `Numerals.Sound`. Which reals are float values
  (`isFloat`) is abstract too, so IEEE double rounding is not modelled.
- Floating point is modelled as real numbers, with no NaN and no infinities.
- Error messages are not modelled; only the error kind is kept.
- `ParameterReads.PreambleIgnored`: only proved for replacement preambles of
  the same length. `ParameterReads.DecodeSame` covers any change confined to
  the lines before the starting line.
- `ParameterReads.ShortFileStops`: stated for files whose 29 fixed lines read
  successfully. A failure inside those lines is what `Parameters.Decode`
  returns, with the partial record.
- `VisimOutput.ReshapeToGrid`: takes a 1-D list only. Reshaping a stacked
  multi-realization array is not modelled.
- `GeoEas.ParseEas`: a numpy array built from rows of different lengths is
  modelled as an error, as current numpy raises.
- `Parameters.VisimParams.Read` stores the raw lines in `rawLines` (`_lines`).
  Nothing reads them back.
