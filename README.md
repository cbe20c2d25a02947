# Vivado constraints generator

A Dafny model of `fpga_board.generate_vivado_io` in `fpga/fpgaboard.py`. The
generator takes a table that assigns I/O signal names to connector pins, with
the columns `io_name, prodigy_connector, pin_no, io_voltage`. It also takes a
two-level connector map, connector → pin number → `(fpga_pin, bank, desc)`. It
produces the text of a Vivado constraints file. That text is two header
entries, then one block of lines per table record, joined with newlines:

- a record both of whose keys are in the map gives a comment line, a
  `PACKAGE_PIN` directive, an `IOSTANDARD` directive and a blank line;
- a record that does not resolve gives an `# ERROR:` comment and a blank line.

The model splits into four modules:

- `FpgaBoard` (`fpgaboard.dfy`) holds the data model (`IoMapping`, `PinInfo`,
  `ConnectorMap`). It holds the pure specification of the output (`ParseRows`,
  `Block`, `Blocks`, `Document`, `VivadoConstraints`). It holds the generator
  itself as imperative code with the source's two append loops
  (`GenerateVivadoIo`, `ParseCsvRows`, `EmitConstraints`, `AppendBlock`), which
  is proved equal to that specification. It ends with the properties of the
  output and worked examples.
- `Text` (`text.dfy`) has the string operations the generator uses:
  - `Join` is `sep.join`;
  - `RemoveChar` is `str.replace(c, '')`;
  - `Split` is `str.split`, a reference reading of `Join` that is proved to
    undo it.
- `VivadoText` (`vivado_text.dfy`) has the fixed header text and the facts that
  no literal fragment contains a newline.
- `Seqs` (`seqs.dfy`) has generic sequence facts used by the proofs.

Two places where the model departs from the text of the source:

- **The if/else sits inside the loop.** In `fpga/fpgaboard.py` the `if`/`else`
  that emits a block (lines 45-60) is indented at the level of the
  `for mapping in io_mappings` loop header (line 38), which puts it after the
  loop. The docstring describes a constraints file built from the CSV mapping
  data, and lines 39-42 set per-record variables that only an in-loop
  `if`/`else` would use. So the model runs the `if`/`else` once per record,
  inside the loop.
- **Every `V` is removed.** The voltage is turned into an I/O standard by
  `io_voltage.replace('V', '')`, which removes every `V` in the string. A
  looser reading would strip only a trailing unit. The model follows the code:
  `Text.RemoveChar` drops every occurrence.

## Model

| member | source | states |
|---|---|---|
| FpgaBoard.ParseRows | fpga/fpgaboard.py:21-31 | the records of the table, never more than there are rows |
| FpgaBoard.ParseRowsAppend | fpga/fpgaboard.py:23-31 | parsing is row by row: the records of a concatenated table are those of each part, in order |
| FpgaBoard.RowContribution | fpga/fpgaboard.py:24-25 | wherever a row stands, it adds nothing if it has fewer than four fields, and otherwise exactly the record of its first four fields (`row[:4]`), with later fields ignored |
| FpgaBoard.SourceRows | fpga/fpgaboard.py:23-25 | one row index per record; each index is in range and points at a row of at least four fields |
| FpgaBoard.SourceRowsRecords | fpga/fpgaboard.py:25-31 | record `k` holds the first four fields of its source row, in the order io_name, connector, pin_no, io_voltage |
| FpgaBoard.SourceRowsAscending | fpga/fpgaboard.py:23-26 | records keep the order of the rows they come from |
| FpgaBoard.SourceRowsComplete | fpga/fpgaboard.py:23-26 | every row of at least four fields yields a record, so none is skipped |
| FpgaBoard.ParseCsvRows | fpga/fpgaboard.py:21-31 | the first append loop builds exactly the records `ParseRows` specifies |
| FpgaBoard.Block | fpga/fpgaboard.py:45-60 | a record's block has four lines when its connector and pin number are both keys of the map and two otherwise, and always ends with a blank line |
| FpgaBoard.ResolvedBlock | fpga/fpgaboard.py:45-57 | a resolved record gives its comment, `PACKAGE_PIN` and `IOSTANDARD` lines built from elements 0, 1 and 2 of the pin information, then a blank line; the I/O standard after `LVCMOS` holds no `V` and keeps every other voltage character as often as it occurs |
| FpgaBoard.UnresolvedBlock | fpga/fpgaboard.py:58-60 | a record that does not resolve gives only the `# ERROR: Could not find mapping for …` line and a blank line, so no `set_property` directive is emitted for it |
| FpgaBoard.AppendBlock | fpga/fpgaboard.py:45-60 | the loop body appends exactly the record's block to the lines so far |
| FpgaBoard.EmitConstraints | fpga/fpgaboard.py:34-60 | the second loop yields the two header entries followed by every record's block in record order |
| FpgaBoard.BlocksAppend | fpga/fpgaboard.py:38-60 | the blocks of concatenated record lists are the blocks of each list, concatenated |
| FpgaBoard.BlockOrder | fpga/fpgaboard.py:38-60 | record `k`'s block sits exactly between the blocks of the records before it and those after it |
| FpgaBoard.ResolvedCount | fpga/fpgaboard.py:45 | the number of records that resolve is at most the number of records |
| FpgaBoard.LineCount | fpga/fpgaboard.py:34-60 | the line list has 2 header entries plus 4 per resolved record and 2 per unresolved record |
| FpgaBoard.GenerateVivadoIo | fpga/fpgaboard.py:20-62 | the generator returns the specified constraints text: header, blocks in record order, newline-joined |
| FpgaBoard.HeaderPrefix | fpga/fpgaboard.py:35-36 | for every input, the text begins with the title line, a newline and the source line with its own newline |
| FpgaBoard.OutputLines | fpga/fpgaboard.py:35-62 | when no field contains a newline, reading the text back line by line gives the title, the source line, a blank line, and then each record's block lines in order |
| FpgaBoard.VoltageExample | fpga/fpgaboard.py:54 | `3.3V` gives the I/O standard `LVCMOS3.3` |
| FpgaBoard.ClockInExample | fpga/fpgaboard.py:52-57 | the row `CLK_IN,J1,A1,3.3V` against `J1.A1 = (AB12, 34, Clock Input)` gives a six-line list whose directives bind `CLK_IN` to pin `AB12` and to `LVCMOS3.3` |
| FpgaBoard.MissingConnectorExample | fpga/fpgaboard.py:24 | a two-field row is dropped, and a record on an unknown connector `J2` gives the header, then `# ERROR: Could not find mapping for RST on J2.B4`, then a blank line |
| Text.Join | fpga/fpgaboard.py:62 | joining no parts gives the empty text; a join of one part or more starts with the first part, and a join of two parts or more starts with the first part followed by the separator |
| Text.Split | fpga/fpgaboard.py:62 | always one more piece than there are separators, and no piece contains the separator |
| Text.SplitJoin | fpga/fpgaboard.py:62 | when no part contains the separator, splitting the join gives back the parts, so the newline join loses no line |
| Text.JoinEmbeddedSep | fpga/fpgaboard.py:36 | an entry ending in the separator joins as if it were followed by an empty entry, which is why the header is followed by a blank line |
| Text.RemoveChar | fpga/fpgaboard.py:54 | the result holds exactly the characters of the input other than `c`, and is no longer than the input |
| Text.RemoveCharCounts | fpga/fpgaboard.py:54 | each character other than `c` is kept as often as it occurs, and `c` disappears |
| Text.RemoveCharAppend | fpga/fpgaboard.py:54 | removal distributes over concatenation, so the kept characters keep their order |
| Text.RemoveCharAbsent | fpga/fpgaboard.py:54 | a voltage without `V` is used unchanged |
| VivadoText.HeaderSingleLine | fpga/fpgaboard.py:35-36 | neither header text holds a newline of its own, apart from the one appended to the source line |

## Left out

- `synopsys/verdi_vcs.py` is not part of this model. It launches the VCS and Verdi simulators as external processes, prints errors, exits and parses command-line arguments. None of that is constraints generation.
- `fpga_board.__init__` only stores its `model` argument and is not modelled.
- CSV tokenising is not modelled. The table arrives already split into fields, as `csv.reader` would split it, so quoting, escaping and line-ending rules are left out.
- Missing imports are not modelled. The source reads `io.StringIO` without importing `io`, and its indentation as written would not load. The model describes the function as evidently intended, described above.
- The single `if` after the loop that the literal indentation implies is not modelled. As written it would emit one block, for the last record only, and fail on an empty table. The model runs the `if`/`else` per record instead.
- FpgaBoard.OutputLines: requires that no field and no pin information contains a newline. Otherwise one entry spans several lines of the file and reading lines back cannot recover the blocks.
- FpgaBoard.ClockInExample: states the line count and the two directive lines, not the full text of the comment line.
- Python's `str.split` is used only as the reference reading for `Text.Split`. The generator itself never splits text.
- The generator has no state between calls, so calling it twice with the same inputs gives the same text. This follows from its being modelled as a function and is not stated as a lemma.
