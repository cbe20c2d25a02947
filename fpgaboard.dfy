/**
 The Vivado constraints generator of `fpga_board.generate_vivado_io`: a table of
 signal-to-connector assignments is joined against a connector map and rendered
 as the lines of a Vivado constraints file.

 The rows arrive already split into fields (the CSV tokeniser is not modelled).

 In the Python text the `if`/`else` that emits a block is indented outside the
 `for mapping in io_mappings` loop, which would leave one block, for the last
 record only. This model follows the evident intent, suggested by the docstring,
 which describes a constraints file built from the mapping data, and by the
 per-record variables the loop sets, which only an in-loop `if`/`else` would use:
 the `if`/`else` runs inside the loop, once per record.
 */
module FpgaBoard {
  import opened Text
  import opened VivadoText
  import opened Seqs

  /** One parsed row: io_name, prodigy_connector, pin_no, io_voltage. */
  datatype IoMapping = IoMapping(ioName: string, connector: string, pinNo: string, ioVoltage: string)

  /** What a connector position maps to: the elements 0, 1 and 2 of the
      source's tuple (FPGA package pin, bank, pin description). */
  datatype PinInfo = PinInfo(fpgaPin: string, bank: string, desc: string)

  /** connector -> pin_no -> pin information. */
  type ConnectorMap = map<string, map<string, PinInfo>>

  // ---------------------------------------------------------------------------
  // Parsing the rows

  /** The record a row of at least four fields stands for; later fields are ignored. */
  function RowRecord(row: seq<string>): IoMapping
    requires |row| >= 4
  {
    IoMapping(row[0], row[1], row[2], row[3])
  }

  /** The records of the table, in row order; rows of fewer than four fields are dropped. */
  function ParseRows(rows: seq<seq<string>>): (records: seq<IoMapping>)
    ensures |records| <= |rows|
  {
    if |rows| == 0 then []
    else (if |rows[0]| >= 4 then [RowRecord(rows[0])] else []) + ParseRows(rows[1..])
  }

  /** Parsing a concatenation of tables parses each part and concatenates. */
  lemma {:induction false} ParseRowsAppend(a: seq<seq<string>>, b: seq<seq<string>>)
    ensures ParseRows(a + b) == ParseRows(a) + ParseRows(b)
    decreases |a|
  {
    if |a| == 0 {
      ConcatEmpty(a, b);
      ConcatEmpty(ParseRows(a), ParseRows(b));
    } else {
      var head := if |a[0]| >= 4 then [RowRecord(a[0])] else [];
      ConcatHeadTail(a, b);
      ParseRowsAppend(a[1..], b);
      assert ParseRows(a + b) == head + ParseRows(a[1..] + b);
      ConcatAssoc(head, ParseRows(a[1..]), ParseRows(b));
    }
  }

  /** What one row contributes wherever it stands: nothing if it has fewer than
      four fields, otherwise exactly the record of its first four fields. */
  lemma RowContribution(before: seq<seq<string>>, row: seq<string>, after: seq<seq<string>>)
    ensures |row| < 4 ==> ParseRows(before + [row] + after) == ParseRows(before) + ParseRows(after)
    ensures |row| >= 4 ==>
      ParseRows(before + [row] + after) == ParseRows(before) + [RowRecord(row[..4])] + ParseRows(after)
  {
    ParseRowsAppend(before + [row], after);
    ParseRowsAppend(before, [row]);
    SingletonTail(row);
    var head := if |row| >= 4 then [RowRecord(row)] else [];
    assert ParseRows([row]) == head + [];
    ConcatNil(head);
    if |row| < 4 {
      ConcatNil(ParseRows(before));
    } else {
      assert RowRecord(row[..4]) == RowRecord(row);
    }
  }

  /** Where each record comes from: entry `k` is the index of the row that
      record `k` was built from. Only rows of at least four fields are used. */
  ghost function SourceRows(rows: seq<seq<string>>): (source: seq<nat>)
    ensures |source| == |ParseRows(rows)|
    ensures forall k :: 0 <= k < |source| ==> source[k] < |rows| && |rows[source[k]]| >= 4
    decreases |rows|
  {
    if |rows| == 0 then []
    else (if |rows[0]| >= 4 then [0] else []) + Shift(SourceRows(rows[1..]))
  }

  /** Record `k` is the record of row `SourceRows(rows)[k]`. */
  lemma {:induction false} SourceRowsRecords(rows: seq<seq<string>>)
    ensures forall k :: 0 <= k < |ParseRows(rows)| ==>
      ParseRows(rows)[k] == RowRecord(rows[SourceRows(rows)[k]])
    decreases |rows|
  {
    if |rows| > 0 {
      var rest := rows[1..];
      SourceRowsRecords(rest);
      var records, tailRecords := ParseRows(rows), ParseRows(rest);
      var source, tail := SourceRows(rows), SourceRows(rest);
      var d := if |rows[0]| >= 4 then 1 else 0;
      forall k | 0 <= k < |records|
        ensures records[k] == RowRecord(rows[source[k]])
      {
        if k >= d {
          assert records[k] == tailRecords[k - d];
          assert source[k] == tail[k - d] + 1;
          assert rows[source[k]] == rest[tail[k - d]];
        }
      }
    }
  }

  /** Strictly ascending indices. */
  predicate Ascending(indices: seq<nat>) {
    forall k, l :: 0 <= k < l < |indices| ==> indices[k] < indices[l]
  }

  /** Records keep the relative order of the rows they come from. */
  lemma {:induction false} SourceRowsAscending(rows: seq<seq<string>>)
    ensures Ascending(SourceRows(rows))
    decreases |rows|
  {
    if |rows| > 0 {
      var tail := SourceRows(rows[1..]);
      SourceRowsAscending(rows[1..]);
      ShiftAscending(tail);
    }
  }

  lemma ShiftAscending(indices: seq<nat>)
    requires Ascending(indices)
    ensures Ascending(Shift(indices)) && Ascending([0] + Shift(indices))
  {
    var shifted := Shift(indices);
    assert Ascending(shifted);
    forall k, l | 0 <= k < l < |[0] + shifted|
      ensures ([0] + shifted)[k] < ([0] + shifted)[l]
    {
      assert ([0] + shifted)[l] == shifted[l - 1];
      if k > 0 {
        assert ([0] + shifted)[k] == shifted[k - 1];
      }
    }
  }

  /** Every row of at least four fields yields a record. */
  lemma {:induction false} SourceRowsComplete(rows: seq<seq<string>>)
    ensures forall i :: 0 <= i < |rows| && |rows[i]| >= 4 ==> i in SourceRows(rows)
    decreases |rows|
  {
    if |rows| > 0 {
      var rest := rows[1..];
      SourceRowsComplete(rest);
      var tail := SourceRows(rest);
      var head: seq<nat> := if |rows[0]| >= 4 then [0] else [];
      var shifted := Shift(tail);
      assert SourceRows(rows) == head + shifted;
      forall i | 0 <= i < |rows| && |rows[i]| >= 4
        ensures i in head + shifted
      {
        if i > 0 {
          assert |rest[i - 1]| >= 4;
          var k :| 0 <= k < |tail| && tail[k] == i - 1;
          assert shifted[k] == i;
          ConcatIndexRight(head, shifted, k);
        } else {
          assert head == [0];
        }
      }
    }
  }

  /** Every index moved one row down. */
  ghost function Shift(indices: seq<nat>): (shifted: seq<nat>)
    ensures |shifted| == |indices|
    ensures forall k :: 0 <= k < |indices| ==> shifted[k] == indices[k] + 1
  {
    seq(|indices|, k requires 0 <= k < |indices| => indices[k] + 1)
  }

  // ---------------------------------------------------------------------------
  // Looking a record up and rendering its block

  /** The record's connector and pin number are both keys of the connector map. */
  predicate Resolves(rec: IoMapping, connectorMappings: ConnectorMap) {
    rec.connector in connectorMappings && rec.pinNo in connectorMappings[rec.connector]
  }

  /** The two entries every constraints file starts with. */
  function Header(): seq<string> {
    [HeaderTitle, HeaderSource]
  }

  /** `# {io_name} - {connector}.{pin_no} - {desc} ({bank})` */
  function CommentLine(rec: IoMapping, info: PinInfo): string {
    "# " + rec.ioName + " - " + rec.connector + "." + rec.pinNo + " - " + info.desc + " (" + info.bank + ")"
  }

  /** `set_property PACKAGE_PIN {fpga_pin} [get_ports {io_name}]` */
  function PackagePinLine(rec: IoMapping, info: PinInfo): string {
    "set_property PACKAGE_PIN " + info.fpgaPin + " [get_ports " + rec.ioName + "]"
  }

  /** The I/O standard: `LVCMOS` followed by the voltage with every `V` removed. */
  function IoStandard(ioVoltage: string): string {
    "LVCMOS" + RemoveChar(ioVoltage, 'V')
  }

  /** `set_property IOSTANDARD LVCMOS{voltage} [get_ports {io_name}]` */
  function IoStandardLine(rec: IoMapping): string {
    "set_property IOSTANDARD " + IoStandard(rec.ioVoltage) + " [get_ports " + rec.ioName + "]"
  }

  /** `# ERROR: Could not find mapping for {io_name} on {connector}.{pin_no}` */
  function ErrorLine(rec: IoMapping): string {
    "# ERROR: Could not find mapping for " + rec.ioName + " on " + rec.connector + "." + rec.pinNo
  }

  /** The lines one record contributes: a resolved block of four lines, or an
      error block of two; either ends with a blank separator line. */
  function Block(rec: IoMapping, connectorMappings: ConnectorMap): (lines: seq<string>)
    ensures |lines| == (if Resolves(rec, connectorMappings) then 4 else 2)
    ensures lines[|lines| - 1] == ""
  {
    if Resolves(rec, connectorMappings) then
      var info := connectorMappings[rec.connector][rec.pinNo];
      [CommentLine(rec, info), PackagePinLine(rec, info), IoStandardLine(rec), ""]
    else
      [ErrorLine(rec), ""]
  }

  /** The blocks of all records, in record order. */
  function Blocks(records: seq<IoMapping>, connectorMappings: ConnectorMap): seq<string> {
    if |records| == 0 then []
    else Block(records[0], connectorMappings) + Blocks(records[1..], connectorMappings)
  }

  /** The list of lines the generator joins: the header, then one block per record. */
  function Document(records: seq<IoMapping>, connectorMappings: ConnectorMap): seq<string> {
    Header() + Blocks(records, connectorMappings)
  }

  /** The text of the constraints file for a table and a connector map. */
  function VivadoConstraints(rows: seq<seq<string>>, connectorMappings: ConnectorMap): string {
    Join(Document(ParseRows(rows), connectorMappings), "\n")
  }

  // ---------------------------------------------------------------------------
  // The generator itself

  /** Builds the records and then the lines with two append loops, as the source
      does, and joins the lines with newlines. */
  method GenerateVivadoIo(csvRows: seq<seq<string>>, connectorMappings: ConnectorMap) returns (tcl: string)
    ensures tcl == VivadoConstraints(csvRows, connectorMappings)
  {
    var ioMappings := ParseCsvRows(csvRows);
    var tclContent := EmitConstraints(ioMappings, connectorMappings);
    tcl := Join(tclContent, "\n");
  }

  /** The first loop: keep a record for every row of at least four fields. */
  method ParseCsvRows(csvRows: seq<seq<string>>) returns (ioMappings: seq<IoMapping>)
    ensures ioMappings == ParseRows(csvRows)
  {
    ioMappings := [];
    for i := 0 to |csvRows|
      invariant ioMappings == ParseRows(csvRows[..i])
    {
      var row := csvRows[i];
      if |row| >= 4 {
        ioMappings := ioMappings + [IoMapping(row[0], row[1], row[2], row[3])];
      }
      ParseRowsAppend(csvRows[..i], [row]);
      TakeOneMore(csvRows, i);
    }
    TakeAll(csvRows);
  }

  /** The second loop: the header, then the block of each record in turn. */
  method EmitConstraints(ioMappings: seq<IoMapping>, connectorMappings: ConnectorMap) returns (tclContent: seq<string>)
    ensures tclContent == Document(ioMappings, connectorMappings)
  {
    tclContent := [HeaderTitle, HeaderSource];
    for j := 0 to |ioMappings|
      invariant tclContent == Header() + Blocks(ioMappings[..j], connectorMappings)
    {
      var mapping := ioMappings[j];
      ghost var done := Blocks(ioMappings[..j], connectorMappings);
      tclContent := AppendBlock(tclContent, mapping, connectorMappings);
      BlocksOneMore(ioMappings, j, connectorMappings);
      ConcatAssoc(Header(), done, Block(mapping, connectorMappings));
    }
    TakeAll(ioMappings);
  }

  /** The body of the second loop: look the record up and append its lines. */
  method AppendBlock(tclContent: seq<string>, mapping: IoMapping, connectorMappings: ConnectorMap)
    returns (extended: seq<string>)
    ensures extended == tclContent + Block(mapping, connectorMappings)
  {
    extended := tclContent;
    if mapping.connector in connectorMappings && mapping.pinNo in connectorMappings[mapping.connector] {
      var fpgaPinInfo := connectorMappings[mapping.connector][mapping.pinNo];
      extended := extended + [CommentLine(mapping, fpgaPinInfo)];
      extended := extended + [PackagePinLine(mapping, fpgaPinInfo)];
      extended := extended + [IoStandardLine(mapping)];
      extended := extended + [""];
    } else {
      extended := extended + [ErrorLine(mapping)];
      extended := extended + [""];
    }
  }

  // ---------------------------------------------------------------------------
  // Properties of the blocks

  /** Rendering a concatenation of record lists renders each and concatenates. */
  lemma {:induction false} BlocksAppend(a: seq<IoMapping>, b: seq<IoMapping>, connectorMappings: ConnectorMap)
    ensures Blocks(a + b, connectorMappings) == Blocks(a, connectorMappings) + Blocks(b, connectorMappings)
    decreases |a|
  {
    if |a| == 0 {
      ConcatEmpty(a, b);
    } else {
      ConcatHeadTail(a, b);
      BlocksAppend(a[1..], b, connectorMappings);
    }
  }

  lemma BlocksOneMore(records: seq<IoMapping>, j: nat, connectorMappings: ConnectorMap)
    requires j < |records|
    ensures Blocks(records[..j + 1], connectorMappings) ==
      Blocks(records[..j], connectorMappings) + Block(records[j], connectorMappings)
  {
    TakeOneMore(records, j);
    BlocksAppend(records[..j], [records[j]], connectorMappings);
    SingletonTail(records[j]);
  }

  /** Block order equals record order: record `k`'s block sits between the
      blocks of the records before it and those after it. */
  lemma BlockOrder(records: seq<IoMapping>, connectorMappings: ConnectorMap, k: nat)
    requires k < |records|
    ensures Blocks(records, connectorMappings) ==
      Blocks(records[..k], connectorMappings) + Block(records[k], connectorMappings)
      + Blocks(records[k + 1..], connectorMappings)
  {
    assert records == records[..k] + [records[k]] + records[k + 1..];
    BlocksAppend(records[..k] + [records[k]], records[k + 1..], connectorMappings);
    BlocksAppend(records[..k], [records[k]], connectorMappings);
    SingletonTail(records[k]);
  }

  /** How many records resolve against the map. */
  ghost function ResolvedCount(records: seq<IoMapping>, connectorMappings: ConnectorMap): (n: nat)
    ensures n <= |records|
  {
    if |records| == 0 then 0
    else (if Resolves(records[0], connectorMappings) then 1 else 0) + ResolvedCount(records[1..], connectorMappings)
  }

  /** The document has the two header entries plus four lines for each record
      that resolves and two for each that does not. */
  lemma {:induction false} LineCount(records: seq<IoMapping>, connectorMappings: ConnectorMap)
    ensures |Document(records, connectorMappings)| ==
      2 + 4 * ResolvedCount(records, connectorMappings)
      + 2 * (|records| - ResolvedCount(records, connectorMappings))
    decreases |records|
  {
    if |records| > 0 {
      LineCount(records[1..], connectorMappings);
    }
  }

  /** A resolved record yields its comment, its package pin, its I/O standard and
      a blank line, built from elements 0, 1 and 2 of the pin information; the
      I/O standard holds no `V`, and every other character of the voltage is kept. */
  lemma ResolvedBlock(rec: IoMapping, connectorMappings: ConnectorMap)
    requires Resolves(rec, connectorMappings)
    ensures var info := connectorMappings[rec.connector][rec.pinNo];
      Block(rec, connectorMappings) == [
        "# " + rec.ioName + " - " + rec.connector + "." + rec.pinNo + " - " + info.desc + " (" + info.bank + ")",
        "set_property PACKAGE_PIN " + info.fpgaPin + " [get_ports " + rec.ioName + "]",
        "set_property IOSTANDARD " + IoStandard(rec.ioVoltage) + " [get_ports " + rec.ioName + "]",
        ""]
    ensures 'V' !in IoStandard(rec.ioVoltage)[6..]
    ensures multiset(IoStandard(rec.ioVoltage)[6..]) == multiset(rec.ioVoltage)['V' := 0]
  {
    RemoveCharCounts(rec.ioVoltage, 'V');
    assert IoStandard(rec.ioVoltage)[6..] == RemoveChar(rec.ioVoltage, 'V');
  }

  /** A record that does not resolve yields only the error comment and a blank
      line: no line of its block is a `set_property` directive. */
  lemma UnresolvedBlock(rec: IoMapping, connectorMappings: ConnectorMap)
    requires !Resolves(rec, connectorMappings)
    ensures Block(rec, connectorMappings) ==
      ["# ERROR: Could not find mapping for " + rec.ioName + " on " + rec.connector + "." + rec.pinNo, ""]
    ensures forall line :: line in Block(rec, connectorMappings) ==> !("set_property" <= line)
  {
    var lines := Block(rec, connectorMappings);
    assert lines[0][0] == '#';
  }

  // ---------------------------------------------------------------------------
  // Properties of the generated text

  /** The text always opens with the two header lines, whatever the input. */
  lemma HeaderPrefix(rows: seq<seq<string>>, connectorMappings: ConnectorMap)
    ensures HeaderTitle + "\n" + HeaderSource <= VivadoConstraints(rows, connectorMappings)
  {
    var blocks := Blocks(ParseRows(rows), connectorMappings);
    var lines := Document(ParseRows(rows), connectorMappings);
    assert lines[1..] == [HeaderSource] + blocks;
    assert Join(lines, "\n") == HeaderTitle + "\n" + Join(lines[1..], "\n");
  }

  /** No field of the table contains a newline. */
  predicate SingleLineRows(rows: seq<seq<string>>) {
    forall i, j :: 0 <= i < |rows| && 0 <= j < |rows[i]| ==> '\n' !in rows[i][j]
  }

  /** No pin information in the map contains a newline. */
  predicate SingleLineMap(connectorMappings: ConnectorMap) {
    forall c, p :: c in connectorMappings && p in connectorMappings[c] ==>
      var info := connectorMappings[c][p];
      '\n' !in info.fpgaPin && '\n' !in info.bank && '\n' !in info.desc
  }

  predicate SingleLineRecord(rec: IoMapping) {
    '\n' !in rec.ioName && '\n' !in rec.connector && '\n' !in rec.pinNo && '\n' !in rec.ioVoltage
  }

  /** No entry of the list contains a newline. */
  predicate SingleLines(lines: seq<string>) {
    forall i :: 0 <= i < |lines| ==> '\n' !in lines[i]
  }

  lemma SingleLinesConcat(a: seq<string>, b: seq<string>)
    requires SingleLines(a) && SingleLines(b)
    ensures SingleLines(a + b)
  {
    forall i | 0 <= i < |a + b| ensures '\n' !in (a + b)[i] {
      if i >= |a| {
        assert (a + b)[i] == b[i - |a|];
      }
    }
  }

  lemma {:induction false} ParseRowsSingleLine(rows: seq<seq<string>>)
    requires SingleLineRows(rows)
    ensures forall k :: 0 <= k < |ParseRows(rows)| ==> SingleLineRecord(ParseRows(rows)[k])
    decreases |rows|
  {
    if |rows| > 0 {
      assert SingleLineRows(rows[1..]) by {
        forall i, j | 0 <= i < |rows[1..]| && 0 <= j < |rows[1..][i]|
          ensures '\n' !in rows[1..][i][j]
        {
          assert rows[1..][i] == rows[i + 1];
        }
      }
      ParseRowsSingleLine(rows[1..]);
      var head := if |rows[0]| >= 4 then [RowRecord(rows[0])] else [];
      forall k | 0 <= k < |ParseRows(rows)| ensures SingleLineRecord(ParseRows(rows)[k]) {
        if k >= |head| {
          assert ParseRows(rows)[k] == ParseRows(rows[1..])[k - |head|];
        }
      }
    }
  }

  lemma BlockSingleLine(rec: IoMapping, connectorMappings: ConnectorMap)
    requires SingleLineMap(connectorMappings) && SingleLineRecord(rec)
    ensures SingleLines(Block(rec, connectorMappings))
  {
    CommentFragmentsSingleLine();
    DirectiveFragmentsSingleLine();
    ErrorFragmentsSingleLine();
    assert '\n' !in RemoveChar(rec.ioVoltage, 'V');
  }

  lemma {:induction false} BlocksSingleLine(records: seq<IoMapping>, connectorMappings: ConnectorMap)
    requires SingleLineMap(connectorMappings)
    requires forall k :: 0 <= k < |records| ==> SingleLineRecord(records[k])
    ensures SingleLines(Blocks(records, connectorMappings))
    decreases |records|
  {
    if |records| > 0 {
      BlocksSingleLine(records[1..], connectorMappings);
      BlockSingleLine(records[0], connectorMappings);
      SingleLinesConcat(Block(records[0], connectorMappings), Blocks(records[1..], connectorMappings));
    }
  }

  /** Read back as newline-separated lines, the text is the title line, the
      source line, a blank line coming from the newline embedded in the source
      entry, and then the blocks of the records in order (provided no field
      contains a newline of its own). */
  lemma OutputLines(rows: seq<seq<string>>, connectorMappings: ConnectorMap)
    requires SingleLineRows(rows) && SingleLineMap(connectorMappings)
    ensures Split(VivadoConstraints(rows, connectorMappings), '\n') ==
      [HeaderTitle, SourceLine, ""] + Blocks(ParseRows(rows), connectorMappings)
  {
    var blocks := Blocks(ParseRows(rows), connectorMappings);
    ParseRowsSingleLine(rows);
    BlocksSingleLine(ParseRows(rows), connectorMappings);
    JoinEmbeddedSep(HeaderTitle, SourceLine, blocks, "\n");
    assert [HeaderTitle, HeaderSource] + blocks == Document(ParseRows(rows), connectorMappings);
    HeaderSingleLine();
    assert SingleLines([HeaderTitle, SourceLine, ""]);
    SingleLinesConcat([HeaderTitle, SourceLine, ""], blocks);
    SplitJoin([HeaderTitle, SourceLine, ""] + blocks, '\n');
  }

  // ---------------------------------------------------------------------------
  // Worked examples

  /** `str.replace` drops the unit: `3.3V` becomes `3.3`. */
  lemma VoltageExample()
    ensures IoStandard("3.3V") == "LVCMOS3.3"
  {
    var s := "3.3V";
    assert s[1..] == ".3V";
    assert s[1..][1..] == "3V";
    assert s[1..][1..][1..] == "V";
    assert s[1..][1..][1..][1..] == "";
  }

  /** `CLK_IN,J1,A1,3.3V` against `J1.A1 = (AB12, 34, Clock Input)` gives one
      resolved block whose directives bind `CLK_IN` to `AB12` and to `LVCMOS3.3`. */
  lemma ClockInExample()
    ensures var rows := [["CLK_IN", "J1", "A1", "3.3V"]];
      var connectorMappings := map["J1" := map["A1" := PinInfo("AB12", "34", "Clock Input")]];
      var lines := Document(ParseRows(rows), connectorMappings);
      && |lines| == 6
      && lines[3] == "set_property PACKAGE_PIN AB12 [get_ports CLK_IN]"
      && lines[4] == "set_property IOSTANDARD LVCMOS3.3 [get_ports CLK_IN]"
  {
    var rows := [["CLK_IN", "J1", "A1", "3.3V"]];
    var info := PinInfo("AB12", "34", "Clock Input");
    var connectorMappings := map["J1" := map["A1" := info]];
    var rec := IoMapping("CLK_IN", "J1", "A1", "3.3V");
    assert rows[1..] == [];
    assert ParseRows(rows) == [rec];
    assert Resolves(rec, connectorMappings);
    assert Blocks([rec], connectorMappings) == Block(rec, connectorMappings);
    ClockInPackagePin();
    ClockInIoStandard();
  }

  lemma ClockInPackagePin()
    ensures PackagePinLine(IoMapping("CLK_IN", "J1", "A1", "3.3V"), PinInfo("AB12", "34", "Clock Input"))
      == "set_property PACKAGE_PIN AB12 [get_ports CLK_IN]"
  {
  }

  lemma ClockInIoStandard()
    ensures IoStandardLine(IoMapping("CLK_IN", "J1", "A1", "3.3V"))
      == "set_property IOSTANDARD LVCMOS3.3 [get_ports CLK_IN]"
  {
    VoltageExample();
    ClockInIoStandardText();
  }

  lemma ClockInIoStandardText()
    ensures "set_property IOSTANDARD " + "LVCMOS3.3" + " [get_ports " + "CLK_IN" + "]"
      == "set_property IOSTANDARD LVCMOS3.3 [get_ports CLK_IN]"
  {
    var directive, ports := "set_property IOSTANDARD LVCMOS3.3", " [get_ports CLK_IN]";
    assert "set_property IOSTANDARD " + "LVCMOS3.3" == directive;
    assert directive + " [get_ports " + "CLK_IN" + "]" == directive + ports;
  }

  /** `RST,J2,B4,1.8V` with no `J2` connector; the short row before it is dropped. */
  lemma MissingConnectorExample()
    ensures var rows := [["X", "J1"], ["RST", "J2", "B4", "1.8V"]];
      var connectorMappings := map["J1" := map["A1" := PinInfo("AB12", "34", "Clock Input")]];
      Document(ParseRows(rows), connectorMappings) ==
        [HeaderTitle, HeaderSource, "# ERROR: Could not find mapping for RST on J2.B4", ""]
  {
    var rows := [["X", "J1"], ["RST", "J2", "B4", "1.8V"]];
    var connectorMappings := map["J1" := map["A1" := PinInfo("AB12", "34", "Clock Input")]];
    var rec := IoMapping("RST", "J2", "B4", "1.8V");
    assert rows[1..] == [["RST", "J2", "B4", "1.8V"]];
    assert rows[1..][1..] == [];
    assert ParseRows(rows) == [rec];
    assert "J2" != "J1";
    assert !Resolves(rec, connectorMappings);
    assert Blocks([rec], connectorMappings) == Block(rec, connectorMappings);
    assert ErrorLine(rec) == "# ERROR: Could not find mapping for RST on J2.B4";
  }
}
