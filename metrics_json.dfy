/**
 * The offline converter from the evaluation-metrics CSV to metrics.json: a
 * header-driven row parser, the renaming of the two sex groups, and the lookup
 * of the Overall row. Number parsing (parseFloat) is a parameter: it yields
 * None where parseFloat yields NaN.
 */
module MetricsJson {
  import opened Wrappers
  import opened Text

  /** A value stored in a row object: a string, a number, or undefined. */
  datatype Cell = Str(s: string) | Num(x: real) | Undefined

  /** One parsed row: header name to value. Key order is not modelled. */
  type Entry = map<string, Cell>

  /** parseFloat: None stands for NaN. */
  type NumberParser = string -> Option<real>

  const GroupKey := "Group"
  const OverallGroup := "Overall"

  /** The lines of the trimmed input; the first one is the header. */
  function Lines(csv: string): (r: seq<string>)
    ensures |r| >= 1
  {
    Split(Trim(csv), '\n')
  }

  /** The comma-separated, trimmed cells of the first line. */
  function Headers(csv: string): (r: seq<string>)
    ensures |r| == |Split(Lines(csv)[0], ',')|
    ensures forall j :: 0 <= j < |r| ==> r[j] == Trim(Split(Lines(csv)[0], ',')[j])
  {
    var cells := Split(Lines(csv)[0], ',');
    seq(|cells|, j requires 0 <= j < |cells| => Trim(cells[j]))
  }

  /** currentLine[j] ? currentLine[j].trim() : '' */
  function RawCell(cells: seq<string>, j: nat): (r: string)
    ensures j < |cells| ==> r == Trim(cells[j])
    ensures j >= |cells| ==> r == []
  {
    if j < |cells| && cells[j] != [] then Trim(cells[j]) else []
  }

  /** The value stored under header h for column j: a number only outside the Group column and only when it parses. */
  function CellValue(h: string, cells: seq<string>, j: nat, parse: NumberParser): Cell
  {
    var value := RawCell(cells, j);
    if h != GroupKey && parse(value).Some? then Num(parse(value).value) else Str(value)
  }

  /** The row object after the inner loop has stored the first n columns. */
  function EntryOf(headers: seq<string>, cells: seq<string>, n: nat, parse: NumberParser): Entry
    requires n <= |headers|
  {
    if n == 0 then map[]
    else EntryOf(headers, cells, n - 1, parse)[headers[n - 1] := CellValue(headers[n - 1], cells, n - 1, parse)]
  }

  /** The entry for line i + 1 of the input. */
  function Row(csv: string, parse: NumberParser, i: nat): Entry
    requires i + 1 < |Lines(csv)|
  {
    EntryOf(Headers(csv), Split(Lines(csv)[i + 1], ','), |Headers(csv)|, parse)
  }

  /** One entry per line after the first, each built from that line's cells. */
  function Rows(headers: seq<string>, lines: seq<string>, parse: NumberParser): (r: seq<Entry>)
    requires |lines| >= 1
    ensures |r| == |lines| - 1
  {
    seq(|lines| - 1, i requires 0 <= i < |lines| - 1 => EntryOf(headers, Split(lines[i + 1], ','), |headers|, parse))
  }

  /** The entries parseCSV returns, one per line after the header, in input order. */
  function ParseRows(csv: string, parse: NumberParser): (r: seq<Entry>)
    ensures |r| == |Lines(csv)| - 1
  {
    Rows(Headers(csv), Lines(csv), parse)
  }

  /** Every header is a key of every row, and nothing else is. */
  lemma {:induction false} EntryKeys(headers: seq<string>, cells: seq<string>, n: nat, parse: NumberParser)
    requires n <= |headers|
    ensures forall k :: k in EntryOf(headers, cells, n, parse) <==> k in headers[..n]
  {
    if n > 0 {
      EntryKeys(headers, cells, n - 1, parse);
      assert headers[..n] == headers[..n - 1] + [headers[n - 1]];
    }
  }

  /** The value under a header is the cell of the last column with that header. */
  lemma {:induction false} EntryLastWins(headers: seq<string>, cells: seq<string>, n: nat, j: nat, parse: NumberParser)
    requires j < n <= |headers|
    requires forall m :: j < m < n ==> headers[m] != headers[j]
    ensures headers[j] in EntryOf(headers, cells, n, parse)
    ensures EntryOf(headers, cells, n, parse)[headers[j]] == CellValue(headers[j], cells, j, parse)
  {
    var prev := EntryOf(headers, cells, n - 1, parse);
    var last := CellValue(headers[n - 1], cells, n - 1, parse);
    assert EntryOf(headers, cells, n, parse) == prev[headers[n - 1] := last];
    if j < n - 1 {
      EntryLastWins(headers, cells, n - 1, j, parse);
      assert headers[n - 1] != headers[j];
    }
  }

  /** The Group column is never converted to a number. */
  lemma {:induction false} EntryGroupIsText(headers: seq<string>, cells: seq<string>, n: nat, parse: NumberParser)
    requires n <= |headers|
    requires GroupKey in EntryOf(headers, cells, n, parse)
    ensures EntryOf(headers, cells, n, parse)[GroupKey].Str?
  {
    if n > 0 && headers[n - 1] != GroupKey {
      EntryGroupIsText(headers, cells, n - 1, parse);
    }
  }

  /** parseCSV yields one entry per line after the header: one per newline of the trimmed input. */
  lemma RowCount(csv: string, parse: NumberParser)
    ensures |ParseRows(csv, parse)| == Count(Trim(csv), '\n')
  {
    SplitCount(Trim(csv), '\n');
  }

  /** Every row has exactly the header names as keys; its Group value, if any, is a string. */
  lemma RowShape(csv: string, parse: NumberParser, i: nat)
    requires i < |ParseRows(csv, parse)|
    ensures forall k :: k in ParseRows(csv, parse)[i] <==> k in Headers(csv)
    ensures GroupKey in ParseRows(csv, parse)[i] ==> ParseRows(csv, parse)[i][GroupKey].Str?
  {
    var headers := Headers(csv);
    var cells := Split(Lines(csv)[i + 1], ',');
    var e := Row(csv, parse, i);
    assert ParseRows(csv, parse)[i] == e;
    EntryKeys(headers, cells, |headers|, parse);
    assert headers[..|headers|] == headers;
    if GroupKey in e {
      EntryGroupIsText(headers, cells, |headers|, parse);
    }
  }

  /**
   * The value a row holds under the header of column j (the last column with
   * that name): a number exactly when the header is not Group and the trimmed
   * cell parses, otherwise the trimmed cell text; a missing cell is "".
   */
  lemma RowValue(csv: string, parse: NumberParser, i: nat, j: nat)
    requires i < |ParseRows(csv, parse)| && j < |Headers(csv)|
    requires forall m :: j < m < |Headers(csv)| ==> Headers(csv)[m] != Headers(csv)[j]
    ensures Headers(csv)[j] in ParseRows(csv, parse)[i]
    ensures var v := ParseRows(csv, parse)[i][Headers(csv)[j]];
            var cells := Split(Lines(csv)[i + 1], ',');
            var text := if j < |cells| then Trim(cells[j]) else "";
            && (v.Num? <==> Headers(csv)[j] != GroupKey && parse(text).Some?)
            && (v.Num? ==> v.x == parse(text).value)
            && (!v.Num? ==> v == Str(text))
  {
    var headers := Headers(csv);
    var cells := Split(Lines(csv)[i + 1], ',');
    assert ParseRows(csv, parse)[i] == EntryOf(headers, cells, |headers|, parse);
    EntryLastWins(headers, cells, |headers|, j, parse);
  }

  /** The inner loop of parseCSV: one row object, filled column by column. */
  method ParseLine(headers: seq<string>, currentLine: seq<string>, parse: NumberParser) returns (entry: Entry)
    ensures entry == EntryOf(headers, currentLine, |headers|, parse)
    ensures forall k :: k in entry <==> k in headers
  {
    entry := map[];
    for j := 0 to |headers|
      invariant entry == EntryOf(headers, currentLine, j, parse)
    {
      var value := RawCell(currentLine, j);
      var cell := Str(value);
      if headers[j] != GroupKey && parse(value).Some? {
        cell := Num(parse(value).value);
      }
      entry := entry[headers[j] := cell];
    }
    EntryKeys(headers, currentLine, |headers|, parse);
    assert headers[..|headers|] == headers;
  }

  /** parseCSV: the outer loop pushes one entry per line after the header. */
  method ParseCsv(csvText: string, parse: NumberParser) returns (data: seq<Entry>)
    ensures data == ParseRows(csvText, parse)
    ensures |data| == |Lines(csvText)| - 1
  {
    var lines := Lines(csvText);
    var headers := Headers(csvText);
    ghost var rows := Rows(headers, lines, parse);
    data := [];
    for i := 1 to |lines|
      invariant data == rows[..i - 1]
    {
      var currentLine := Split(lines[i], ',');
      var entry := ParseLine(headers, currentLine, parse);
      assert entry == rows[i - 1];
      assert rows[..i] == rows[..i - 1] + [rows[i - 1]];
      data := data + [entry];
    }
    assert rows[..|lines| - 1] == rows;
  }

  /** The group name after processGroupNames: the two sex codes become words. */
  function GroupName(g: Cell): (r: Cell)
    ensures g == Str("Sex: 1") ==> r == Str("Male")
    ensures g == Str("Sex: 2") ==> r == Str("Female")
    ensures g != Str("Sex: 1") && g != Str("Sex: 2") ==> r == g
  {
    var group := g;
    var group' := if group == Str("Sex: 1") then Str("Male") else group;
    if group' == Str("Sex: 2") then Str("Female") else group'
  }

  /** { ...item, Group: group }: a missing Group becomes an undefined one. */
  function Regroup(item: Entry): (r: Entry)
    ensures GroupKey in r
    ensures r[GroupKey] == GroupName(if GroupKey in item then item[GroupKey] else Undefined)
    ensures forall k :: k != GroupKey ==> (k in r <==> k in item)
    ensures forall k :: k != GroupKey && k in item ==> r[k] == item[k]
  {
    item[GroupKey := GroupName(if GroupKey in item then item[GroupKey] else Undefined)]
  }

  /** processGroupNames: the same rows in the same order, each regrouped. */
  function ProcessGroupNames(data: seq<Entry>): (r: seq<Entry>)
    ensures |r| == |data|
    ensures forall i :: 0 <= i < |data| ==> r[i] == Regroup(data[i])
  {
    seq(|data|, i requires 0 <= i < |data| => Regroup(data[i]))
  }

  /** Renaming twice is renaming once: neither new name is itself renamed. */
  lemma ProcessGroupNamesIdempotent(data: seq<Entry>)
    ensures ProcessGroupNames(ProcessGroupNames(data)) == ProcessGroupNames(data)
  {
    forall i | 0 <= i < |data|
      ensures Regroup(Regroup(data[i])) == Regroup(data[i])
    {
      var g := if GroupKey in data[i] then data[i][GroupKey] else Undefined;
      assert GroupName(GroupName(g)) == GroupName(g);
    }
  }

  /** The index of the first row whose Group is "Overall". */
  function FindOverall(groups: seq<Entry>): (r: Option<nat>)
    ensures r.Some? ==> r.value < |groups| && GroupKey in groups[r.value]
                        && groups[r.value][GroupKey] == Str(OverallGroup)
    ensures forall i :: 0 <= i < |groups| && (r.None? || i < r.value) ==>
              GroupKey !in groups[i] || groups[i][GroupKey] != Str(OverallGroup)
  {
    if groups == [] then None
    else if GroupKey in groups[0] && groups[0][GroupKey] == Str(OverallGroup) then Some(0)
    else
      match FindOverall(groups[1..])
      case Some(k) => Some(k + 1)
      case None => None
  }

  /** The record written to metrics.json. */
  datatype MetricsOutput = MetricsOutput(overall: Entry, groups: seq<Entry>)

  /** processedData.find(d => d.Group === 'Overall') || {} and the full processed list. */
  function MetricsOf(processed: seq<Entry>): (r: MetricsOutput)
    ensures r.groups == processed
    ensures FindOverall(processed).Some? ==> r.overall == processed[FindOverall(processed).value]
    ensures FindOverall(processed).None? ==> r.overall == map[]
  {
    var overall := match FindOverall(processed) case Some(i) => processed[i] case None => map[];
    MetricsOutput(overall, processed)
  }

  /** The script's main step: parse, rename groups, pick the Overall row. */
  method GenerateMetricsJson(csvContent: string, parse: NumberParser) returns (out: MetricsOutput)
    ensures out.groups == ProcessGroupNames(ParseRows(csvContent, parse))
    ensures |out.groups| == |Lines(csvContent)| - 1
    ensures out.overall == map[] || out.overall in out.groups
    ensures out == MetricsOf(ProcessGroupNames(ParseRows(csvContent, parse)))
  {
    var rawData := ParseCsv(csvContent, parse);
    var processedData := ProcessGroupNames(rawData);
    out := MetricsOf(processedData);
  }
}
