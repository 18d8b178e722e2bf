/**
 * The offline converter that turns the ADR summary CSV into the drug-name list
 * (drugs.json): the first column of every data line, with one pair of
 * surrounding double quotes removed, blanks dropped, repetitions dropped,
 * sorted. Reading and writing the files, logging and the generated_at
 * timestamp are outside the model.
 */
module DrugsJson {
  import opened Wrappers
  import opened Text
  import opened StringOrder
  import OrderedSet

  /** The record written to drugs.json, without its timestamp. */
  datatype DrugsOutput = DrugsOutput(drugs: seq<string>, total: nat)

  /**
   * What the pattern /^([^,]+),/ captures: the text before the first comma, when
   * that text is not empty. None when there is no comma or the line starts with one.
   */
  function LeadingField(line: string): (r: Option<string>)
    ensures r.Some? ==> 0 < |r.value| < |line| && r.value == line[..|r.value|]
                        && line[|r.value|] == ',' && ',' !in r.value
    ensures r.None? <==> ',' !in line || line[0] == ','
  {
    if line == [] || line[0] == ',' then None
    else if |line| == 1 then None
    else
      match LeadingField(line[1..])
      case Some(f) => Some([line[0]] + f)
      case None => if line[1] == ',' then Some([line[0]]) else None
  }

  /** drugName.slice(1, -1) when the name both starts and ends with a double quote. */
  function StripQuotes(n: string): (r: string)
    ensures |n| >= 2 && n[0] == '"' && n[|n| - 1] == '"' ==> r == n[1..|n| - 1]
    ensures n == "\"" ==> r == []
    ensures !(|n| >= 1 && n[0] == '"' && n[|n| - 1] == '"') ==> r == n
  {
    if |n| >= 1 && n[0] == '"' && n[|n| - 1] == '"' then
      (if |n| >= 2 then n[1..|n| - 1] else [])
    else n
  }

  /** The drug name one line contributes, if any. */
  function ExtractName(raw: string): (r: Option<string>)
    ensures r.Some? ==> r.value != []
  {
    var line := Trim(raw);
    if line == [] then None
    else
      match LeadingField(line)
      case None => None
      case Some(field) =>
        var name := StripQuotes(Trim(field));
        if name != [] then Some(name) else None
  }

  /** The names of a sequence of data lines, in the order the loop adds them to its Set. */
  function Collect(data: seq<string>): (r: seq<string>)
  {
    if data == [] then []
    else
      var seen := Collect(data[..|data| - 1]);
      match ExtractName(data[|data| - 1])
      case Some(n) => OrderedSet.Add(seen, n)
      case None => seen
  }

  /** Each data line adds at most one name. */
  lemma {:induction false} CollectLength(data: seq<string>)
    ensures |Collect(data)| <= |data|
  {
    if data != [] {
      CollectLength(data[..|data| - 1]);
    }
  }

  /** The set of names extracted from the data lines. */
  function NamesOf(data: seq<string>): (r: set<string>)
    ensures forall n :: n in r ==> n != []
  {
    if data == [] then {}
    else
      var init := NamesOf(data[..|data| - 1]);
      match ExtractName(data[|data| - 1])
      case Some(n) => init + {n}
      case None => init
  }

  /** Every line's name is among NamesOf. */
  lemma {:induction false} NameOfLine(data: seq<string>, i: nat)
    requires i < |data| && ExtractName(data[i]).Some?
    ensures ExtractName(data[i]).value in NamesOf(data)
  {
    if i < |data| - 1 {
      NameOfLine(data[..|data| - 1], i);
      assert data[..|data| - 1][i] == data[i];
    }
  }

  /** Every name among NamesOf comes from some line. */
  lemma {:induction false} LineOfName(data: seq<string>, n: string) returns (i: nat)
    requires n in NamesOf(data)
    ensures i < |data| && ExtractName(data[i]) == Some(n)
  {
    var init := data[..|data| - 1];
    if n in NamesOf(init) {
      i := LineOfName(init, n);
      assert init[i] == data[i];
    } else {
      i := |data| - 1;
    }
  }

  /** The lines of the file; the first one is the header. */
  function Lines(csv: string): (r: seq<string>)
    ensures |r| >= 1
  {
    Split(csv, '\n')
  }

  /** The whole conversion as a function of the file contents. */
  function DrugsJsonOf(csv: string): (r: DrugsOutput)
    ensures r.total == |r.drugs|
    ensures multiset(r.drugs) == multiset(Collect(Lines(csv)[1..]))
  {
    var sorted := Sort(Collect(Lines(csv)[1..]));
    DrugsOutput(sorted, |sorted|)
  }

  lemma {:induction false} CollectNames(data: seq<string>)
    ensures Distinct(Collect(data))
    ensures forall n :: n in Collect(data) <==> n in NamesOf(data)
  {
    if data != [] {
      CollectNames(data[..|data| - 1]);
    }
  }

  /** The drug list is strictly ascending, so it has no repetitions; total is its length. */
  lemma DrugsSorted(csv: string)
    ensures StrictlySorted(DrugsJsonOf(csv).drugs)
    ensures Distinct(DrugsJsonOf(csv).drugs)
    ensures DrugsJsonOf(csv).total == |DrugsJsonOf(csv).drugs|
  {
    CollectNames(Lines(csv)[1..]);
    SortSorted(Collect(Lines(csv)[1..]));
    StrictlySortedDistinct(DrugsJsonOf(csv).drugs);
  }

  /** A name is listed exactly when some data line (not the header) yields it. */
  lemma DrugsAreDataNames(csv: string)
    ensures forall n :: n in DrugsJsonOf(csv).drugs <==> n in NamesOf(Lines(csv)[1..])
  {
    var c := Collect(Lines(csv)[1..]);
    CollectNames(Lines(csv)[1..]);
    forall n ensures n in Sort(c) <==> n in c {
      assert n in Sort(c) <==> n in multiset(Sort(c));
      assert n in c <==> n in multiset(c);
    }
  }

  /** The output depends only on the set of extracted names, not on their order or repetition. */
  lemma DrugsDependOnlyOnNames(csv1: string, csv2: string)
    requires NamesOf(Lines(csv1)[1..]) == NamesOf(Lines(csv2)[1..])
    ensures DrugsJsonOf(csv1) == DrugsJsonOf(csv2)
  {
    DrugsSorted(csv1);
    DrugsSorted(csv2);
    DrugsAreDataNames(csv1);
    DrugsAreDataNames(csv2);
    SortedUnique(DrugsJsonOf(csv1).drugs, DrugsJsonOf(csv2).drugs);
  }

  /** The header line is never examined: replacing it does not change the output. */
  lemma HeaderIgnored(header1: string, header2: string, body: string)
    requires '\n' !in header1 && '\n' !in header2
    ensures DrugsJsonOf(header1 + "\n" + body) == DrugsJsonOf(header2 + "\n" + body)
  {
    SplitAfterFirst(header1, '\n', body);
    SplitAfterFirst(header2, '\n', body);
    assert Lines(header1 + "\n" + body)[1..] == Split(body, '\n');
    assert Lines(header2 + "\n" + body)[1..] == Split(body, '\n');
  }

  /** A blank line, a line without a comma and a line that starts with a comma contribute nothing. */
  lemma NoFieldNoName(raw: string)
    requires Trim(raw) == [] || ',' !in Trim(raw) || Trim(raw)[0] == ','
    ensures ExtractName(raw) == None
  {
  }

  /** A contributed name is the trimmed first field with one pair of surrounding quotes removed. */
  lemma NameIsFirstField(raw: string)
    requires ExtractName(raw).Some?
    ensures exists k :: 0 < k < |Trim(raw)| && Trim(raw)[k] == ',' && ',' !in Trim(raw)[..k]
                        && ExtractName(raw).value == StripQuotes(Trim(Trim(raw)[..k]))
  {
    var f := LeadingField(Trim(raw)).value;
    assert Trim(raw)[..|f|] == f;
  }

  /** Conversely, a first field that is still non-empty after trimming and quote removal is contributed. */
  lemma FirstFieldIsName(raw: string, k: nat)
    requires 0 < k < |Trim(raw)| && Trim(raw)[k] == ',' && ',' !in Trim(raw)[..k]
    requires StripQuotes(Trim(Trim(raw)[..k])) != []
    ensures ExtractName(raw) == Some(StripQuotes(Trim(Trim(raw)[..k])))
  {
    var line := Trim(raw);
    var f := LeadingField(line).value;
    assert f == line[..k];
  }

  /** A line whose trimmed text starts with a lone double quote and a comma contributes nothing. */
  lemma LoneQuoteDropped(raw: string)
    requires |Trim(raw)| >= 2 && Trim(raw)[0] == '"' && Trim(raw)[1] == ','
    ensures ExtractName(raw) == None
  {
    var line := Trim(raw);
    assert line[1..][0] == ',';
    assert LeadingField(line[1..]) == None;
    assert LeadingField(line) == Some("\"");
    assert Trim("\"") == "\"";
  }

  /** The loop of generateDrugsJson over the lines after the header, then the sort. */
  method GenerateDrugsJson(csv: string) returns (out: DrugsOutput)
    ensures out == DrugsJsonOf(csv)
    ensures StrictlySorted(out.drugs) && out.total == |out.drugs|
    ensures forall n :: n in out.drugs <==> n in NamesOf(Lines(csv)[1..])
  {
    var lines := Split(csv, '\n');
    var drugs: seq<string> := [];
    for i := 1 to |lines|
      invariant drugs == Collect(lines[1..i])
    {
      ghost var data := lines[1..i + 1];
      assert data[..|data| - 1] == lines[1..i] && data[|data| - 1] == lines[i];
      var line := Trim(lines[i]);
      if line == [] {
        assert ExtractName(lines[i]) == None;
        continue;
      }
      var m := LeadingField(line);
      if m.Some? {
        var drugName := Trim(m.value);
        drugName := StripQuotes(drugName);
        if drugName != [] {
          assert ExtractName(lines[i]) == Some(drugName);
          drugs := OrderedSet.Add(drugs, drugName);
        } else {
          assert ExtractName(lines[i]) == None;
        }
      } else {
        assert ExtractName(lines[i]) == None;
      }
    }
    assert lines == Lines(csv);
    assert lines[1..|lines|] == lines[1..];
    assert drugs == Collect(Lines(csv)[1..]);
    var sorted := Sort(drugs);
    out := DrugsOutput(sorted, |sorted|);
    DrugsSorted(csv);
    DrugsAreDataNames(csv);
  }
}
