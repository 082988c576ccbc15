/**
 * `src/lib/csv/import.ts`: reads expert answers from a CSV file whose header
 * names a text column. Lines are cut at every line feed and fields at every
 * comma outside quotes; a quote character only toggles the quoting and is
 * itself dropped.
 */
module CsvImport {
  import opened Wrappers
  import opened Strings

  /** An imported answer; the id is the caller's `crypto.randomUUID()`. */
  datatype ExpertResponse = ExpertResponse(id: string, text: string, metadata: Option<map<string, string>>)

  /** The splitter's variables between two characters. */
  datatype LineState = LineState(fields: seq<string>, current: string, inQuotes: bool)

  const Start := LineState([], "", false)

  /** Lines 49-57: one character of the line. */
  function Step(st: LineState, c: char): LineState {
    if c == '"' then st.(inQuotes := !st.inQuotes)
    else if c == ',' && !st.inQuotes then LineState(st.fields + [Trim(st.current)], "", st.inQuotes)
    else st.(current := st.current + [c])
  }

  /** The state after reading all of `s` from `st`, left to right. */
  function Scan(s: string, st: LineState): LineState {
    if s == [] then st else Scan(s[1..], Step(st, s[0]))
  }

  /** Lines 43-61: the fields of one line. */
  function ParseLine(line: string): seq<string> {
    var st := Scan(line, Start);
    st.fields + [Trim(st.current)]
  }

  /** `parseCSVLine`: the loop of lines 48-58, then the last field. */
  method ParseCSVLine(line: string) returns (result: seq<string>)
    ensures result == ParseLine(line)
  {
    result := [];
    var current := "";
    var inQuotes := false;
    for i := 0 to |line|
      invariant Scan(line[i..], LineState(result, current, inQuotes)) == Scan(line, Start)
    {
      assert line[i..][1..] == line[i + 1..];
      var c := line[i];
      if c == '"' {
        inQuotes := !inQuotes;
      } else if c == ',' && !inQuotes {
        result := result + [Trim(current)];
        current := "";
      } else {
        current := current + [c];
      }
    }
    assert line[|line|..] == [];
    result := result + [Trim(current)];
  }

  /**
   * A reference count, independent of the splitter: the commas of `s` outside
   * quotes, when reading starts inside quotes iff `open`.
   */
  function CommasOutside(s: string, open: bool): nat {
    if s == [] then 0
    else if s[0] == '"' then CommasOutside(s[1..], !open)
    else (if s[0] == ',' && !open then 1 else 0) + CommasOutside(s[1..], open)
  }

  /** Whether reading `s` from `open` ends inside quotes: an odd number of quotes flips it. */
  function OpenAfter(s: string, open: bool): bool {
    if s == [] then open else OpenAfter(s[1..], if s[0] == '"' then !open else open)
  }

  lemma {:induction false} OpenAfterParity(s: string, open: bool)
    ensures OpenAfter(s, open) == (open != (CountChar(s, '"') % 2 == 1))
  {
    if s != [] {
      OpenAfterParity(s[1..], if s[0] == '"' then !open else open);
    }
  }

  /** Reading a line adds one field per comma outside quotes and ends quoted iff it began so after an odd number of quotes. */
  lemma {:induction false} ScanCounts(s: string, st: LineState)
    ensures |Scan(s, st).fields| == |st.fields| + CommasOutside(s, st.inQuotes)
    ensures Scan(s, st).inQuotes == OpenAfter(s, st.inQuotes)
  {
    if s != [] {
      ScanCounts(s[1..], Step(st, s[0]));
    }
  }

  /** Line 59: a line has one field more than it has commas outside quotes. */
  lemma ParseLineCount(line: string)
    ensures |ParseLine(line)| == 1 + CommasOutside(line, false)
  {
    ScanCounts(line, Start);
  }

  predicate Clean(field: string) {
    Trim(field) == field && '"' !in field
  }

  /** No field kept so far and no character gathered holds a quote, and every field kept is trimmed. */
  predicate CleanState(st: LineState) {
    (forall k :: 0 <= k < |st.fields| ==> Clean(st.fields[k])) && '"' !in st.current
  }

  lemma TrimClean(s: string)
    requires '"' !in s
    ensures Clean(Trim(s))
  {
    TrimIdempotent(s);
    TrimKeeps(s);
  }

  /** One character keeps a clean state clean: a quote is dropped and a finished field is trimmed. */
  lemma StepClean(st: LineState, c: char)
    requires CleanState(st)
    ensures CleanState(Step(st, c))
  {
    if c == ',' && !st.inQuotes {
      TrimClean(st.current);
      AppendAll(st.fields, Trim(st.current), Clean);
    } else if c != '"' {
      assert forall x :: x in st.current + [c] ==> x in st.current || x == c;
    }
  }

  /** Appending an element that has `p` to a sequence whose elements all have `p`. */
  lemma AppendAll<T>(xs: seq<T>, x: T, p: T -> bool)
    requires forall k :: 0 <= k < |xs| ==> p(xs[k])
    requires p(x)
    ensures forall k :: 0 <= k < |xs + [x]| ==> p((xs + [x])[k])
  {
    forall k | 0 <= k < |xs + [x]|
      ensures p((xs + [x])[k])
    {
      if k < |xs| {
        assert (xs + [x])[k] == xs[k];
      }
    }
  }

  lemma {:induction false} ScanClean(s: string, st: LineState)
    requires CleanState(st)
    ensures CleanState(Scan(s, st))
  {
    if s != [] {
      StepClean(st, s[0]);
      ScanClean(s[1..], Step(st, s[0]));
    }
  }

  /** Lines 53 and 59: every field is trimmed and holds no quote character. */
  lemma ParseLineClean(line: string)
    ensures forall k :: 0 <= k < |ParseLine(line)| ==> Clean(ParseLine(line)[k])
  {
    var st := Scan(line, Start);
    ScanClean(line, Start);
    TrimClean(st.current);
    AppendAll(st.fields, Trim(st.current), Clean);
  }

  /** A doubled quote inside a quoted field toggles twice and is lost: `"a""b"` reads as `ab`. */
  lemma DoubledQuoteVanishes()
    ensures ParseLine("\"a\"\"b\"") == ["ab"]
  {
    var s0, s1, s2, s3, s4, s5 := "\"a\"\"b\"", "a\"\"b\"", "\"\"b\"", "\"b\"", "b\"", "\"";
    assert s0[0] == '"' && s0[1..] == s1;
    assert s1[0] == 'a' && s1[1..] == s2;
    assert s2[0] == '"' && s2[1..] == s3;
    assert s3[0] == '"' && s3[1..] == s4;
    assert s4[0] == 'b' && s4[1..] == s5;
    assert s5[0] == '"' && s5[1..] == "";
    assert "" + ['a'] == "a" && "a" + ['b'] == "ab";
    calc {
      Scan(s0, Start);
      Scan(s1, LineState([], "", true));
      Scan(s2, LineState([], "a", true));
      Scan(s3, LineState([], "a", false));
      Scan(s4, LineState([], "a", true));
      Scan(s5, LineState([], "ab", true));
      Scan("", LineState([], "ab", false));
    }
    TrimPlain("ab");
  }

  /** A string with no whitespace at either end is its own trim. */
  lemma TrimPlain(s: string)
    requires s != [] && !IsSpace(s[0]) && !IsSpace(s[|s| - 1])
    ensures Trim(s) == s
  {
    assert TrimStart(s) == s;
    assert TrimEnd(s) == s;
  }

  /** `h.trim().replace(/"/g, '')`. */
  function CleanHeader(h: string): (r: string)
    ensures '"' !in r
  {
    RemoveQuotes(Trim(h))
  }

  function RemoveQuotes(s: string): (r: string)
    ensures '"' !in r
    ensures |r| == |s| - CountChar(s, '"')
  {
    if s == [] then [] else (if s[0] == '"' then [] else [s[0]]) + RemoveQuotes(s[1..])
  }

  /** Lines 10-14: a header names the text column when its lower-case form mentions a response, a text or an answer. */
  predicate IsTextHeader(h: string) {
    var lower := LowerString(h);
    Contains(lower, "response") || Contains(lower, "text") || Contains(lower, "answer")
  }

  /** `findIndex`: the first text header. */
  function TextColumn(headers: seq<string>): (r: Option<nat>)
    ensures r.None? <==> forall k :: 0 <= k < |headers| ==> !IsTextHeader(headers[k])
    ensures r.Some? ==> (r.value < |headers| && IsTextHeader(headers[r.value])
      && forall k :: 0 <= k < r.value ==> !IsTextHeader(headers[k]))
  {
    if headers == [] then None
    else if IsTextHeader(headers[0]) then Some(0)
    else match TextColumn(headers[1..])
      case None => None
      case Some(k) => Some(k + 1)
  }

  /** A value counts as present when it exists and is not empty (JavaScript truthiness of a string). */
  predicate Present(values: seq<string>, index: int) {
    0 <= index < |values| && values[index] != ""
  }

  /**
   * The one header an assignment to a plain object does not store: `metadata["__proto__"] = value`
   * calls the prototype setter, which ignores a string, so `Object.keys` never lists it.
   */
  const ProtoKey := "__proto__"

  /** Lines 26-30 over the first `n` headers: later headers of the same name overwrite earlier ones. */
  function Metadata(headers: seq<string>, values: seq<string>, column: nat, n: nat): map<string, string>
    requires n <= |headers|
  {
    if n == 0 then map[]
    else
      var m := Metadata(headers, values, column, n - 1);
      if n - 1 != column && Present(values, n - 1) && headers[n - 1] != ProtoKey then m[headers[n - 1] := values[n - 1]] else m
  }

  /**
   * A name is a metadata key iff it is not `__proto__` and some other column of that name has a value; the
   * value is the last such column's.
   */
  lemma MetadataKeys(headers: seq<string>, values: seq<string>, column: nat, n: nat)
    requires n <= |headers|
    ensures forall key :: key in Metadata(headers, values, column, n) <==>
      exists j :: 0 <= j < n && j != column && Present(values, j) && headers[j] == key && key != ProtoKey
    ensures forall key :: key in Metadata(headers, values, column, n) ==>
      exists j :: (0 <= j < n && j != column && Present(values, j) && headers[j] == key && key != ProtoKey
        && Metadata(headers, values, column, n)[key] == values[j]
        && forall l :: j < l < n && l != column && Present(values, l) ==> headers[l] != key)
  {
    MetadataDomain(headers, values, column, n);
    MetadataLast(headers, values, column, n);
  }

  lemma {:induction false} MetadataDomain(headers: seq<string>, values: seq<string>, column: nat, n: nat)
    requires n <= |headers|
    ensures forall key :: key in Metadata(headers, values, column, n) <==>
      exists j :: 0 <= j < n && j != column && Present(values, j) && headers[j] == key && key != ProtoKey
  {
    if n > 0 {
      MetadataDomain(headers, values, column, n - 1);
    }
  }

  /** Column `j` is the last of the first `n` columns other than the text column that has a value under the name `key`. */
  ghost predicate LastWith(headers: seq<string>, values: seq<string>, column: nat, n: nat, key: string, j: int)
    requires n <= |headers|
  {
    0 <= j < n && j != column && Present(values, j) && headers[j] == key && key != ProtoKey
    && forall l :: j < l < n && l != column && Present(values, l) ==> headers[l] != key
  }

  lemma {:induction false} MetadataLast(headers: seq<string>, values: seq<string>, column: nat, n: nat)
    requires n <= |headers|
    ensures forall key :: key in Metadata(headers, values, column, n) ==>
      exists j :: LastWith(headers, values, column, n, key, j) && Metadata(headers, values, column, n)[key] == values[j]
  {
    if n > 0 {
      MetadataLast(headers, values, column, n - 1);
      var m := Metadata(headers, values, column, n - 1);
      forall key | key in Metadata(headers, values, column, n)
        ensures exists j :: LastWith(headers, values, column, n, key, j) && Metadata(headers, values, column, n)[key] == values[j]
      {
        var j := n - 1;
        if j != column && Present(values, j) && headers[j] != ProtoKey && key == headers[j] {
          assert LastWith(headers, values, column, n, key, j);
        } else {
          assert key in m && Metadata(headers, values, column, n)[key] == m[key];
          var i :| LastWith(headers, values, column, n - 1, key, i) && m[key] == values[i];
          assert LastWith(headers, values, column, n, key, i);
        }
      }
    }
  }

  /** The metadata loop of lines 25-30; a `__proto__` header is skipped, as its assignment stores nothing. */
  method RowMetadata(headers: seq<string>, values: seq<string>, column: nat) returns (metadata: map<string, string>)
    ensures metadata == Metadata(headers, values, column, |headers|)
  {
    metadata := map[];
    for index := 0 to |headers|
      invariant metadata == Metadata(headers, values, column, index)
    {
      if index != column && index < |values| && values[index] != "" && headers[index] != ProtoKey {
        metadata := metadata[headers[index] := values[index]];
      }
    }
  }

  /** What one data line contributes: its text and metadata, or nothing. */
  type Entry = Option<(string, Option<map<string, string>>)>

  /** Lines 24-36 for one data line: its text and metadata, when its text field is there and not blank. */
  function LineEntry(headers: seq<string>, column: nat, line: string): Entry {
    var values := ParseLine(line);
    if |values| > column && Trim(values[column]) != "" then
      var m := Metadata(headers, values, column, |headers|);
      Some((Trim(values[column]), if |m| > 0 then Some(m) else None))
    else None
  }

  function EntryOf(headers: seq<string>, column: nat): string -> Entry {
    line => LineEntry(headers, column, line)
  }

  /**
   * A line yields an entry iff its text field exists and is not blank; the text
   * is that field, already trimmed by the splitter, and the metadata is absent
   * iff no other column, bar a `__proto__` one, has a value.
   */
  lemma LineEntryMeaning(headers: seq<string>, column: nat, line: string)
    ensures var values := ParseLine(line);
      var entry := LineEntry(headers, column, line);
      (entry.Some? <==> |values| > column && values[column] != "") &&
      (entry.Some? ==> (entry.value.0 == values[column] &&
        (entry.value.1.None? <==> forall j :: 0 <= j < |headers| && j != column && headers[j] != ProtoKey ==> !Present(values, j))))
  {
    var values := ParseLine(line);
    if |values| > column {
      FieldTrimmed(line, column);
      MetadataEmpty(headers, values, column);
    }
  }

  lemma FieldTrimmed(line: string, column: nat)
    requires column < |ParseLine(line)|
    ensures Trim(ParseLine(line)[column]) == ParseLine(line)[column]
  {
    ParseLineClean(line);
  }

  /** The metadata of a line is empty iff no column other than the text column and `__proto__` columns has a value. */
  lemma MetadataEmpty(headers: seq<string>, values: seq<string>, column: nat)
    ensures |Metadata(headers, values, column, |headers|)| > 0 <==>
      exists j :: 0 <= j < |headers| && j != column && Present(values, j) && headers[j] != ProtoKey
  {
    MetadataKeys(headers, values, column, |headers|);
    var m := Metadata(headers, values, column, |headers|);
    if exists j :: 0 <= j < |headers| && j != column && Present(values, j) && headers[j] != ProtoKey {
      var j :| 0 <= j < |headers| && j != column && Present(values, j) && headers[j] != ProtoKey;
      assert headers[j] in m;
    } else {
      assert forall key :: key !in m;
      assert m == map[];
    }
  }

  lemma CollectPrefix(entry: string -> Entry, rows: seq<string>, i: nat, newId: nat -> string)
    requires i < |rows|
    ensures var before := Collect(entry, rows[..i], newId);
      Collect(entry, rows[..i + 1], newId) ==
        if entry(rows[i]).Some? then before + [ExpertResponse(newId(|before|), entry(rows[i]).value.0, entry(rows[i]).value.1)]
        else before
  {
    assert rows[..i + 1][..i] == rows[..i];
  }

  /** Lines 22-38: the records of the data lines, in order; the k-th record gets the k-th fresh id. */
  function Collect(entry: string -> Entry, rows: seq<string>, newId: nat -> string): (out: seq<ExpertResponse>)
    ensures |out| <= |rows|
  {
    if rows == [] then []
    else
      var before := Collect(entry, rows[..|rows| - 1], newId);
      match entry(rows[|rows| - 1])
      case None => before
      case Some((text, metadata)) => before + [ExpertResponse(newId(|before|), text, metadata)]
  }

  /** Each record has the next fresh id and is the entry of some data line. */
  lemma {:induction false} CollectFromRows(entry: string -> Entry, rows: seq<string>, newId: nat -> string)
    ensures var out := Collect(entry, rows, newId);
      forall k :: 0 <= k < |out| ==> (out[k].id == newId(k) &&
        exists j :: 0 <= j < |rows| && entry(rows[j]) == Some((out[k].text, out[k].metadata)))
  {
    if rows != [] {
      var init := rows[..|rows| - 1];
      CollectFromRows(entry, init, newId);
      var out := Collect(entry, rows, newId);
      var before := Collect(entry, init, newId);
      forall k | 0 <= k < |out|
        ensures out[k].id == newId(k)
        ensures exists j :: 0 <= j < |rows| && entry(rows[j]) == Some((out[k].text, out[k].metadata))
      {
        if k < |before| {
          var j :| 0 <= j < |init| && entry(init[j]) == Some((before[k].text, before[k].metadata));
          assert rows[j] == init[j];
        } else {
          assert rows[|rows| - 1] == rows[|rows| - 1];
        }
      }
    }
  }

  /** A line without an entry adds no record; a line with one adds exactly one, at the end. */
  lemma CollectStep(entry: string -> Entry, rows: seq<string>, row: string, newId: nat -> string)
    ensures var before := Collect(entry, rows, newId);
      var after := Collect(entry, rows + [row], newId);
      (after == before <==> entry(row).None?) &&
      (entry(row).Some? ==> after == before + [ExpertResponse(newId(|before|), entry(row).value.0, entry(row).value.1)])
  {
    assert (rows + [row])[..|rows|] == rows;
  }

  const TooShort := "CSV must have at least a header and one data row"
  const NoTextColumn := "CSV must contain a column with \"response\", \"text\", or \"answer\" in the header"

  /** Line 4: the trimmed input cut at every line feed. */
  function InputLines(csv: string): (lines: seq<string>)
    ensures |lines| == CountChar(Trim(csv), '\n') + 1
  {
    SplitJoin(Trim(csv), '\n');
    Split(Trim(csv), '\n')
  }

  function Headers(lines: seq<string>): (headers: seq<string>)
    requires |lines| >= 1
    ensures |headers| == CountChar(lines[0], ',') + 1
  {
    var raw := Split(lines[0], ',');
    SplitJoin(lines[0], ',');
    seq(|raw|, k requires 0 <= k < |raw| => CleanHeader(raw[k]))
  }

  /** Lines 23-36: split one data line and gather its metadata when its text field is usable. */
  method ReadLine(headers: seq<string>, column: nat, line: string) returns (entry: Entry)
    ensures entry == EntryOf(headers, column)(line)
  {
    var values := ParseCSVLine(line);
    if |values| > column && Trim(values[column]) != "" {
      var metadata := RowMetadata(headers, values, column);
      entry := Some((Trim(values[column]), if |metadata| > 0 then Some(metadata) else None));
    } else {
      entry := None;
    }
  }

  /** The loop of lines 22-38 over the data lines. */
  method CollectRecords(headers: seq<string>, column: nat, rows: seq<string>, newId: nat -> string) returns (records: seq<ExpertResponse>)
    ensures records == Collect(EntryOf(headers, column), rows, newId)
  {
    records := [];
    for i := 0 to |rows|
      invariant records == Collect(EntryOf(headers, column), rows[..i], newId)
    {
      CollectPrefix(EntryOf(headers, column), rows, i, newId);
      var entry := ReadLine(headers, column, rows[i]);
      if entry.Some? {
        records := records + [ExpertResponse(newId(|records|), entry.value.0, entry.value.1)];
      }
    }
    assert rows[..|rows|] == rows;
  }

  /** `parseExpertResponsesCSV`: the records, or the error the source throws. */
  method ParseExpertResponsesCSV(csv: string, newId: nat -> string) returns (r: Result<seq<ExpertResponse>, string>)
    ensures var lines := InputLines(csv);
      if |lines| < 2 then r == Failure(TooShort)
      else if TextColumn(Headers(lines)).None? then r == Failure(NoTextColumn)
      else r == Success(Collect(EntryOf(Headers(lines), TextColumn(Headers(lines)).value), lines[1..], newId))
  {
    var lines := InputLines(csv);
    if |lines| < 2 {
      return Failure(TooShort);
    }
    var headers := Headers(lines);
    var found := TextColumn(headers);
    if found.None? {
      return Failure(NoTextColumn);
    }
    var records := CollectRecords(headers, found.value, lines[1..], newId);
    return Success(records);
  }
}
