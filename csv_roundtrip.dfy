/**
 * How the importer of `src/lib/csv/import.ts` reads what the exporter of
 * `src/lib/csv/export.ts` writes: the field count of every row survives, but
 * the two are not inverses.
 */
module CsvRoundTrip {
  import opened Wrappers
  import opened Strings
  import opened Types
  import opened CsvExport
  import opened CsvImport

  /** A field that adds no comma outside quotes and leaves the quoting closed. */
  predicate Neutral(field: string) {
    CommasOutside(field, false) == 0 && !OpenAfter(field, false)
  }

  lemma {:induction false} CommasAppend(a: string, b: string, open: bool)
    ensures CommasOutside(a + b, open) == CommasOutside(a, open) + CommasOutside(b, OpenAfter(a, open))
    ensures OpenAfter(a + b, open) == OpenAfter(b, OpenAfter(a, open))
  {
    if a == [] {
      assert a + b == b;
    } else {
      assert (a + b)[1..] == a[1..] + b;
      CommasAppend(a[1..], b, if a[0] == '"' then !open else open);
    }
  }

  /** A string without quotes and commas adds no field and does not change the quoting. */
  lemma {:induction false} PlainIsNeutral(s: string, open: bool)
    requires '"' !in s && ',' !in s
    ensures CommasOutside(s, open) == 0 && OpenAfter(s, open) == open
  {
    if s != [] {
      assert s[0] in s;
      assert forall c :: c in s[1..] ==> c in s;
      PlainIsNeutral(s[1..], open);
    }
  }

  /** Inside quotes, a field with its quotes doubled adds no field and leaves the quoting open. */
  lemma {:induction false} DoubledStaysQuoted(s: string)
    ensures CommasOutside(DoubleQuotes(s), true) == 0 && OpenAfter(DoubleQuotes(s), true)
  {
    if s != [] {
      DoubledStaysQuoted(s[1..]);
      var head := if s[0] == '"' then "\"\"" else [s[0]];
      assert DoubleQuotes(s) == head + DoubleQuotes(s[1..]);
      CommasAppend(head, DoubleQuotes(s[1..]), true);
      assert CommasOutside(head, true) == 0 && OpenAfter(head, true);
    }
  }

  /** Every escaped field reads back as one field. */
  lemma EscapedIsNeutral(field: string)
    ensures Neutral(EscapeField(field))
  {
    if NeedsQuoting(field) {
      var inner := DoubleQuotes(field);
      DoubledStaysQuoted(field);
      CommasAppend("\"", inner, false);
      CommasAppend("\"" + inner, "\"", false);
      assert EscapeField(field) == "\"" + inner + "\"";
    } else {
      PlainIsNeutral(field, false);
    }
  }

  lemma NumberIsNeutral(n: int)
    ensures Neutral(IntToString(n))
  {
    var s := IntToString(n);
    assert forall i :: 0 <= i < |s| ==> s[i] != '"' && s[i] != ',';
    PlainIsNeutral(s, false);
  }

  lemma OptionalNumberIsNeutral(n: Option<int>)
    ensures Neutral(NumberField(n))
  {
    if n.Some? {
      NumberIsNeutral(n.value);
    }
  }

  predicate AllNeutral(fields: seq<string>) {
    forall k :: 0 <= k < |fields| ==> Neutral(fields[k])
  }

  /** Fields that are each neutral, joined by commas, read back as exactly that many fields. */
  lemma {:induction false} JoinNeutral(fields: seq<string>)
    requires |fields| >= 1 && AllNeutral(fields)
    ensures CommasOutside(Join(fields, ","), false) == |fields| - 1 && !OpenAfter(Join(fields, ","), false)
  {
    if |fields| > 1 {
      JoinNeutral(fields[1..]);
      var rest := Join(fields[1..], ",");
      assert Join(fields, ",") == (fields[0] + ",") + rest;
      CommasAppend(fields[0], ",", false);
      CommasAppend(fields[0] + ",", rest, false);
      assert Neutral(fields[0]);
    }
  }

  lemma RunFieldsNeutral(run: Run)
    ensures AllNeutral(RunFields(run))
  {
    EscapedIsNeutral(run.id);
    EscapedIsNeutral(run.config.createdAt);
    EscapedIsNeutral(run.config.systemPrompt.GetOr(""));
    EscapedIsNeutral(run.config.question);
  }

  lemma ModelFieldsNeutral(response: ResponseRecord)
    ensures AllNeutral(ModelFields(response))
  {
    EscapedIsNeutral(ProviderString(response.service));
    EscapedIsNeutral(response.modelId);
    EscapedIsNeutral(response.modelLabel);
    NumberIsNeutral(response.loopIndex);
    EscapedIsNeutral(StatusString(response.status));
  }

  lemma TimingFieldsNeutral(response: ResponseRecord)
    ensures AllNeutral(TimingFields(response))
  {
    EscapedIsNeutral(response.startedAt.GetOr(""));
    EscapedIsNeutral(response.completedAt.GetOr(""));
    OptionalNumberIsNeutral(response.latencyMs);
    OptionalNumberIsNeutral(response.charCount);
  }

  lemma UsageFieldsNeutral(response: ResponseRecord)
    ensures AllNeutral(UsageFields(response))
  {
    OptionalNumberIsNeutral(response.inputTokens);
    OptionalNumberIsNeutral(response.outputTokens);
    OptionalNumberIsNeutral(response.totalTokens);
  }

  lemma OutcomeFieldsNeutral(response: ResponseRecord)
    ensures AllNeutral(OutcomeFields(response))
  {
    EscapedIsNeutral(response.finishReason.GetOr(""));
    PlainIsNeutral("true", false);
    PlainIsNeutral("false", false);
    NumberIsNeutral(response.retryCount);
    EscapedIsNeutral(response.text);
  }

  lemma ConcatNeutral(a: seq<string>, b: seq<string>)
    requires AllNeutral(a) && AllNeutral(b)
    ensures AllNeutral(a + b)
  {
    forall k | 0 <= k < |a + b|
      ensures Neutral((a + b)[k])
    {
      if k >= |a| {
        assert (a + b)[k] == b[k - |a|];
      }
    }
  }

  /**
   * Lines 14-61 of the exporter against lines 43-61 of the importer: every data
   * line the exporter writes has 20 fields counted with quote awareness, one per
   * header name.
   */
  lemma RowReadsAsTwentyFields(run: Run, response: ResponseRecord)
    ensures |ParseLine(RowLine(run, response))| == FieldCount
  {
    RunFieldsNeutral(run);
    ModelFieldsNeutral(response);
    TimingFieldsNeutral(response);
    UsageFieldsNeutral(response);
    OutcomeFieldsNeutral(response);
    var a := RunFields(run) + ModelFields(response);
    ConcatNeutral(RunFields(run), ModelFields(response));
    ConcatNeutral(a, TimingFields(response));
    ConcatNeutral(a + TimingFields(response), UsageFields(response));
    ConcatNeutral(a + TimingFields(response) + UsageFields(response), OutcomeFields(response));
    JoinNeutral(Row(run, response));
    ParseLineCount(RowLine(run, response));
  }

  /**
   * The two are not inverses: the exporter doubles a quote inside a field
   * (line 7) and the importer drops both quote characters (lines 50-51).
   */
  lemma EscapedQuoteIsLost()
    ensures EscapeField("a\"b") == "\"a\"\"b\""
    ensures ParseLine(EscapeField("a\"b")) == ["ab"] != ["a\"b"]
  {
    var field := "a\"b";
    assert field[1] == '"';
    DoubledInField();
    assert EscapeField(field) == "\"" + "a\"\"b" + "\"";
    assert "\"" + "a\"\"b" + "\"" == "\"a\"\"b\"";
    DoubledQuoteVanishes();
    assert "ab"[1] != "a\"b"[1];
  }

  lemma DoubledInField()
    ensures DoubleQuotes("a\"b") == "a\"\"b"
  {
    var s0, s1, s2 := "a\"b", "\"b", "b";
    assert s2[0] == 'b' && s2[1..] == "";
    assert DoubleQuotes(s2) == "b" + "" == "b";
    assert s1[0] == '"' && s1[1..] == s2;
    assert DoubleQuotes(s1) == "\"\"" + "b" == "\"\"b";
    assert s0[0] == 'a' && s0[1..] == s1;
    assert DoubleQuotes(s0) == "a" + "\"\"b" == "a\"\"b";
  }

  lemma {:induction false} JoinKeeps(parts: seq<string>, sep: string, k: nat, c: char)
    requires k < |parts| && c in parts[k]
    ensures c in Join(parts, sep)
  {
    if |parts| > 1 {
      if k == 0 {
        assert Join(parts, sep) == parts[0] + (sep + Join(parts[1..], sep));
      } else {
        JoinKeeps(parts[1..], sep, k - 1, c);
        assert Join(parts, sep) == (parts[0] + sep) + Join(parts[1..], sep);
      }
    }
  }

  lemma {:induction false} DoublingKeeps(s: string, c: char)
    requires c in s && c != '"'
    ensures c in DoubleQuotes(s)
  {
    if s[0] == c {
      assert DoubleQuotes(s) == [c] + DoubleQuotes(s[1..]);
    } else {
      assert c in s[1..];
      DoublingKeeps(s[1..], c);
      var head := if s[0] == '"' then "\"\"" else [s[0]];
      assert DoubleQuotes(s) == head + DoubleQuotes(s[1..]);
    }
  }

  /** There is a line feed between any two lines, and more wherever a line holds one. */
  lemma {:induction false} JoinedLineFeeds(lines: seq<string>)
    requires |lines| >= 1
    ensures CountChar(Join(lines, "\n"), '\n') >= |lines| - 1
    ensures (exists k :: 0 <= k < |lines| && '\n' in lines[k]) ==> CountChar(Join(lines, "\n"), '\n') >= |lines|
  {
    if |lines| > 1 {
      JoinedLineFeeds(lines[1..]);
      var rest := Join(lines[1..], "\n");
      assert Join(lines, "\n") == (lines[0] + "\n") + rest;
      CountCharAppend(lines[0] + "\n", rest, '\n');
      CountCharAppend(lines[0], "\n", '\n');
      if exists k :: 0 <= k < |lines| && '\n' in lines[k] {
        var k :| 0 <= k < |lines| && '\n' in lines[k];
        if k > 0 {
          assert lines[1..][k - 1] == lines[k];
        }
      }
    } else if '\n' in lines[0] {
      assert Join(lines, "\n") == lines[0];
    }
  }

  /**
   * The importer cuts at every line feed (line 4), so a record whose text holds
   * one comes back as more lines than the exporter wrote records and header.
   */
  lemma LineFeedInTextSplitsRecord(run: Run, i: nat)
    requires i < |run.responses| && '\n' in run.responses[i].text
    ensures |Split(Join(Lines(run), "\n"), '\n')| > |run.responses| + 1
  {
    var response := run.responses[i];
    var text := response.text;
    assert NeedsQuoting(text);
    DoublingKeeps(text, '\n');
    assert EscapeField(text) == "\"" + DoubleQuotes(text) + "\"";
    assert '\n' in EscapeField(text);
    assert Row(run, response)[19] == EscapeField(text);
    JoinKeeps(Row(run, response), ",", 19, '\n');
    var lines := Lines(run);
    assert lines[i + 1] == RowLine(run, response);
    JoinedLineFeeds(lines);
    SplitJoin(Join(lines, "\n"), '\n');
  }
}
