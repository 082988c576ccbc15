/** `src/lib/csv/export.ts`: one CSV line per response record under a fixed header. */
module CsvExport {
  import opened Wrappers
  import opened Strings
  import opened Types

  /** Line 5: a field is quoted when it holds a quote, a comma or a line feed. */
  predicate NeedsQuoting(field: string) {
    '"' in field || ',' in field || '\n' in field
  }

  /** `field.replace(/"/g, '""')`. */
  function DoubleQuotes(s: string): (r: string)
    ensures |r| == |s| + CountChar(s, '"')
  {
    if s == [] then [] else (if s[0] == '"' then "\"\"" else [s[0]]) + DoubleQuotes(s[1..])
  }

  /** Lines 4-10: a field that needs it is quoted with its quotes doubled; any other is left as it is. */
  function EscapeField(field: string): (r: string)
    ensures r == field <==> !NeedsQuoting(field)
    ensures NeedsQuoting(field) ==> |r| == |field| + CountChar(field, '"') + 2 && r[0] == '"' && r[|r| - 1] == '"'
  {
    if NeedsQuoting(field) then "\"" + DoubleQuotes(field) + "\"" else field
  }

  /** Collapses every doubled quote, reading from the left. */
  function CollapseQuotes(s: string): string {
    if |s| >= 2 && s[0] == '"' && s[1] == '"' then "\"" + CollapseQuotes(s[2..])
    else if s == [] then []
    else [s[0]] + CollapseQuotes(s[1..])
  }

  /** Removes the outer quotes of a quoted field and collapses its doubled quotes. */
  function Unescape(s: string): string {
    if |s| >= 2 && s[0] == '"' && s[|s| - 1] == '"' then CollapseQuotes(s[1..|s| - 1]) else s
  }

  lemma {:induction false} CollapseDoubled(s: string)
    ensures CollapseQuotes(DoubleQuotes(s)) == s
  {
    if s != [] {
      CollapseDoubled(s[1..]);
      if s[0] == '"' {
        assert DoubleQuotes(s) == "\"\"" + DoubleQuotes(s[1..]);
      } else {
        assert DoubleQuotes(s) == [s[0]] + DoubleQuotes(s[1..]);
        assert DoubleQuotes(s)[1..] == DoubleQuotes(s[1..]);
      }
    }
  }

  /** Escaping can be undone: unquoting and collapsing the doubled quotes gives the field back. */
  lemma EscapeRoundTrip(field: string)
    ensures Unescape(EscapeField(field)) == field
  {
    var r := EscapeField(field);
    if NeedsQuoting(field) {
      assert r[1..|r| - 1] == DoubleQuotes(field);
      CollapseDoubled(field);
    } else {
      assert |field| >= 2 ==> field[0] != '"';
    }
  }

  /** A carriage return on its own does not make a field quoted. */
  lemma CarriageReturnNotQuoted(a: string, b: string)
    ensures NeedsQuoting(a + "\r" + b) == NeedsQuoting(a + b)
  {
    assert forall c :: c in a + "\r" + b && c != '\r' ==> c in a + b;
    assert forall c :: c in a + b ==> c in a + "\r" + b;
  }

  /** Lines 14-35: the twenty column names, comma-separated. */
  const HeaderLine: string :=
    "run_id,run_created_at,system_prompt,question,service,model_id,model_label,loop_index,status,started_at,"
    + "completed_at,latency_ms,char_count,input_tokens,output_tokens,total_tokens,finish_reason,truncated,retry_count,text"

  const FieldCount := 20

  /** `n?.toString() || ""`: an absent number is an empty field. */
  function NumberField(n: Option<int>): (r: string)
    ensures r == "" <==> n.None?
  {
    if n.Some? then IntToString(n.value) else ""
  }

  /** Lines 41-44: the run's own fields, repeated on every line. */
  function RunFields(run: Run): (fields: seq<string>)
    ensures |fields| == 4
  {
    [ EscapeField(run.id),
      EscapeField(run.config.createdAt),
      EscapeField(run.config.systemPrompt.GetOr("")),
      EscapeField(run.config.question) ]
  }

  /** Lines 45-49: which model answered, and the loop index printed unquoted. */
  function ModelFields(response: ResponseRecord): (fields: seq<string>)
    ensures |fields| == 5 && fields[3] == IntToString(response.loopIndex)
  {
    [ EscapeField(ProviderString(response.service)),
      EscapeField(response.modelId),
      EscapeField(response.modelLabel),
      IntToString(response.loopIndex),
      EscapeField(StatusString(response.status)) ]
  }

  /** Lines 50-53: the timestamps, latency and length; an absent number is an empty field. */
  function TimingFields(response: ResponseRecord): (fields: seq<string>)
    ensures |fields| == 4
    ensures fields[2] == "" <==> response.latencyMs.None?
    ensures fields[3] == "" <==> response.charCount.None?
  {
    [ EscapeField(response.startedAt.GetOr("")),
      EscapeField(response.completedAt.GetOr("")),
      NumberField(response.latencyMs),
      NumberField(response.charCount) ]
  }

  /** Lines 54-56: the token counts. */
  function UsageFields(response: ResponseRecord): (fields: seq<string>)
    ensures |fields| == 3
    ensures fields[0] == "" <==> response.inputTokens.None?
    ensures fields[1] == "" <==> response.outputTokens.None?
    ensures fields[2] == "" <==> response.totalTokens.None?
  {
    [ NumberField(response.inputTokens),
      NumberField(response.outputTokens),
      NumberField(response.totalTokens) ]
  }

  /**
   * Lines 57-60: how the answer ended, `truncated` spelled out (absent counts as
   * false), the retry count unquoted, and the text, which unescapes back to itself.
   */
  function OutcomeFields(response: ResponseRecord): (fields: seq<string>)
    ensures |fields| == 4
    ensures fields[1] == (if response.truncated == Some(true) then "true" else "false")
    ensures fields[2] == IntToString(response.retryCount)
    ensures Unescape(fields[3]) == response.text
  {
    EscapeRoundTrip(response.text);
    [ EscapeField(response.finishReason.GetOr("")),
      if response.truncated == Some(true) then "true" else "false",
      IntToString(response.retryCount),
      EscapeField(response.text) ]
  }

  /** Lines 40-61: the twenty fields of one record, in header order. */
  function Row(run: Run, response: ResponseRecord): (fields: seq<string>)
    ensures |fields| == FieldCount
  {
    RunFields(run) + ModelFields(response) + TimingFields(response) + UsageFields(response) + OutcomeFields(response)
  }

  function RowLine(run: Run, response: ResponseRecord): string {
    Join(Row(run, response), ",")
  }

  /** `responses.map(format)`, built from the end so that a loop can extend it. */
  function MapLines<T>(format: T -> string, xs: seq<T>): (lines: seq<string>)
    ensures |lines| == |xs|
    ensures forall i :: 0 <= i < |xs| ==> lines[i] == format(xs[i])
  {
    if xs == [] then [] else MapLines(format, xs[..|xs| - 1]) + [format(xs[|xs| - 1])]
  }

  function LineOf(run: Run): ResponseRecord -> string {
    response => RowLine(run, response)
  }

  /** Lines 39-65: the header line, then one line per record in list order. */
  function Lines(run: Run): (lines: seq<string>)
    ensures |lines| == |run.responses| + 1 && lines[0] == HeaderLine
    ensures forall i :: 0 <= i < |run.responses| ==> lines[i + 1] == LineOf(run)(run.responses[i])
  {
    [HeaderLine] + MapLines(LineOf(run), run.responses)
  }

  /** Lines 13-67: the lines joined by line feeds, with none after the last. */
  method ExportRunToCSV(run: Run) returns (csv: string)
    ensures csv == Join(Lines(run), "\n")
  {
    var rows := [];
    for i := 0 to |run.responses|
      invariant rows == MapLines(LineOf(run), run.responses[..i])
    {
      assert run.responses[..i + 1][..i] == run.responses[..i];
      rows := rows + [LineOf(run)(run.responses[i])];
    }
    assert run.responses[..|run.responses|] == run.responses;
    csv := Join([HeaderLine] + rows, "\n");
  }

  /** A run with no records exports as the header line alone. */
  lemma EmptyRunIsHeaderOnly(run: Run)
    requires run.responses == []
    ensures Join(Lines(run), "\n") == HeaderLine
  {
    assert Lines(run) == [HeaderLine];
  }
}
