/**
 * Finding the start time of the subagent's run: the first transcript record
 * that parses and carries a truthy `timestamp`.
 */
module TranscriptScan {
  import opened Wrappers
  import opened JsText

  /**
   * What `JSON.parse(line).timestamp` gives for one line: the parse throws
   * (`Unparsable`, which also covers a line holding `null`, whose property
   * read throws), or it yields a value whose `timestamp` may be absent.
   */
  datatype LineParse = Unparsable | Parsed(timestamp: Option<string>)

  /** The line is not blank, parses, and its `timestamp` is truthy. */
  predicate Qualifies(line: string, parse: string -> LineParse) {
    && !IsBlank(line)
    && parse(line).Parsed?
    && !Falsy(parse(line).timestamp)
  }

  /** The timestamp of the first qualifying line, or `None` when no line qualifies. */
  function FirstTimestamp(lines: seq<string>, parse: string -> LineParse): (r: Option<string>)
    ensures r.Some? ==> r.value != ""
    decreases |lines|
  {
    if |lines| == 0 then None
    else if Qualifies(lines[0], parse) then parse(lines[0]).timestamp
    else FirstTimestamp(lines[1..], parse)
  }

  /**
   * The scan of the transcript file: `content` is what `readFileSync` returned,
   * `None` when the read threw (the start time then stays null).
   */
  method ExtractStartTimestamp(content: Option<string>, parse: string -> LineParse) returns (startTs: Option<string>)
    ensures content.None? ==> startTs.None?
    ensures content.Some? ==> startTs == FirstTimestamp(SplitLines(content.value), parse)
  {
    startTs := None;
    if content.None? {
      return;
    }
    var lines := SplitLines(content.value);
    var i := 0;
    while i < |lines|
      invariant 0 <= i <= |lines|
      invariant startTs.None?
      invariant FirstTimestamp(lines, parse) == FirstTimestamp(lines[i..], parse)
    {
      assert lines[i..][0] == lines[i] && lines[i..][1..] == lines[i + 1..];
      var line := lines[i];
      if IsBlank(line) {
        i := i + 1;
        continue;
      }
      var parsed := parse(line);
      if parsed.Parsed? {
        var ts := parsed.timestamp;
        if !Falsy(ts) {
          startTs := ts;
          break;
        }
      }
      i := i + 1;
    }
  }

  /** The first qualifying line decides the result: earlier lines did not qualify, later ones are never consulted. */
  lemma {:induction false} FirstTimestampAt(lines: seq<string>, parse: string -> LineParse, i: nat)
    requires i < |lines| && Qualifies(lines[i], parse)
    requires forall j :: 0 <= j < i ==> !Qualifies(lines[j], parse)
    ensures FirstTimestamp(lines, parse) == parse(lines[i]).timestamp
  {
    if i > 0 {
      assert !Qualifies(lines[0], parse);
      FirstTimestampAt(lines[1..], parse, i - 1);
    }
  }

  /** No timestamp is found exactly when no line qualifies. */
  lemma {:induction false} FirstTimestampNone(lines: seq<string>, parse: string -> LineParse)
    ensures FirstTimestamp(lines, parse).None? <==> forall j :: 0 <= j < |lines| ==> !Qualifies(lines[j], parse)
  {
    if |lines| > 0 {
      FirstTimestampNone(lines[1..], parse);
      assert forall j :: 1 <= j < |lines| ==> lines[j] == lines[1..][j - 1];
    }
  }

  /**
   * Scanning a concatenation: the second part is consulted only when nothing in
   * the first part qualifies.
   */
  lemma {:induction false} FirstTimestampAppend(front: seq<string>, back: seq<string>, parse: string -> LineParse)
    ensures FirstTimestamp(front + back, parse)
         == if FirstTimestamp(front, parse).Some? then FirstTimestamp(front, parse) else FirstTimestamp(back, parse)
  {
    if |front| > 0 {
      assert (front + back)[0] == front[0];
      assert (front + back)[1..] == front[1..] + back;
      FirstTimestampAppend(front[1..], back, parse);
    } else {
      assert front + back == back;
    }
  }
}
