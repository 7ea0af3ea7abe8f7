/**
 * The chat request's response reader (`sendMessage`): it reads the body
 * chunk by chunk, splits each decoded chunk on '\n' on its own (no text is
 * carried over from one read to the next), keeps the lines whose trimmed
 * form starts with "data:", parses the payload and reports every parsed
 * record through `onChunk`, then `onComplete` once; any failure before or
 * during reading is reported through `onError` once.
 *
 * Text decoding is not modelled: a read yields the decoded text directly.
 * JSON parsing is the parameter `parse`, `None` standing for a parse error.
 */
module ChatStream {
  import opened Wrappers
  import opened Text
  import opened ChatTypes

  /** How the body ends once every chunk has been read: `done`, or a failing read. */
  datatype Ending = Done | ReadFailed

  /** One callback invocation, in the order the reader makes them. */
  datatype Signal = OnChunk(response: ChatResponse) | OnComplete | OnError

  /** `response.ok`: a status in the 200..299 range. */
  predicate StatusOk(status: int) {
    200 <= status <= 299
  }

  /**
   * The JSON text of a stream line, or `None` when the trimmed line does not
   * start with "data:". After "data: " six characters are dropped, after a
   * bare "data:" five.
   */
  function Payload(line: string): (r: Option<string>)
    ensures r.Some? <==> StartsWith(Trim(line), "data:")
    ensures r.Some? ==>
      Trim(line) == (if StartsWith(Trim(line), "data: ") then "data: " else "data:") + r.value
  {
    var t := Trim(line);
    assert StartsWith(t, "data:") ==> t == t[..5] + t[5..];
    assert StartsWith(t, "data: ") ==> t == t[..6] + t[6..];
    if !StartsWith(t, "data:") then None
    else if StartsWith(t, "data: ") then Some(t[6..])
    else Some(t[5..])
  }

  /** A payload written after either prefix is read back unchanged. */
  lemma PayloadRoundTrip(p: string)
    requires Trim(p) == p
    ensures Payload("data: " + p) == Some(p)
    ensures Payload("data:" + p) == Some(p)
  {
    if p == [] {
      assert "data: " + p == "data: " && "data:" + p == "data:";
      PayloadDataSpace();
      PayloadDataBare();
    } else {
      PayloadRoundTripSpaced(p);
      PayloadRoundTripBare(p);
    }
  }

  lemma PayloadDataSpace()
    ensures Payload("data: ") == Some("")
  {
    TrimDataSpace();
    PayloadDataBare();
  }

  lemma PayloadDataBare()
    ensures Payload("data:") == Some("")
  {
    TrimUntrimmed("data:");
    PrefixFacts("data:", "");
    NoSpaceAfterPrefix("");
    PayloadOf("data:", "data:", "", false);
  }

  /** The trailing blank of "data: " is trimmed away. */
  lemma TrimDataSpace()
    ensures Trim("data: ") == "data:"
  {
    var a := "data: ";
    assert !IsSpace(a[0]) && IsSpace(a[5]);
    assert TrimStart(a) == a;
    assert a[..5] == "data:";
    assert TrimEnd("data:") == "data:";
  }

  lemma PayloadRoundTripSpaced(p: string)
    requires p != [] && !IsSpace(p[0]) && !IsSpace(p[|p| - 1])
    ensures Payload("data: " + p) == Some(p)
  {
    var a := "data: " + p;
    PrefixFacts("data: ", p);
    assert a[0] == 'd' && a[|a| - 1] == p[|p| - 1];
    TrimUntrimmed(a);
    StartsWithPrefix(a, "data: ", "data:");
    PayloadOf(a, a, p, true);
  }

  lemma PayloadRoundTripBare(p: string)
    requires p != [] && !IsSpace(p[0]) && !IsSpace(p[|p| - 1])
    ensures Payload("data:" + p) == Some(p)
  {
    var b := "data:" + p;
    PrefixFacts("data:", p);
    assert b[0] == 'd' && b[|b| - 1] == p[|p| - 1];
    TrimUntrimmed(b);
    NoSpaceAfterPrefix(p);
    PayloadOf(b, b, p, false);
  }

  lemma PrefixFacts(pre: string, p: string)
    ensures StartsWith(pre + p, pre) && (pre + p)[|pre|..] == p
  {
    assert (pre + p)[..|pre|] == pre;
  }

  lemma NoSpaceAfterPrefix(p: string)
    requires p == [] || p[0] != ' '
    ensures !StartsWith("data:" + p, "data: ")
  {
    var b := "data:" + p;
    if p != [] {
      assert b[5] == p[0];
      assert b[..6][5] != "data: "[5];
    }
  }

  /** `Payload` of a line whose trimmed form `t` is a data line. */
  lemma PayloadOf(line: string, t: string, p: string, withSpace: bool)
    requires Trim(line) == t
    requires StartsWith(t, "data:")
    requires StartsWith(t, "data: ") == withSpace
    requires p == if withSpace then t[6..] else t[5..]
    ensures Payload(line) == Some(p)
  {
  }

  /** The records one line yields: none for a non-data line, an empty payload or a parse failure. */
  function LineEvents(line: string, parse: string -> Option<ChatResponse>): (r: seq<ChatResponse>)
    ensures |r| <= 1
    ensures r != [] ==> Payload(line).Some? && parse(Payload(line).value) == Some(r[0])
  {
    match Payload(line)
    case None => []
    case Some(p) =>
      if p == "" then []
      else match parse(p)
        case None => []
        case Some(e) => [e]
  }

  /**
   * A line yields at most one record, and one exactly when it is a data line
   * with a non-empty payload that parses; the record is the parsed payload.
   */
  lemma LineEventsSpec(line: string, parse: string -> Option<ChatResponse>)
    ensures var es := LineEvents(line, parse);
      && |es| <= 1
      && (es != [] <==> Payload(line).Some? && Payload(line).value != "" && parse(Payload(line).value).Some?)
      && (es != [] ==> es[0] == parse(Payload(line).value).value)
  {
  }

  /** The records of a list of lines, in line order. */
  function LinesEvents(lines: seq<string>, parse: string -> Option<ChatResponse>): seq<ChatResponse>
  {
    if lines == [] then [] else LineEvents(lines[0], parse) + LinesEvents(lines[1..], parse)
  }

  /** The records of one read: its text split on '\n' by itself. */
  function ChunkEvents(chunk: string, parse: string -> Option<ChatResponse>): seq<ChatResponse>
  {
    LinesEvents(Split(chunk, '\n'), parse)
  }

  /** The records of a sequence of reads, read by read. */
  function StreamEvents(chunks: seq<string>, parse: string -> Option<ChatResponse>): seq<ChatResponse>
  {
    if chunks == [] then [] else StreamEvents(chunks[..|chunks| - 1], parse) + ChunkEvents(chunks[|chunks| - 1], parse)
  }

  function ChunkSignals(es: seq<ChatResponse>): seq<Signal>
  {
    if es == [] then [] else ChunkSignals(es[..|es| - 1]) + [OnChunk(es[|es| - 1])]
  }

  /** Every callback `sendMessage` makes, in order, for a response and its reads. */
  function Signals(status: int, hasBody: bool, chunks: seq<string>, ending: Ending,
                   parse: string -> Option<ChatResponse>): (r: seq<Signal>)
    ensures |r| >= 1
    ensures r[|r| - 1] == OnComplete <==> StatusOk(status) && hasBody && ending == Done
  {
    if !StatusOk(status) || !hasBody then [OnError]
    else ChunkSignals(StreamEvents(chunks, parse)) + [if ending == Done then OnComplete else OnError]
  }

  /**
   * The read loop. `chunks` are the texts the successive reads return, and
   * `ending` what the read after the last one does. `chunkCount` counts the
   * records handed to `onChunk`.
   */
  method SendMessage(status: int, hasBody: bool, chunks: seq<string>, ending: Ending,
                     parse: string -> Option<ChatResponse>)
    returns (signals: seq<Signal>, chunkCount: nat)
    ensures signals == Signals(status, hasBody, chunks, ending, parse)
    ensures StatusOk(status) && hasBody ==> chunkCount == |StreamEvents(chunks, parse)|
  {
    chunkCount := 0;
    if !StatusOk(status) || !hasBody {
      signals := [OnError];
      return;
    }
    signals := [];
    ghost var events: seq<ChatResponse> := [];
    var i := 0;
    while true
      invariant 0 <= i <= |chunks|
      invariant events == StreamEvents(chunks[..i], parse)
      invariant signals == ChunkSignals(events) && chunkCount == |events|
      decreases |chunks| - i
    {
      if i == |chunks| {
        assert chunks[..i] == chunks;
        if ending == ReadFailed {
          signals := signals + [OnError];
          return;
        }
        break;
      }
      var chunk := chunks[i];
      StreamEventsStep(chunks, i, parse);
      ChunkSignalsAppend(events, ChunkEvents(chunk, parse));
      events := events + ChunkEvents(chunk, parse);
      i := i + 1;
      signals, chunkCount := ReadChunk(chunk, parse, signals, chunkCount);
    }
    signals := signals + [OnComplete];
  }

  /**
   * The body of the read loop: the chunk's lines, in order, each handed to
   * `onChunk` when it yields a record; `chunkCount` grows by one per record.
   */
  method ReadChunk(chunk: string, parse: string -> Option<ChatResponse>, signals0: seq<Signal>, count0: nat)
    returns (signals: seq<Signal>, chunkCount: nat)
    ensures signals == signals0 + ChunkSignals(ChunkEvents(chunk, parse))
    ensures chunkCount == count0 + |ChunkEvents(chunk, parse)|
  {
    signals, chunkCount := signals0, count0;
    var lines := Split(chunk, '\n');
    for k := 0 to |lines|
      invariant signals == signals0 + ChunkSignals(LinesEvents(lines[..k], parse))
      invariant chunkCount == count0 + |LinesEvents(lines[..k], parse)|
    {
      signals, chunkCount := ReadNextLine(lines, k, parse, signals0, count0, signals, chunkCount);
    }
    assert lines[..|lines|] == lines;
  }

  /** One turn of the line loop: the line's record, if any, goes to `onChunk` and is counted. */
  method ReadNextLine(lines: seq<string>, k: nat, parse: string -> Option<ChatResponse>,
                      signals0: seq<Signal>, count0: nat, signals: seq<Signal>, chunkCount: nat)
    returns (signals': seq<Signal>, chunkCount': nat)
    requires k < |lines|
    requires signals == signals0 + ChunkSignals(LinesEvents(lines[..k], parse))
    requires chunkCount == count0 + |LinesEvents(lines[..k], parse)|
    ensures signals' == signals0 + ChunkSignals(LinesEvents(lines[..k + 1], parse))
    ensures chunkCount' == count0 + |LinesEvents(lines[..k + 1], parse)|
  {
    ghost var events := LinesEvents(lines[..k], parse);
    var parsed := ReadLine(lines[k], parse);
    ReadChunkStep(lines, k, parse, events, parsed);
    signals', chunkCount' := signals, chunkCount;
    if parsed.Some? {
      signals' := signals + [OnChunk(parsed.value)];
      chunkCount' := chunkCount + 1;
    }
  }

  /** One turn of the line loop keeps the loop's records equal to those of the lines read so far. */
  lemma ReadChunkStep(lines: seq<string>, k: nat, parse: string -> Option<ChatResponse>,
                      events: seq<ChatResponse>, parsed: Option<ChatResponse>)
    requires k < |lines|
    requires events == LinesEvents(lines[..k], parse)
    requires LineEvents(lines[k], parse) == if parsed.Some? then [parsed.value] else []
    ensures parsed.None? ==> events == LinesEvents(lines[..k + 1], parse)
    ensures parsed.Some? ==> events + [parsed.value] == LinesEvents(lines[..k + 1], parse)
    ensures parsed.Some? ==> ChunkSignals(events + [parsed.value]) == ChunkSignals(events) + [OnChunk(parsed.value)]
  {
    LinesEventsStep(lines, k, parse);
    if parsed.Some? {
      ChunkSignalsSnoc(events, parsed.value);
    } else {
      assert events + [] == events;
    }
  }

  /**
   * The body of the line loop: trim, keep a data line, drop its prefix and
   * parse a non-empty payload; `None` when the line hands nothing to `onChunk`.
   */
  method ReadLine(line: string, parse: string -> Option<ChatResponse>) returns (parsed: Option<ChatResponse>)
    ensures LineEvents(line, parse) == if parsed.Some? then [parsed.value] else []
  {
    parsed := None;
    var trimmed := Trim(line);
    if StartsWith(trimmed, "data:") {
      var json := if StartsWith(trimmed, "data: ") then trimmed[6..] else trimmed[5..];
      PayloadOf(line, trimmed, json, StartsWith(trimmed, "data: "));
      if json != "" {
        parsed := parse(json);
      }
    }
  }

  lemma StreamEventsStep(chunks: seq<string>, i: nat, parse: string -> Option<ChatResponse>)
    requires i < |chunks|
    ensures StreamEvents(chunks[..i + 1], parse) == StreamEvents(chunks[..i], parse) + ChunkEvents(chunks[i], parse)
  {
    assert chunks[..i + 1][..i] == chunks[..i];
  }

  lemma LinesEventsStep(lines: seq<string>, k: nat, parse: string -> Option<ChatResponse>)
    requires k < |lines|
    ensures LinesEvents(lines[..k + 1], parse) == LinesEvents(lines[..k], parse) + LineEvents(lines[k], parse)
  {
    assert lines[..k + 1] == lines[..k] + [lines[k]];
    LinesEventsSnoc(lines[..k], lines[k], parse);
  }

  lemma {:induction false} ChunkSignalsAppend(a: seq<ChatResponse>, b: seq<ChatResponse>)
    ensures ChunkSignals(a + b) == ChunkSignals(a) + ChunkSignals(b)
    decreases |b|
  {
    if b == [] {
      assert a + b == a;
    } else {
      var b' := b[..|b| - 1];
      assert a + b == (a + b') + [b[|b| - 1]];
      ChunkSignalsSnoc(a + b', b[|b| - 1]);
      ChunkSignalsSnoc(b', b[|b| - 1]);
      assert b == b' + [b[|b| - 1]];
      ChunkSignalsAppend(a, b');
    }
  }

  lemma ChunkSignalsSnoc(es: seq<ChatResponse>, e: ChatResponse)
    ensures ChunkSignals(es + [e]) == ChunkSignals(es) + [OnChunk(e)]
  {
    assert (es + [e])[..|es|] == es;
  }

  lemma LinesEventsSnoc(lines: seq<string>, line: string, parse: string -> Option<ChatResponse>)
    ensures LinesEvents(lines + [line], parse) == LinesEvents(lines, parse) + LineEvents(line, parse)
  {
    LinesEventsAppend(lines, [line], parse);
    LinesEventsSingle(line, parse);
  }

  /** Lines are independent: a line that yields nothing does not stop the lines after it. */
  lemma {:induction false} LinesEventsAppend(a: seq<string>, b: seq<string>, parse: string -> Option<ChatResponse>)
    ensures LinesEvents(a + b, parse) == LinesEvents(a, parse) + LinesEvents(b, parse)
    decreases |a|
  {
    if a == [] {
      assert a + b == b;
    } else {
      assert (a + b)[1..] == a[1..] + b;
      LinesEventsAppend(a[1..], b, parse);
    }
  }

  /** Reads are independent: the records of two runs of reads are the records of each run. */
  lemma {:induction false} StreamEventsAppend(a: seq<string>, b: seq<string>, parse: string -> Option<ChatResponse>)
    ensures StreamEvents(a + b, parse) == StreamEvents(a, parse) + StreamEvents(b, parse)
    decreases |b|
  {
    if b != [] {
      assert (a + b)[..|a + b| - 1] == a + b[..|b| - 1];
      StreamEventsAppend(a, b[..|b| - 1], parse);
    } else {
      assert a + b == a;
    }
  }

  /**
   * No carry-over between reads: when one record line is cut in two reads
   * (`x` then `y` followed by '\n'), each half is read as a line of its own.
   */
  lemma SplitRecordReadAsTwoLines(x: string, y: string, parse: string -> Option<ChatResponse>)
    requires '\n' !in x && '\n' !in y
    ensures StreamEvents([x, y + "\n"], parse) == LineEvents(x, parse) + LineEvents(y, parse)
  {
    TwoReads(x, y + "\n", parse);
    UnterminatedRead(x, parse);
    TerminatedRead(y, parse);
  }

  /** Two reads yield the first read's records, then the second's. */
  lemma TwoReads(c1: string, c2: string, parse: string -> Option<ChatResponse>)
    ensures StreamEvents([c1, c2], parse) == ChunkEvents(c1, parse) + ChunkEvents(c2, parse)
  {
    assert [c1, c2][..1] == [c1];
    assert StreamEvents([c1], parse) == ChunkEvents(c1, parse);
  }

  /** A read holding no '\n' is one line. */
  lemma UnterminatedRead(x: string, parse: string -> Option<ChatResponse>)
    requires '\n' !in x
    ensures ChunkEvents(x, parse) == LineEvents(x, parse)
  {
    SplitNoSeparator(x, '\n');
    LinesEventsSingle(x, parse);
  }

  /** A one-line list yields that line's records. */
  lemma LinesEventsSingle(line: string, parse: string -> Option<ChatResponse>)
    ensures LinesEvents([line], parse) == LineEvents(line, parse)
  {
    assert [line][1..] == [];
  }

  /** A read ending in its only '\n' is that line followed by an empty one, which yields nothing. */
  lemma TerminatedRead(y: string, parse: string -> Option<ChatResponse>)
    requires '\n' !in y
    ensures ChunkEvents(y + "\n", parse) == LineEvents(y, parse)
  {
    SplitAround(y, '\n', "");
    assert y + "\n" == y + ['\n'] + "";
    SplitNoSeparator("", '\n');
    assert LineEvents("", parse) == [] by { assert Trim("") == ""; }
    assert [y] + [""] == [y, ""];
    assert [y, ""][1..] == [""];
    LinesEventsSingle("", parse);
  }

  /**
   * The callbacks form one of two shapes: a single `onError`, or `onChunk`
   * calls followed by exactly one final `onComplete` or `onError`.
   * `onComplete` is made exactly when the status is ok, the body exists and
   * the reads end with `done`.
   */
  lemma SignalsShape(status: int, hasBody: bool, chunks: seq<string>, ending: Ending,
                     parse: string -> Option<ChatResponse>)
    ensures var ss := Signals(status, hasBody, chunks, ending, parse);
      && |ss| >= 1
      && (forall k :: 0 <= k < |ss| - 1 ==> ss[k].OnChunk?)
      && !ss[|ss| - 1].OnChunk?
      && (ss[|ss| - 1] == OnComplete <==> StatusOk(status) && hasBody && ending == Done)
      && (!StatusOk(status) ==> ss == [OnError])
  {
    if StatusOk(status) && hasBody {
      var es := StreamEvents(chunks, parse);
      var last := if ending == Done then OnComplete else OnError;
      ChunkSignalsAreChunks(es);
      LastOfSnoc(ChunkSignals(es), last);
    }
  }

  /** The i-th record becomes the i-th `onChunk` call. */
  lemma {:induction false} ChunkSignalsAreChunks(es: seq<ChatResponse>)
    ensures |ChunkSignals(es)| == |es|
    ensures forall k :: 0 <= k < |es| ==> ChunkSignals(es)[k] == OnChunk(es[k])
    decreases |es|
  {
    if es != [] {
      ChunkSignalsAreChunks(es[..|es| - 1]);
    }
  }

  lemma LastOfSnoc(xs: seq<Signal>, t: Signal)
    requires forall k :: 0 <= k < |xs| ==> xs[k].OnChunk?
    ensures var ss := xs + [t];
      |ss| == |xs| + 1 && ss[|xs|] == t && forall k :: 0 <= k < |ss| - 1 ==> ss[k].OnChunk?
  {
  }

  /** A non-data line yields no record, whatever `parse` does. */
  lemma NonDataLineIgnored(line: string, parse: string -> Option<ChatResponse>)
    requires !StartsWith(Trim(line), "data:")
    ensures LineEvents(line, parse) == []
  {
  }
}
