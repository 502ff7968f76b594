/**
 * The streamed reply reconciler shared by both chat views: each decoded
 * chunk is split on '\n', blank lines are dropped, and each remaining line
 * is parsed as one event. An event with `complete === true` ends the
 * current chunk (not the stream); a non-empty `text` replaces the reply
 * text; anything else, including a line that does not parse, is skipped.
 * Chunks are not buffered: a line split over two chunks is two lines.
 *
 * `JSON.parse` is the parameter `parse`, which maps a line to the event it
 * denotes. A line whose parse throws, or whose value has no properties to
 * read (`null`), is `Malformed`.
 */
module Reconciler {
  import opened Wrappers
  import opened JsText
  import opened Http

  /** A parsed stream line: `completeIsTrue` is `data.complete === true`; `text` is `data.text` when it is a string. */
  datatype Event = Malformed | Obj(completeIsTrue: bool, text: Option<string>)

  /** The reconciler's state: the accumulated text, and whether any event has set it. */
  datatype Reply = Reply(text: string, committed: bool)

  const Fresh: Reply := Reply("", false)

  /** An event that ends the current chunk. */
  predicate Stops(e: Event) {
    e.Obj? && e.completeIsTrue
  }

  /** An event that replaces the accumulated text. */
  predicate Commits(e: Event) {
    e.Obj? && !e.completeIsTrue && e.text.Some? && e.text.value != ""
  }

  /** The lines of one chunk, in order, up to the first completion signal. */
  function ProcessLines(r: Reply, lines: seq<string>, parse: string -> Event): Reply
    decreases |lines|
  {
    if lines == [] then r
    else
      var e := parse(lines[0]);
      if Stops(e) then r
      else if Commits(e) then ProcessLines(Reply(e.text.value, true), lines[1..], parse)
      else ProcessLines(r, lines[1..], parse)
  }

  /** One decoded chunk. */
  function ProcessChunk(r: Reply, chunk: string, parse: string -> Event): Reply {
    ProcessLines(r, NonBlankLines(chunk), parse)
  }

  /** Every chunk in arrival order; a completion signal in one chunk does not end the stream. */
  function ProcessStream(r: Reply, chunks: seq<string>, parse: string -> Event): Reply
    decreases |chunks|
  {
    if chunks == [] then r
    else ProcessStream(ProcessChunk(r, chunks[0], parse), chunks[1..], parse)
  }

  // ---------------------------------------------------------------------------
  // Reference definition: the texts that take effect, and the last one of them

  /** The non-empty texts of a chunk's lines before its first completion signal. */
  function CommittedTexts(lines: seq<string>, parse: string -> Event): (ts: seq<string>)
    ensures forall k :: 0 <= k < |ts| ==> ts[k] != ""
    decreases |lines|
  {
    if lines == [] then []
    else
      var e := parse(lines[0]);
      if Stops(e) then []
      else if Commits(e) then [e.text.value] + CommittedTexts(lines[1..], parse)
      else CommittedTexts(lines[1..], parse)
  }

  /** The committed texts of a whole stream, chunk after chunk. */
  function StreamTexts(chunks: seq<string>, parse: string -> Event): (ts: seq<string>)
    ensures forall k :: 0 <= k < |ts| ==> ts[k] != ""
    decreases |chunks|
  {
    if chunks == [] then []
    else CommittedTexts(NonBlankLines(chunks[0]), parse) + StreamTexts(chunks[1..], parse)
  }

  /** The reply left after texts `ts` took effect, in order, on top of `r`. */
  function AfterTexts(r: Reply, ts: seq<string>): Reply {
    if ts == [] then r else Reply(ts[|ts| - 1], true)
  }

  lemma AfterTextsAppend(r: Reply, a: seq<string>, b: seq<string>)
    ensures AfterTexts(AfterTexts(r, a), b) == AfterTexts(r, a + b)
  {
    if b != [] {
      assert (a + b)[|a + b| - 1] == b[|b| - 1];
    }
  }

  /** Processing a chunk's lines leaves the last text that took effect, or the reply untouched. */
  lemma {:induction false} ProcessLinesIsLastText(r: Reply, lines: seq<string>, parse: string -> Event)
    ensures ProcessLines(r, lines, parse) == AfterTexts(r, CommittedTexts(lines, parse))
    decreases |lines|
  {
    if lines != [] {
      var e := parse(lines[0]);
      if !Stops(e) {
        if Commits(e) {
          var t := e.text.value;
          ProcessLinesIsLastText(Reply(t, true), lines[1..], parse);
          AfterTextsAppend(r, [t], CommittedTexts(lines[1..], parse));
        } else {
          ProcessLinesIsLastText(r, lines[1..], parse);
        }
      }
    }
  }

  /**
   * The final reply of a stream is the last non-empty text any chunk
   * committed (before that chunk's completion signal), or the starting
   * reply when no event committed a text.
   */
  lemma {:induction false} ProcessStreamIsLastText(r: Reply, chunks: seq<string>, parse: string -> Event)
    ensures ProcessStream(r, chunks, parse) == AfterTexts(r, StreamTexts(chunks, parse))
    decreases |chunks|
  {
    if chunks != [] {
      var here := CommittedTexts(NonBlankLines(chunks[0]), parse);
      ProcessLinesIsLastText(r, NonBlankLines(chunks[0]), parse);
      ProcessStreamIsLastText(ProcessChunk(r, chunks[0], parse), chunks[1..], parse);
      AfterTextsAppend(r, here, StreamTexts(chunks[1..], parse));
    }
  }

  /** A fresh reply ends with the last text of the stream, or "" when there was none. */
  lemma FinalTextOfStream(chunks: seq<string>, parse: string -> Event)
    ensures var ts := StreamTexts(chunks, parse);
      var r := ProcessStream(Fresh, chunks, parse);
      && r.committed == (ts != [])
      && r.text == (if ts == [] then "" else ts[|ts| - 1])
  {
    ProcessStreamIsLastText(Fresh, chunks, parse);
  }

  // ---------------------------------------------------------------------------
  // Line-level properties

  /** A completion signal ends the chunk: nothing after it matters, and it never changes the text. */
  lemma {:induction false} CompleteEndsChunk(r: Reply, pre: seq<string>, line: string, post: seq<string>, parse: string -> Event)
    requires Stops(parse(line))
    ensures ProcessLines(r, pre + [line] + post, parse) == ProcessLines(r, pre, parse)
    decreases |pre|
  {
    var lines := pre + [line] + post;
    if pre == [] {
      assert lines[0] == line;
    } else {
      assert lines[0] == pre[0];
      assert lines[1..] == pre[1..] + [line] + post;
      var e := parse(pre[0]);
      if Commits(e) {
        CompleteEndsChunk(Reply(e.text.value, true), pre[1..], line, post, parse);
      } else if !Stops(e) {
        CompleteEndsChunk(r, pre[1..], line, post, parse);
      }
    }
  }

  /** An event that neither completes nor carries a non-empty text: a malformed line, `{"text": ""}`, `{}`. */
  predicate Inert(e: Event) {
    !Stops(e) && !Commits(e)
  }

  /** An inert line is skipped: the lines before and after it are processed as if it were absent. */
  lemma {:induction false} InertLineSkipped(r: Reply, pre: seq<string>, line: string, post: seq<string>, parse: string -> Event)
    requires Inert(parse(line))
    ensures ProcessLines(r, pre + [line] + post, parse) == ProcessLines(r, pre + post, parse)
    decreases |pre|
  {
    var lines := pre + [line] + post;
    if pre == [] {
      assert lines[0] == line && lines[1..] == post;
      assert pre + post == post;
    } else {
      assert lines[0] == pre[0] && (pre + post)[0] == pre[0];
      assert lines[1..] == pre[1..] + [line] + post;
      assert (pre + post)[1..] == pre[1..] + post;
      var e := parse(pre[0]);
      if Commits(e) {
        InertLineSkipped(Reply(e.text.value, true), pre[1..], line, post, parse);
      } else if !Stops(e) {
        InertLineSkipped(r, pre[1..], line, post, parse);
      }
    }
  }

  /** In particular, an event with an empty text changes nothing. */
  lemma EmptyTextIgnored(r: Reply, line: string, parse: string -> Event)
    requires parse(line) == Obj(false, Some(""))
    ensures ProcessLines(r, [line], parse) == r
  {
  }

  /** Replaying a full-text event right after itself is a no-op. */
  lemma {:induction false} DuplicateEventNoop(r: Reply, pre: seq<string>, line: string, post: seq<string>, parse: string -> Event)
    ensures ProcessLines(r, pre + [line, line] + post, parse) == ProcessLines(r, pre + [line] + post, parse)
    decreases |pre|
  {
    var twice, once := pre + [line, line] + post, pre + [line] + post;
    if pre == [] {
      assert twice[0] == line && twice[1..] == [line] + post;
      assert once[0] == line && once[1..] == post;
      assert ([line] + post)[0] == line && ([line] + post)[1..] == post;
    } else {
      assert twice[0] == pre[0] && once[0] == pre[0];
      assert twice[1..] == pre[1..] + [line, line] + post;
      assert once[1..] == pre[1..] + [line] + post;
      var e := parse(pre[0]);
      if Commits(e) {
        DuplicateEventNoop(Reply(e.text.value, true), pre[1..], line, post, parse);
      } else if !Stops(e) {
        DuplicateEventNoop(r, pre[1..], line, post, parse);
      }
    }
  }

  // ---------------------------------------------------------------------------
  // Chunk-level properties

  /** Delivering the same chunk twice in a row leaves the same reply as delivering it once. */
  lemma ReplayedChunkNoop(r: Reply, chunk: string, parse: string -> Event)
    ensures ProcessChunk(ProcessChunk(r, chunk, parse), chunk, parse) == ProcessChunk(r, chunk, parse)
  {
    var lines := NonBlankLines(chunk);
    ProcessLinesIsLastText(r, lines, parse);
    ProcessLinesIsLastText(ProcessChunk(r, chunk, parse), lines, parse);
  }

  /**
   * A chunk none of whose lines parses to a completion or a non-empty text
   * leaves the reply as it was; this is what happens to the two halves of
   * an object that a chunk boundary cuts in two.
   */
  lemma InertChunkNoop(r: Reply, chunk: string, parse: string -> Event)
    requires forall k :: 0 <= k < |NonBlankLines(chunk)| ==> Inert(parse(NonBlankLines(chunk)[k]))
    ensures ProcessChunk(r, chunk, parse) == r
  {
    InertLinesNoop(r, NonBlankLines(chunk), parse);
  }

  lemma {:induction false} InertLinesNoop(r: Reply, lines: seq<string>, parse: string -> Event)
    requires forall k :: 0 <= k < |lines| ==> Inert(parse(lines[k]))
    ensures ProcessLines(r, lines, parse) == r
    decreases |lines|
  {
    if lines != [] {
      assert Inert(parse(lines[0]));
      InertLinesNoop(r, lines[1..], parse);
    }
  }

  /**
   * A completion signal ends only its own chunk: a non-empty text in the
   * next chunk still replaces the reply.
   */
  lemma LaterChunkAfterComplete(r: Reply, first: string, second: string, t: string, parse: string -> Event)
    requires exists k :: 0 <= k < |NonBlankLines(first)| && Stops(parse(NonBlankLines(first)[k]))
    requires NonBlankLines(second) == [second] && parse(second) == Obj(false, Some(t)) && t != ""
    ensures ProcessStream(r, [first, second], parse) == Reply(t, true)
  {
    var mid := ProcessChunk(r, first, parse);
    assert [first, second][1..] == [second];
    assert [second][1..] == [];
    assert ProcessStream(r, [first, second], parse) == ProcessStream(mid, [second], parse);
    assert ProcessStream(mid, [second], parse) == ProcessChunk(mid, second, parse);
    assert ProcessLines(mid, [second], parse) == ProcessLines(Reply(t, true), [], parse);
  }

  // ---------------------------------------------------------------------------
  // Outcome of reading a body

  /** How a send ends: a failure (with the reply built so far once a placeholder exists), or a finished reply. */
  datatype Outcome = Failed(thrown: Thrown, partial: Option<Reply>) | Completed(reply: Reply)

  /** Reading a whole body: every chunk, then either the end of the stream or the read that threw. */
  function StreamOutcome(body: Stream, parse: string -> Event): (o: Outcome)
    ensures o.Completed? <==> body.end.Done?
    ensures o.Failed? ==> o.thrown == body.end.thrown && o.partial.Some?
  {
    var r := ProcessStream(Fresh, body.chunks, parse);
    match body.end
    case Done => Completed(r)
    case ReadFailed(t) => Failed(t, Some(r))
  }
}
