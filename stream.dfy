/**
 * The streaming relay loop: fragments read from the upstream completion are
 * filtered, accumulated into the assistant's answer and forwarded to the
 * caller as frames, followed by one terminal frame.
 */
module Stream {
  import opened Wrappers

  /**
   * A server-sent event: `Delta` is `{content, done: false}`, `Done` is
   * `{content: "", done: true}`, `Failed` is `{error, done: true}`.
   */
  datatype Frame = Delta(content: string) | Done | Failed(error: string) {
    /** The frame's `done` flag. */
    predicate IsTerminal() {
      !Delta?
    }
  }

  /** How the upstream completion ended: its end marker, or an error thrown after the chunks received so far. */
  datatype Outcome = Finished | Broke

  /**
   * The upstream completion as the relay sees it: the content field of each
   * chunk in arrival order (`None` where the chunk carries no content), and
   * how the stream ended. An error thrown by the request itself is `Broke`
   * with no chunks.
   */
  datatype Upstream = Upstream(chunks: seq<Option<string>>, outcome: Outcome)

  /** The message of the terminal frame sent when the upstream fails. */
  const StreamError: string := "Error generating response"

  /** The text of one chunk; absent content reads as the empty string. */
  function Fragment(chunk: Option<string>): string {
    chunk.GetOr("")
  }

  /** The non-empty fragments of `chunks`, in arrival order: those the relay forwards. */
  function Forwarded(chunks: seq<Option<string>>): (r: seq<string>)
    ensures |r| <= |chunks|
    ensures forall i :: 0 <= i < |r| ==> r[i] != ""
    decreases |chunks|
  {
    if chunks == [] then []
    else
      var last := Fragment(chunks[|chunks| - 1]);
      Forwarded(chunks[..|chunks| - 1]) + (if last != "" then [last] else [])
  }

  /** The fragments joined in order. */
  function Concat(fragments: seq<string>): string
    decreases |fragments|
  {
    if fragments == [] then "" else Concat(fragments[..|fragments| - 1]) + fragments[|fragments| - 1]
  }

  /** The text of every chunk, empty ones included. */
  function Texts(chunks: seq<Option<string>>): seq<string> {
    seq(|chunks|, i requires 0 <= i < |chunks| => Fragment(chunks[i]))
  }

  /** One data frame per forwarded fragment. */
  function DeltaFrames(fragments: seq<string>): seq<Frame> {
    seq(|fragments|, i requires 0 <= i < |fragments| => Delta(fragments[i]))
  }

  /** The answer the relay accumulates from the upstream. */
  function Answer(up: Upstream): string {
    Concat(Forwarded(up.chunks))
  }

  /** Every frame written for one upstream completion, the terminal frame last. */
  function Frames(up: Upstream): seq<Frame> {
    DeltaFrames(Forwarded(up.chunks)) + [if up.outcome == Finished then Done else Failed(StreamError)]
  }

  /** What a caller reading `frames` assembles: the contents of the data frames before the first terminal frame. */
  function Received(frames: seq<Frame>): string
    decreases |frames|
  {
    if frames == [] || frames[0].IsTerminal() then "" else frames[0].content + Received(frames[1..])
  }

  /**
   * The relay loop: each chunk's text, when non-empty, is appended to the
   * accumulator and written as one data frame. The accumulator is the join of
   * the fragments forwarded so far.
   */
  method Pump(chunks: seq<Option<string>>) returns (answer: string, frames: seq<Frame>)
    ensures frames == DeltaFrames(Forwarded(chunks))
    ensures answer == Concat(Forwarded(chunks))
  {
    answer, frames := "", [];
    var i := 0;
    while i < |chunks|
      invariant 0 <= i <= |chunks|
      invariant frames == DeltaFrames(Forwarded(chunks[..i]))
      invariant answer == Concat(Forwarded(chunks[..i]))
    {
      var content := Fragment(chunks[i]);
      ghost var done := Forwarded(chunks[..i]);
      assert chunks[..i + 1][..i] == chunks[..i];
      assert Forwarded(chunks[..i + 1]) == done + (if content != "" then [content] else []);
      if content != "" {
        assert (done + [content])[..|done|] == done;
        answer := answer + content;
        frames := frames + [Delta(content)];
      } else {
        assert done + [] == done;
      }
      i := i + 1;
    }
    assert chunks[..i] == chunks;
  }

  lemma {:induction false} ConcatAppend(a: seq<string>, b: seq<string>)
    ensures Concat(a + b) == Concat(a) + Concat(b)
    decreases |b|
  {
    if b == [] {
      assert a + b == a;
    } else {
      var b' := b[..|b| - 1];
      assert (a + b)[..|a + b| - 1] == a + b';
      ConcatAppend(a, b');
    }
  }

  /** A single chunk is forwarded as one fragment when its text is non-empty, and dropped otherwise. */
  lemma ForwardedSingle(c: Option<string>)
    ensures Forwarded([c]) == if Fragment(c) != "" then [Fragment(c)] else []
  {
    assert [c][..0] == [];
  }

  /**
   * Forwarding distributes over arrival order: the fragments of `a + b` are
   * those of `a` followed by those of `b`, so each non-empty chunk is
   * forwarded once, in place.
   */
  lemma {:induction false} ForwardedAppend(a: seq<Option<string>>, b: seq<Option<string>>)
    ensures Forwarded(a + b) == Forwarded(a) + Forwarded(b)
    decreases |b|
  {
    if b == [] {
      assert a + b == a;
    } else {
      var b' := b[..|b| - 1];
      var last := Fragment(b[|b| - 1]);
      var tail := if last != "" then [last] else [];
      assert (a + b)[..|a + b| - 1] == a + b';
      assert (a + b)[|a + b| - 1] == b[|b| - 1];
      ForwardedAppend(a, b');
      assert Forwarded(a + b) == Forwarded(a) + Forwarded(b') + tail;
      assert Forwarded(b) == Forwarded(b') + tail;
    }
  }

  /** Leaving out the empty fragments does not change the answer: it is the whole upstream text. */
  lemma {:induction false} AnswerIsWholeText(chunks: seq<Option<string>>)
    ensures Concat(Forwarded(chunks)) == Concat(Texts(chunks))
    decreases |chunks|
  {
    if chunks != [] {
      var init := chunks[..|chunks| - 1];
      var last := Fragment(chunks[|chunks| - 1]);
      AnswerIsWholeText(init);
      assert Texts(chunks) == Texts(init) + [last];
      ConcatAppend(Forwarded(init), if last != "" then [last] else []);
      ConcatAppend(Texts(init), [last]);
    }
  }

  /** Reading the data frames back gives the fragments joined in order. */
  lemma {:induction false} ReceivedDeltas(fragments: seq<string>, tail: seq<Frame>)
    requires tail != [] && tail[0].IsTerminal()
    ensures Received(DeltaFrames(fragments) + tail) == Concat(fragments)
    decreases |fragments|
  {
    if fragments == [] {
      assert DeltaFrames(fragments) + tail == tail;
    } else {
      var rest := fragments[1..];
      assert (DeltaFrames(fragments) + tail)[1..] == DeltaFrames(rest) + tail;
      ReceivedDeltas(rest, tail);
      assert fragments == [fragments[0]] + rest;
      ConcatAppend([fragments[0]], rest);
      assert Concat([fragments[0]]) == fragments[0] by {
        assert [fragments[0]][..0] == [];
      }
    }
  }

  /**
   * The frames of one completion: every frame but the last is a non-empty
   * data frame, in upstream order; the last is the one terminal frame, `Done`
   * on the end marker and the fixed error frame on failure; and what the
   * caller reads back from them is exactly the accumulated answer.
   */
  lemma FramesShape(up: Upstream)
    ensures var f := Frames(up);
      |f| == |Forwarded(up.chunks)| + 1 &&
      (forall i :: 0 <= i < |f| - 1 ==> f[i] == Delta(Forwarded(up.chunks)[i]) && f[i].content != "") &&
      f[|f| - 1] == (if up.outcome == Finished then Done else Failed(StreamError)) &&
      Received(f) == Answer(up)
  {
    ReceivedDeltas(Forwarded(up.chunks), [if up.outcome == Finished then Done else Failed(StreamError)]);
  }
}
