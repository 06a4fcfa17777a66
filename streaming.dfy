/**
 * What the three streaming decoders have in common. Each decoder maps every
 * physical line of the reply to one Action; the sink then receives the chunks
 * the actions ask for, in order, until the first action that ends the stream.
 * Run is that fold; the lemmas here are proved once for all three vendors.
 */
module Streaming {
  import opened RubyJson
  import opened SageTypes

  /** What a decoder does with one line: nothing, pass a non-final chunk with
      this content to the sink, pass the final chunk and return, or raise. */
  datatype Action = Skip | Emit(content: Json) | Finish | Fail(error: Error)

  /** How a stream ended: the vendor's end marker was seen, the body ran out
      without one, or an exception was raised. */
  datatype StreamEnd = Done | Exhausted | Failed(error: Error)

  /** The chunks passed to the sink, in order, and how the call ended. */
  datatype StreamResult = StreamResult(chunks: seq<Chunk>, end: StreamEnd)

  function Prepend(cs: seq<Chunk>, r: StreamResult): StreamResult {
    StreamResult(cs + r.chunks, r.end)
  }

  /** Prepending two runs of chunks in turn prepends their concatenation. */
  lemma PrependTwice(a: seq<Chunk>, b: seq<Chunk>, r: StreamResult)
    ensures Prepend(a, Prepend(b, r)) == Prepend(a + b, r)
  {
    assert a + (b + r.chunks) == (a + b) + r.chunks;
  }

  /** The effect of the actions of a reply's lines, taken in order. */
  function Run(acts: seq<Action>): StreamResult {
    if acts == [] then StreamResult([], Exhausted)
    else match acts[0]
      case Skip => Run(acts[1..])
      case Emit(c) => Prepend([Chunk(c, false)], Run(acts[1..]))
      case Finish => StreamResult([FinalChunk], Done)
      case Fail(e) => StreamResult([], Failed(e))
  }

  /** A stream is well terminated when exactly the last chunk is final, there
      is a final chunk only when the end marker was seen, and that chunk is
      the empty final chunk. */
  ghost predicate WellTerminated(r: StreamResult) {
    && (forall i :: 0 <= i < |r.chunks| ==> (r.chunks[i].done <==> (r.end == Done && i == |r.chunks| - 1)))
    && (r.end == Done ==> |r.chunks| > 0 && r.chunks[|r.chunks| - 1] == FinalChunk)
  }

  /** Every Emit carries non-empty content. */
  ghost predicate EmitsNonEmpty(acts: seq<Action>) {
    forall i :: 0 <= i < |acts| && acts[i].Emit? ==> NonEmpty(acts[i].content)
  }

  /** Every non-final chunk carries non-empty content. */
  ghost predicate ContentNonEmpty(r: StreamResult) {
    forall i :: 0 <= i < |r.chunks| && !r.chunks[i].done ==> NonEmpty(r.chunks[i].content)
  }

  lemma {:induction false} RunWellTerminated(acts: seq<Action>)
    ensures WellTerminated(Run(acts))
  {
    if acts != [] && acts[0].Emit? {
      RunWellTerminated(acts[1..]);
      var rest := Run(acts[1..]);
      var r := Run(acts);
      assert r.chunks == [Chunk(acts[0].content, false)] + rest.chunks;
      assert forall i :: 1 <= i < |r.chunks| ==> r.chunks[i] == rest.chunks[i - 1];
    } else if acts != [] && acts[0].Skip? {
      RunWellTerminated(acts[1..]);
    }
  }

  lemma {:induction false} RunContentNonEmpty(acts: seq<Action>)
    requires EmitsNonEmpty(acts)
    ensures ContentNonEmpty(Run(acts))
  {
    if acts != [] && (acts[0].Emit? || acts[0].Skip?) {
      assert EmitsNonEmpty(acts[1..]) by {
        forall i | 0 <= i < |acts[1..]| && acts[1..][i].Emit? ensures NonEmpty(acts[1..][i].content) {
          assert acts[1..][i] == acts[i + 1];
        }
      }
      RunContentNonEmpty(acts[1..]);
      if acts[0].Emit? {
        var rest := Run(acts[1..]);
        assert forall i :: 1 <= i < |Run(acts).chunks| ==> Run(acts).chunks[i] == rest.chunks[i - 1];
      }
    }
  }

  /** Decoding is line-driven: the lines of a reply can be consumed in two
      pieces, and once the first piece has ended the stream, later lines
      change nothing. */
  lemma {:induction false} RunAppend(a: seq<Action>, b: seq<Action>)
    ensures Run(a + b) == if Run(a).end == Exhausted then Prepend(Run(a).chunks, Run(b)) else Run(a)
  {
    if a == [] {
      assert a + b == b;
    } else {
      assert (a + b)[0] == a[0];
      assert (a + b)[1..] == a[1..] + b;
      RunAppend(a[1..], b);
    }
  }

  /** The index of the first action that ends the stream, or |acts|. */
  function FirstStop(acts: seq<Action>): (k: nat)
    ensures k <= |acts|
    ensures forall j :: 0 <= j < k ==> acts[j].Skip? || acts[j].Emit?
    ensures k < |acts| ==> acts[k].Finish? || acts[k].Fail?
  {
    if acts == [] || acts[0].Finish? || acts[0].Fail? then 0 else 1 + FirstStop(acts[1..])
  }

  /** The non-final chunks the Emit actions ask for, in order. */
  function EmittedChunks(acts: seq<Action>): (cs: seq<Chunk>)
    ensures |cs| <= |acts|
  {
    if acts == [] then []
    else (if acts[0].Emit? then [Chunk(acts[0].content, false)] else []) + EmittedChunks(acts[1..])
  }

  /** Run agrees with a reference reading of the actions: the stream consists
      of the chunks emitted before the first stopping action, then the final
      chunk if that action is Finish; it ends there, or is exhausted. */
  lemma {:induction false} RunReference(acts: seq<Action>)
    ensures var k := FirstStop(acts);
      && Run(acts).chunks == EmittedChunks(acts[..k]) + (if k < |acts| && acts[k].Finish? then [FinalChunk] else [])
      && Run(acts).end == (if k == |acts| then Exhausted else if acts[k].Finish? then Done else Failed(acts[k].error))
  {
    if acts != [] && (acts[0].Skip? || acts[0].Emit?) {
      RunReference(acts[1..]);
      var k := FirstStop(acts);
      assert acts[..k][1..] == acts[1..][..k - 1];
    }
  }

  /** A final chunk is emitted only in answer to a Finish action. */
  lemma {:induction false} RunDoneNeedsFinish(acts: seq<Action>)
    ensures Run(acts).end == Done ==> exists k :: 0 <= k < |acts| && acts[k] == Finish
  {
    if acts != [] && (acts[0].Skip? || acts[0].Emit?) {
      RunDoneNeedsFinish(acts[1..]);
      if Run(acts).end == Done {
        var k :| 0 <= k < |acts[1..]| && acts[1..][k] == Finish;
        assert acts[k + 1] == Finish;
      }
    } else if acts != [] && acts[0].Finish? {
      assert acts[0] == Finish;
    }
  }

  /** What OpenAI and Ollama do with an extracted delta content:
      `next if content.nil? || content.empty?`, else emit it. */
  function DeltaAction(content: Access): (a: Action)
    ensures a.Emit? ==> NonEmpty(a.content)
    ensures content.Value? && content.v.JString? && content.v.s != "" ==> a == Emit(content.v)
    ensures content.Value? && (content.v == JNull || content.v == JString("")) ==> a == Skip
    ensures !a.Finish?
  {
    match content
    case Raises => Fail(ShapeError)
    case Value(v) =>
      if v == JNull then Skip
      else match IsEmpty(v)
        case None => Fail(ShapeError)
        case Some(empty) => if empty then Skip else Emit(v)
  }

  /** The non-final chunks of the non-empty fragments, in order. */
  function TextChunks(fragments: seq<string>): (cs: seq<Chunk>)
    ensures |cs| <= |fragments|
    ensures forall i :: 0 <= i < |cs| ==> !cs[i].done && cs[i].content.JString? && cs[i].content.s != ""
  {
    if fragments == [] then []
    else (if fragments[0] == "" then [] else [Chunk(JString(fragments[0]), false)]) + TextChunks(fragments[1..])
  }

  lemma {:induction false} TextChunksAppend(a: seq<string>, b: seq<string>)
    ensures TextChunks(a + b) == TextChunks(a) + TextChunks(b)
  {
    if a != [] {
      assert (a + b)[1..] == a[1..] + b;
      TextChunksAppend(a[1..], b);
    } else {
      assert a + b == b;
    }
  }

  /** The chunks of one fragment, then those of a stream that passed the
      remaining fragments and ended. */
  lemma FragmentThenRest(f: string, fs: seq<string>, rest: StreamResult)
    requires rest == StreamResult(TextChunks(fs) + [FinalChunk], Done)
    ensures Prepend(TextChunks([f]), rest) == StreamResult(TextChunks([f] + fs) + [FinalChunk], Done)
  {
    TextChunksAppend([f], fs);
  }

  /** Run on one action followed by the rest. */
  lemma RunCons(a: Action, rest: seq<Action>)
    ensures a.Skip? ==> Run([a] + rest) == Run(rest)
    ensures a.Emit? ==> Run([a] + rest) == Prepend([Chunk(a.content, false)], Run(rest))
    ensures a.Finish? ==> Run([a] + rest) == StreamResult([FinalChunk], Done)
    ensures a.Fail? ==> Run([a] + rest) == StreamResult([], Failed(a.error))
  {
    assert ([a] + rest)[1..] == rest;
  }

  /** The actions a per-line decoder assigns to the lines of a body. */
  function LineActions(lines: seq<string>, step: string -> Action): (acts: seq<Action>)
    ensures |acts| == |lines|
    ensures forall i :: 0 <= i < |lines| ==> acts[i] == step(lines[i])
  {
    seq(|lines|, i requires 0 <= i < |lines| => step(lines[i]))
  }

  /** The line loop of a stream whose decoder keeps no state between lines
      (OpenAI, Ollama): the chunks passed to the block, line by line, until
      the end marker or an exception. */
  method DecodeLines(lines: seq<string>, step: string -> Action) returns (r: StreamResult)
    ensures r == Run(LineActions(lines, step))
  {
    ghost var acts := LineActions(lines, step);
    var chunks: seq<Chunk> := [];
    var i := 0;
    while i < |lines|
      invariant 0 <= i <= |lines|
      invariant Run(acts) == Prepend(chunks, Run(acts[i..]))
    {
      var a := step(lines[i]);
      ghost var rest := Run(acts[i + 1..]);
      assert acts[i..] == [a] + acts[i + 1..];
      RunCons(a, acts[i + 1..]);
      if a.Finish? {
        return StreamResult(chunks + [FinalChunk], Done);
      } else if a.Fail? {
        assert chunks + [] == chunks;
        return StreamResult(chunks, Failed(a.error));
      } else if a.Emit? {
        PrependTwice(chunks, [Chunk(a.content, false)], rest);
        chunks := chunks + [Chunk(a.content, false)];
      }
      i := i + 1;
    }
    assert acts[i..] == [];
    r := StreamResult(chunks, Exhausted);
  }
}
