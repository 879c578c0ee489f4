/**
 * The streaming relay of src/provider.ts (the `for await` loop handed to
 * `pipeline`): each upstream chunk is checked against the peer's `writable`
 * flag, its chat text is appended to the completion, the chunk itself is
 * written to the peer, and a refused write waits for `drain`.
 *
 * The network decides, per chunk, what the peer looks like when the chunk
 * arrives; an `Arrival` carries that alongside the chunk's text.
 */
module Relay {
  import opened Json
  import opened Hex
  import opened Utils
  import opened Constants

  /** What the peer's transport looks like when a chunk arrives: whether it is
      still writable, whether a write stays below the high-water mark (so
      `write` returns true), and whether a `drain` would ever follow. */
  datatype PeerState = PeerState(writable: bool, belowHighWaterMark: bool, drainFires: bool)

  datatype Arrival = Arrival(chunk: string, peer: PeerState)

  /** What a `write` call put on the wire: a string the provider composed, or
      an upstream chunk passed through untouched. */
  datatype Frame = Text(text: string) | Raw(chunk: string)

  datatype Event = Wrote(frame: Frame) | AwaitedDrain

  /** Why the loop ended: the body ran out, the peer stopped being writable
      (`break`), extraction threw (the pipeline rejects), or a refused write
      waits for a `drain` that never comes. */
  datatype Stop = Exhausted | PeerClosed | ExtractionThrew(error: JsError) | Stalled

  /** What a run of the loop did: the peer events, the accumulated completion,
      how many chunks went through, and why it ended. */
  datatype Run = Run(events: seq<Event>, completion: string, forwarded: nat, stop: Stop)

  /** A connected peer as the provider uses it. */
  class Peer {
    const publicKey: seq<byte>
    var writable: bool
    var belowHighWaterMark: bool
    var drainFires: bool
    var log: seq<Event>

    function State(): PeerState
      reads this
    {
      PeerState(writable, belowHighWaterMark, drainFires)
    }

    constructor (publicKey: seq<byte>, state: PeerState)
      ensures this.publicKey == publicKey && State() == state && log == []
    {
      this.publicKey := publicKey;
      writable, belowHighWaterMark, drainFires := state.writable, state.belowHighWaterMark, state.drainFires;
      log := [];
    }

    /** The transport moves on between chunks: take its current state. */
    method Observe(state: PeerState)
      modifies this
      ensures State() == state && log == old(log)
    {
      writable, belowHighWaterMark, drainFires := state.writable, state.belowHighWaterMark, state.drainFires;
    }

    /** `peer.write(frame)`: queued either way; false once above the high-water mark. */
    method Write(f: Frame) returns (accepted: bool)
      modifies this`log
      ensures accepted == belowHighWaterMark
      ensures log == old(log) + [Wrote(f)]
    {
      log := log + [Wrote(f)];
      accepted := belowHighWaterMark;
    }

    /** `await new Promise(resolve => peer.once("drain", resolve))`: resumes only if the event fires. */
    method AwaitDrain() returns (fired: bool)
      modifies this`log
      ensures fired == drainFires
      ensures log == old(log) + (if fired then [AwaitedDrain] else [])
    {
      fired := drainFires;
      if fired {
        log := log + [AwaitedDrain];
      }
    }
  }

  /** `getChatDataFromProvider(provider, safeParseStreamResponse(chunk.toString()))`.
      The loop below takes the extraction as a parameter `extract`; the
      provider passes this one. */
  function ExtractChunk(provider: JsValue, c: Codec, chunk: string): (r: Outcome<JsValue>)
    ensures r.Threw? ==> r.error == TypeError && !IsBackend(provider, LlamaCpp)
    ensures c.parse(StreamPayload(chunk)).Threw? ==>
      r == Returned(if IsBackend(provider, LlamaCpp) then Undefined else Empty)
  {
    GetChatDataFromProvider(provider, SafeParseStreamResponse(c, chunk))
  }

  type Extractor = string -> Outcome<JsValue>

  /** The text `completion +=` appends for a chunk whose extraction returned. */
  function Piece(extract: Extractor, chunk: string): string
  {
    match extract(chunk)
    case Returned(v) => JsToString(v)
    case Threw(_) => ""
  }

  /** The pieces of `chunks`, concatenated in order. */
  function Completion(extract: Extractor, chunks: seq<string>): string
  {
    if |chunks| == 0 then "" else Piece(extract, chunks[0]) + Completion(extract, chunks[1..])
  }

  function ChunksOf(arrivals: seq<Arrival>): (chunks: seq<string>)
    ensures |chunks| == |arrivals|
    ensures forall k :: 0 <= k < |arrivals| ==> chunks[k] == arrivals[k].chunk
  {
    seq(|arrivals|, k requires 0 <= k < |arrivals| => arrivals[k].chunk)
  }

  /** The chunk an event passed through, if any. */
  function RawOf(e: Event): seq<string>
  {
    if e.Wrote? && e.frame.Raw? then [e.frame.chunk] else []
  }

  /** The chunks the events passed through, in order. */
  function RawChunks(events: seq<Event>): seq<string>
  {
    if |events| == 0 then [] else RawOf(events[0]) + RawChunks(events[1..])
  }

  /** A run preceded by some already-done work. */
  function Then(events: seq<Event>, text: string, count: nat, rest: Run): Run
  {
    Run(events + rest.events, text + rest.completion, count + rest.forwarded, rest.stop)
  }

  /** The chunk goes through and the loop carries on after it. */
  predicate Passes(extract: Extractor, a: Arrival) {
    a.peer.writable && extract(a.chunk).Returned? && (a.peer.belowHighWaterMark || a.peer.drainFires)
  }

  /** The peer events of a chunk that goes through: the write, then the wait
      for `drain` if the write was refused. */
  function Lead(a: Arrival): seq<Event>
  {
    if a.peer.belowHighWaterMark then [Wrote(Raw(a.chunk))] else [Wrote(Raw(a.chunk)), AwaitedDrain]
  }

  /** What the loop does with one arrival. `Exhausted` here means the loop
      carries on with the next chunk. */
  function StepRun(extract: Extractor, a: Arrival): (r: Run)
    ensures r.stop == Exhausted <==> Passes(extract, a)
    ensures r.forwarded == 1 <==> a.peer.writable && extract(a.chunk).Returned?
    ensures r.forwarded <= 1
  {
    if !a.peer.writable then Run([], "", 0, PeerClosed)
    else if extract(a.chunk).Threw? then Run([], "", 0, ExtractionThrew(extract(a.chunk).error))
    else if !Passes(extract, a) then Run([Wrote(Raw(a.chunk))], Piece(extract, a.chunk), 1, Stalled)
    else Run(Lead(a), Piece(extract, a.chunk), 1, Exhausted)
  }

  /** The loop, as a definition by recursion on the arrivals. */
  function RelayRun(extract: Extractor, arrivals: seq<Arrival>): (r: Run)
    ensures r.forwarded <= |arrivals|
    ensures r.stop == Exhausted ==> r.forwarded == |arrivals|
    decreases |arrivals|
  {
    if |arrivals| == 0 then Run([], "", 0, Exhausted)
    else
      var step := StepRun(extract, arrivals[0]);
      if step.stop != Exhausted then step
      else Then(step.events, step.completion, step.forwarded, RelayRun(extract, arrivals[1..]))
  }

  lemma ThenThen(e1: seq<Event>, t1: string, n1: nat, e2: seq<Event>, t2: string, n2: nat, r: Run)
    ensures Then(e1, t1, n1, Then(e2, t2, n2, r)) == Then(e1 + e2, t1 + t2, n1 + n2, r)
  {
    assert e1 + (e2 + r.events) == (e1 + e2) + r.events;
    assert t1 + (t2 + r.completion) == (t1 + t2) + r.completion;
  }

  /** One pass of the loop body. */
  method Step(peer: Peer, extract: Extractor, a: Arrival) returns (piece: string, stop: Stop)
    modifies peer
    ensures piece == StepRun(extract, a).completion && stop == StepRun(extract, a).stop
    ensures peer.log == old(peer.log) + StepRun(extract, a).events
  {
    piece, stop := "", Exhausted;
    peer.Observe(a.peer);
    if !peer.writable {
      stop := PeerClosed;
      return;
    }
    var text := extract(a.chunk);
    if text.Threw? {
      stop := ExtractionThrew(text.error);
      return;
    }
    piece := JsToString(text.value);
    var accepted := peer.Write(Raw(a.chunk));
    if !accepted {
      var fired := peer.AwaitDrain();
      if !fired {
        stop := Stalled;
      }
    }
  }

  /** The loop from position `i` on, with what is done so far in `acc`. */
  function RelayFrom(extract: Extractor, arrivals: seq<Arrival>, i: nat, acc: Run): Run
    requires i <= |arrivals|
    decreases |arrivals| - i
  {
    if i == |arrivals| then acc
    else
      var step := StepRun(extract, arrivals[i]);
      var next := Run(acc.events + step.events, acc.completion + step.completion, acc.forwarded + step.forwarded, step.stop);
      if step.stop != Exhausted then next else RelayFrom(extract, arrivals, i + 1, next)
  }

  /** Running on from `i` after `acc` is `acc` followed by the run of the rest. */
  lemma {:induction false} RelayFromRest(extract: Extractor, arrivals: seq<Arrival>, i: nat, acc: Run)
    requires i <= |arrivals| && acc.stop == Exhausted
    ensures RelayFrom(extract, arrivals, i, acc)
         == Then(acc.events, acc.completion, acc.forwarded, RelayRun(extract, arrivals[i..]))
    decreases |arrivals| - i
  {
    if i == |arrivals| {
      assert arrivals[i..] == [];
      assert acc.events + [] == acc.events && acc.completion + "" == acc.completion;
    } else {
      var step := StepRun(extract, arrivals[i]);
      var next := Run(acc.events + step.events, acc.completion + step.completion, acc.forwarded + step.forwarded, step.stop);
      assert arrivals[i..][0] == arrivals[i] && arrivals[i..][1..] == arrivals[i + 1..];
      if step.stop == Exhausted {
        RelayFromRest(extract, arrivals, i + 1, next);
        ThenThen(acc.events, acc.completion, acc.forwarded, step.events, step.completion, step.forwarded,
                 RelayRun(extract, arrivals[i + 1..]));
      }
    }
  }

  /** The `for await` loop: forwards chunks while the peer is writable. */
  method Pump(peer: Peer, extract: Extractor, arrivals: seq<Arrival>) returns (completion: string, stop: Stop)
    modifies peer
    ensures completion == RelayRun(extract, arrivals).completion
    ensures stop == RelayRun(extract, arrivals).stop
    ensures peer.log == old(peer.log) + RelayRun(extract, arrivals).events
  {
    ghost var acc := Run([], "", 0, Exhausted);
    ghost var whole := RelayFrom(extract, arrivals, 0, acc);
    RelayFromRest(extract, arrivals, 0, acc);
    assert arrivals[0..] == arrivals;
    var i := 0;
    completion, stop := "", Exhausted;
    while stop == Exhausted && i < |arrivals|
      invariant 0 <= i <= |arrivals|
      invariant peer.log == old(peer.log) + acc.events
      invariant completion == acc.completion && stop == acc.stop
      invariant stop == Exhausted ==> RelayFrom(extract, arrivals, i, acc) == whole
      invariant stop != Exhausted ==> acc == whole
      decreases |arrivals| - i, if stop == Exhausted then 1 else 0
    {
      var step := StepRun(extract, arrivals[i]);
      acc := Run(acc.events + step.events, acc.completion + step.completion, acc.forwarded + step.forwarded, step.stop);
      var piece;
      piece, stop := Step(peer, extract, arrivals[i]);
      completion := completion + piece;
      if stop == Exhausted {
        i := i + 1;
      }
    }
  }

  lemma {:induction false} RawChunksAppend(a: seq<Event>, b: seq<Event>)
    ensures RawChunks(a + b) == RawChunks(a) + RawChunks(b)
    decreases |a|
  {
    if |a| > 0 {
      assert (a + b)[0] == a[0];
      assert (a + b)[1..] == a[1..] + b;
      RawChunksAppend(a[1..], b);
      assert RawChunks(a + b) == RawOf(a[0]) + (RawChunks(a[1..]) + RawChunks(b));
    } else {
      assert a + b == b;
    }
  }

  /** Every chunk that went through arrived while the peer was writable and
      was extracted without throwing. */
  lemma {:induction false} ForwardedBound(extract: Extractor, arrivals: seq<Arrival>)
    ensures RelayRun(extract, arrivals).forwarded <= |arrivals|
    ensures forall k :: 0 <= k < RelayRun(extract, arrivals).forwarded ==>
              arrivals[k].peer.writable && extract(arrivals[k].chunk).Returned?
    decreases |arrivals|
  {
    if |arrivals| > 0 && Passes(extract, arrivals[0]) {
      ForwardedBound(extract, arrivals[1..]);
      var n := RelayRun(extract, arrivals[1..]).forwarded;
      assert forall k :: 1 <= k < 1 + n ==> arrivals[k] == arrivals[1..][k - 1];
    }
  }

  lemma ChunksOfTail(arrivals: seq<Arrival>, n: nat)
    requires 0 < n <= |arrivals|
    ensures ChunksOf(arrivals[..n]) == [arrivals[0].chunk] + ChunksOf(arrivals[1..][..n - 1])
  {
    assert ChunksOf(arrivals[..n])[1..] == ChunksOf(arrivals[1..][..n - 1]);
  }

  /** The chunks passed to the peer are exactly the first `forwarded` upstream
      chunks, in upstream order. */
  lemma {:induction false} ForwardedChunks(extract: Extractor, arrivals: seq<Arrival>)
    ensures RelayRun(extract, arrivals).forwarded <= |arrivals|
    ensures RawChunks(RelayRun(extract, arrivals).events)
         == ChunksOf(arrivals[..RelayRun(extract, arrivals).forwarded])
    decreases |arrivals|
  {
    ForwardedBound(extract, arrivals);
    var r := RelayRun(extract, arrivals);
    if |arrivals| > 0 && r.forwarded > 0 {
      var a := arrivals[0];
      ChunksOfTail(arrivals, r.forwarded);
      var wrote := [Wrote(Raw(a.chunk))];
      assert RawChunks(wrote) == [a.chunk];
      if Passes(extract, a) {
        ForwardedChunks(extract, arrivals[1..]);
        var rest := RelayRun(extract, arrivals[1..]);
        RawChunksAppend(Lead(a), rest.events);
        if !a.peer.belowHighWaterMark {
          RawChunksAppend(wrote, [AwaitedDrain]);
          assert Lead(a) == wrote + [AwaitedDrain];
        }
      } else {
        assert arrivals[1..][..0] == [];
      }
    }
  }

  /** The completion is the concatenation of the pieces of the chunks that went
      through, and of nothing else. */
  lemma {:induction false} ForwardedCompletion(extract: Extractor, arrivals: seq<Arrival>)
    ensures RelayRun(extract, arrivals).forwarded <= |arrivals|
    ensures RelayRun(extract, arrivals).completion
         == Completion(extract, ChunksOf(arrivals[..RelayRun(extract, arrivals).forwarded]))
    decreases |arrivals|
  {
    ForwardedBound(extract, arrivals);
    var r := RelayRun(extract, arrivals);
    if |arrivals| > 0 && r.forwarded > 0 {
      ChunksOfTail(arrivals, r.forwarded);
      if Passes(extract, arrivals[0]) {
        ForwardedCompletion(extract, arrivals[1..]);
      } else {
        assert arrivals[1..][..0] == [];
      }
    }
  }

  /** Why the loop stopped, and at which arrival. */
  lemma {:induction false} StopReason(extract: Extractor, arrivals: seq<Arrival>)
    ensures var r := RelayRun(extract, arrivals);
      && r.forwarded <= |arrivals|
      && (r.stop == Exhausted <==> r.forwarded == |arrivals| && r.stop != Stalled)
      && (r.stop == PeerClosed ==> r.forwarded < |arrivals| && !arrivals[r.forwarded].peer.writable)
      && (r.stop.ExtractionThrew? ==> r.forwarded < |arrivals| && arrivals[r.forwarded].peer.writable
                                      && extract(arrivals[r.forwarded].chunk) == Threw(r.stop.error))
      && (r.stop == Stalled ==> 0 < r.forwarded && !arrivals[r.forwarded - 1].peer.belowHighWaterMark
                                && !arrivals[r.forwarded - 1].peer.drainFires)
    decreases |arrivals|
  {
    if |arrivals| > 0 && Passes(extract, arrivals[0]) {
      StopReason(extract, arrivals[1..]);
    }
  }

  /** The loop writes nothing but upstream chunks, and waits for `drain` only
      right after writing one. */
  predicate ChunksAndDrains(events: seq<Event>) {
    && (forall k :: 0 <= k < |events| && events[k].Wrote? ==> events[k].frame.Raw?)
    && (forall k :: 0 <= k < |events| && events[k] == AwaitedDrain ==> 0 < k && events[k - 1].Wrote?)
  }

  lemma {:induction false} DrainFollowsChunk(extract: Extractor, arrivals: seq<Arrival>)
    ensures ChunksAndDrains(RelayRun(extract, arrivals).events)
    decreases |arrivals|
  {
    if |arrivals| > 0 && Passes(extract, arrivals[0]) {
      DrainFollowsChunk(extract, arrivals[1..]);
      var events := RelayRun(extract, arrivals).events;
      var lead := Lead(arrivals[0]);
      var rest := RelayRun(extract, arrivals[1..]).events;
      assert ChunksAndDrains(rest);
      assert events == lead + rest;
      forall k | 0 <= k < |events|
        ensures events[k].Wrote? ==> events[k].frame.Raw?
        ensures events[k] == AwaitedDrain ==> 0 < k && events[k - 1].Wrote?
      {
        assert lead[0] == Wrote(Raw(arrivals[0].chunk));
        if k < |lead| {
          assert events[k] == lead[k];
        } else {
          var j := k - |lead|;
          assert events[k] == rest[j];
          assert rest[j].Wrote? ==> rest[j].frame.Raw?;
          assert rest[j] == AwaitedDrain ==> 0 < j && rest[j - 1].Wrote?;
          if j > 0 {
            assert events[k - 1] == rest[j - 1];
          }
        }
      }
    }
  }

  /** With a peer that stays writable, drains whenever asked, and chunks whose
      extraction never throws, every chunk goes through. */
  lemma {:induction false} DeliversAll(extract: Extractor, arrivals: seq<Arrival>)
    requires forall k :: 0 <= k < |arrivals| ==> Passes(extract, arrivals[k])
    ensures RelayRun(extract, arrivals).stop == Exhausted
    ensures RelayRun(extract, arrivals).forwarded == |arrivals|
    ensures RelayRun(extract, arrivals).completion == Completion(extract, ChunksOf(arrivals))
    decreases |arrivals|
  {
    if |arrivals| > 0 {
      DeliversAll(extract, arrivals[1..]);
      assert ChunksOf(arrivals)[1..] == ChunksOf(arrivals[1..]);
    }
  }

  /** llamacpp never stops the loop by throwing, and a chunk it cannot parse
      adds the text "undefined" to the completion. */
  lemma LlamaCppUnparsedChunk(provider: JsValue, c: Codec, chunk: string)
    requires IsBackend(provider, LlamaCpp)
    requires c.parse(StreamPayload(chunk)).Threw?
    ensures ExtractChunk(provider, c, chunk).Returned?
    ensures Piece(s => ExtractChunk(provider, c, s), chunk) == "undefined"
  {
  }
}
