/** Control messages are cut out of the bytes of the control stream, whatever chunks these arrive in. */
module Framing {
  import opened Bytes

  /** Version, type and body length come before the body. */
  const COMMON_HEADERS := 7

  datatype Frame = Frame(version: byte, kind: nat, body: seq<byte>)

  predicate FrameOk(f: Frame) {
    f.kind < 0x1_0000 && COMMON_HEADERS + |f.body| < 0x1_0000_0000
  }

  function FrameBytes(f: Frame): seq<byte> {
    [f.version] + BE(f.kind, 2) + BE(|f.body|, 4) + f.body
  }

  /** The body length announced by the headers. */
  function BodyLen(buffer: seq<byte>): nat {
    if |buffer| < COMMON_HEADERS then 0 else Value(buffer[3..7])
  }

  /** The announced length plus the headers, which the source adds in 32 bits, does not wrap around. */
  predicate LengthOk(buffer: seq<byte>) {
    |buffer| >= COMMON_HEADERS ==> COMMON_HEADERS + BodyLen(buffer) < 0x1_0000_0000
  }

  predicate Ready(buffer: seq<byte>) {
    |buffer| >= COMMON_HEADERS && |buffer| >= COMMON_HEADERS + BodyLen(buffer)
  }

  function FirstFrame(buffer: seq<byte>): Frame
    requires Ready(buffer)
  {
    Frame(buffer[0], Value(buffer[1..3]), buffer[COMMON_HEADERS..COMMON_HEADERS + BodyLen(buffer)])
  }

  function Rest(buffer: seq<byte>): seq<byte>
    requires Ready(buffer)
  {
    buffer[COMMON_HEADERS + BodyLen(buffer)..]
  }

  /** What is buffered, and the messages handed on so far. */
  datatype State = State(buffer: seq<byte>, out: seq<Frame>)

  const START := State([], [])

  /** At most one message is taken; one whose body cannot be parsed empties the buffer. */
  function Process(s: State, bad: Frame -> bool): State {
    if !Ready(s.buffer) then s
    else
      var f := FirstFrame(s.buffer);
      if bad(f) then s.(buffer := []) else State(Rest(s.buffer), s.out + [f])
  }

  function Receive(s: State, chunk: seq<byte>, bad: Frame -> bool): State {
    Process(s.(buffer := s.buffer + chunk), bad)
  }

  function ReceiveAll(chunks: seq<seq<byte>>, bad: Frame -> bool): State {
    if chunks == [] then START
    else Receive(ReceiveAll(chunks[..|chunks| - 1], bad), chunks[|chunks| - 1], bad)
  }

  // ---------------------------------------------------------------- the reading session

  class ControlReader {
    var buffer: seq<byte>
    var out: seq<Frame>

    constructor ()
      ensures View() == START
    {
      buffer, out := [], [];
    }

    function View(): State
      reads this
    {
      State(buffer, out)
    }

    method ProcessControlMessage(bad: Frame -> bool)
      requires LengthOk(buffer)
      modifies this
      ensures View() == Process(old(View()), bad)
    {
      if |buffer| < COMMON_HEADERS {
        return;
      }
      var version := buffer[0];
      var kind := ValueOf(buffer[1..3], 2);
      var len := ValueOf(buffer[3..7], 4);
      assert buffer[1..3][..2] == buffer[1..3] && buffer[3..7][..4] == buffer[3..7];
      if |buffer| < COMMON_HEADERS + len {
        return;
      }
      var f := Frame(version, kind, buffer[COMMON_HEADERS..COMMON_HEADERS + len]);
      if bad(f) {
        buffer := [];
        return;
      }
      out := out + [f];
      buffer := buffer[COMMON_HEADERS + len..];
    }

    method OnControlData(chunk: seq<byte>, bad: Frame -> bool)
      requires LengthOk(buffer + chunk)
      modifies this
      ensures View() == Receive(old(View()), chunk, bad)
    {
      buffer := buffer + chunk;
      ProcessControlMessage(bad);
    }
  }

  // ---------------------------------------------------------------- nothing is lost

  function Wire(frames: seq<Frame>): seq<byte> {
    if frames == [] then [] else Wire(frames[..|frames| - 1]) + FrameBytes(frames[|frames| - 1])
  }

  function Received(chunks: seq<seq<byte>>): seq<byte> {
    if chunks == [] then [] else Received(chunks[..|chunks| - 1]) + chunks[|chunks| - 1]
  }

  lemma FrameSplit(buffer: seq<byte>)
    requires Ready(buffer)
    ensures FrameBytes(FirstFrame(buffer)) + Rest(buffer) == buffer
  {
    var f := FirstFrame(buffer);
    BEOfValue(buffer[1..3]);
    BEOfValue(buffer[3..7]);
    assert buffer == [buffer[0]] + buffer[1..3] + buffer[3..7] + f.body + Rest(buffer);
  }

  lemma WireOne(frames: seq<Frame>, f: Frame)
    ensures Wire(frames + [f]) == Wire(frames) + FrameBytes(f)
  {
    assert (frames + [f])[..|frames|] == frames;
  }

  /** The buffer does not begin with a message whose body cannot be parsed. */
  ghost predicate Parsable(buffer: seq<byte>, bad: Frame -> bool) {
    Ready(buffer) ==> !bad(FirstFrame(buffer))
  }

  lemma ProcessKeeps(s: State, bad: Frame -> bool)
    requires Parsable(s.buffer, bad)
    ensures Wire(Process(s, bad).out) + Process(s, bad).buffer == Wire(s.out) + s.buffer
  {
    if Ready(s.buffer) {
      FrameSplit(s.buffer);
      WireOne(s.out, FirstFrame(s.buffer));
      assert Wire(s.out) + FrameBytes(FirstFrame(s.buffer)) + Rest(s.buffer) ==
             Wire(s.out) + (FrameBytes(FirstFrame(s.buffer)) + Rest(s.buffer));
    }
  }

  /** How many bytes are accounted for: a message that cannot be parsed loses all that is buffered. */
  lemma ProcessLength(s: State, bad: Frame -> bool)
    ensures var s' := Process(s, bad);
            if Parsable(s.buffer, bad) then |Wire(s'.out)| + |s'.buffer| == |Wire(s.out)| + |s.buffer|
            else |Wire(s'.out)| + |s'.buffer| < |Wire(s.out)| + |s.buffer|
  {
    if Parsable(s.buffer, bad) {
      ProcessKeeps(s, bad);
      assert |Wire(Process(s, bad).out) + Process(s, bad).buffer| == |Wire(s.out) + s.buffer|;
    }
  }

  /** No buffer that is looked at announces a length that wraps around. */
  ghost predicate NeverWraps(chunks: seq<seq<byte>>, bad: Frame -> bool) {
    chunks == [] ||
    (NeverWraps(chunks[..|chunks| - 1], bad)
     && LengthOk(ReceiveAll(chunks[..|chunks| - 1], bad).buffer + chunks[|chunks| - 1]))
  }

  /** No buffer that is looked at begins with a message that cannot be parsed. */
  ghost predicate NeverBad(chunks: seq<seq<byte>>, bad: Frame -> bool) {
    chunks == [] ||
    (NeverBad(chunks[..|chunks| - 1], bad)
     && Parsable(ReceiveAll(chunks[..|chunks| - 1], bad).buffer + chunks[|chunks| - 1], bad))
  }

  lemma {:induction false} AllKept(chunks: seq<seq<byte>>, bad: Frame -> bool)
    requires NeverBad(chunks, bad)
    ensures var s := ReceiveAll(chunks, bad); Wire(s.out) + s.buffer == Received(chunks)
  {
    if chunks != [] {
      var init, chunk := chunks[..|chunks| - 1], chunks[|chunks| - 1];
      var s := ReceiveAll(init, bad);
      AllKept(init, bad);
      ProcessKeeps(s.(buffer := s.buffer + chunk), bad);
      assert Wire(s.out) + (s.buffer + chunk) == Wire(s.out) + s.buffer + chunk;
    }
  }

  /** What is lost does not come back. */
  lemma {:induction false} SomeLost(chunks: seq<seq<byte>>, bad: Frame -> bool)
    ensures var s := ReceiveAll(chunks, bad);
            |Wire(s.out)| + |s.buffer| <= |Received(chunks)|
            && (!NeverBad(chunks, bad) ==> |Wire(s.out)| + |s.buffer| < |Received(chunks)|)
  {
    if chunks != [] {
      var init, chunk := chunks[..|chunks| - 1], chunks[|chunks| - 1];
      var s := ReceiveAll(init, bad);
      SomeLost(init, bad);
      ProcessLength(s.(buffer := s.buffer + chunk), bad);
    }
  }

  /** For any bytes in any chunks that announce no length that wraps around: the messages handed on and
      what is buffered make up exactly the bytes received if and only if no message that cannot be
      parsed ever came to the front of the buffer. */
  lemma NothingLost(chunks: seq<seq<byte>>, bad: Frame -> bool)
    requires NeverWraps(chunks, bad)
    ensures var s := ReceiveAll(chunks, bad); Wire(s.out) + s.buffer == Received(chunks) <==> NeverBad(chunks, bad)
  {
    var s := ReceiveAll(chunks, bad);
    SomeLost(chunks, bad);
    if NeverBad(chunks, bad) {
      AllKept(chunks, bad);
    } else {
      assert |Wire(s.out) + s.buffer| == |Wire(s.out)| + |s.buffer|;
    }
  }

  // ---------------------------------------------------------------- which messages, and when

  /** How many of the messages are complete in the first `p` bytes of their stream. */
  function Complete(frames: seq<Frame>, p: nat): nat {
    if frames == [] then 0
    else if |Wire(frames)| <= p then |frames|
    else Complete(frames[..|frames| - 1], p)
  }

  lemma {:induction false} WirePrefix(frames: seq<Frame>, k: nat)
    requires k <= |frames|
    ensures Wire(frames[..k]) <= Wire(frames)
    ensures k < |frames| ==> Wire(frames[..k + 1]) == Wire(frames[..k]) + FrameBytes(frames[k])
    decreases |frames|
  {
    if k == |frames| {
      assert frames[..k] == frames;
    } else {
      var init := frames[..|frames| - 1];
      assert init[..k] == frames[..k];
      WirePrefix(init, k);
      if k == |init| {
        assert frames[..k + 1] == frames;
      } else {
        assert init[..k + 1] == frames[..k + 1];
      }
    }
  }

  lemma {:induction false} CompleteIff(frames: seq<Frame>, p: nat, k: nat)
    requires k <= |frames|
    ensures k <= Complete(frames, p) <==> |Wire(frames[..k])| <= p
    ensures Complete(frames, p) <= |frames|
    decreases |frames|
  {
    WirePrefix(frames, k);
    if |Wire(frames)| > p {
      if k == |frames| {
        assert frames[..k] == frames;
        if frames != [] {
          CompleteIff(frames[..|frames| - 1], p, 0);
        }
      } else {
        assert frames[..|frames| - 1][..k] == frames[..k];
        CompleteIff(frames[..|frames| - 1], p, k);
      }
    }
  }

  lemma SliceOfPrefix<T>(w: seq<T>, n: nat, i: nat, j: nat)
    requires i <= j <= n <= |w|
    ensures w[..n][i..j] == w[i..j] && w[..n][i..] == w[i..n]
  {
  }

  lemma FrameFields(f: Frame, rest: seq<byte>)
    requires FrameOk(f)
    ensures var w := FrameBytes(f) + rest;
            && |FrameBytes(f)| == COMMON_HEADERS + |f.body| && w[0] == f.version
            && Value(w[1..3]) == f.kind && Value(w[3..7]) == |f.body|
            && w[COMMON_HEADERS..COMMON_HEADERS + |f.body|] == f.body
  {
    var w := FrameBytes(f) + rest;
    Widths();
    RoundTrip(f.kind, 2);
    RoundTrip(|f.body|, 4);
    assert w[1..3] == BE(f.kind, 2) && w[3..7] == BE(|f.body|, 4);
  }

  /** A buffer that begins a stream of messages holds its first message when it is long enough. */
  lemma FrameReady(f: Frame, rest: seq<byte>, n: nat)
    requires FrameOk(f) && n <= |FrameBytes(f) + rest|
    ensures var buffer := (FrameBytes(f) + rest)[..n];
            && (Ready(buffer) <==> |FrameBytes(f)| <= n)
            && (Ready(buffer) ==> FirstFrame(buffer) == f && Rest(buffer) == (FrameBytes(f) + rest)[|FrameBytes(f)|..n])
  {
    var w := FrameBytes(f) + rest;
    FrameFields(f, rest);
    if n >= COMMON_HEADERS {
      SliceOfPrefix(w, n, 1, 3);
      SliceOfPrefix(w, n, 3, 7);
      if |FrameBytes(f)| <= n {
        SliceOfPrefix(w, n, COMMON_HEADERS, COMMON_HEADERS + |f.body|);
        SliceOfPrefix(w, n, |FrameBytes(f)|, n);
      }
    }
  }

  function Min(a: nat, b: nat): nat {
    if a < b then a else b
  }

  /** One message more with each chunk, up to those complete by then. */
  function Dispatched(frames: seq<Frame>, chunks: seq<seq<byte>>): nat {
    if chunks == [] then 0
    else Min(Dispatched(frames, chunks[..|chunks| - 1]) + 1, Complete(frames, |Received(chunks)|))
  }

  lemma {:induction false} DispatchedFew(frames: seq<Frame>, chunks: seq<seq<byte>>)
    ensures Dispatched(frames, chunks) <= |frames| && Dispatched(frames, chunks) <= |chunks|
    ensures |Wire(frames[..Dispatched(frames, chunks)])| <= |Received(chunks)|
  {
    if chunks == [] {
      assert frames[..0] == [];
    } else {
      DispatchedFew(frames, chunks[..|chunks| - 1]);
      CompleteIff(frames, |Received(chunks)|, 0);
      CompleteIff(frames, |Received(chunks)|, Dispatched(frames, chunks));
    }
  }

  ghost predicate AllOk(frames: seq<Frame>) {
    forall i | 0 <= i < |frames| :: FrameOk(frames[i])
  }

  ghost predicate NoneBad(frames: seq<Frame>, bad: Frame -> bool) {
    forall i | 0 <= i < |frames| :: !bad(frames[i])
  }

  /** The part of the first `p` bytes not yet handed on after `d` messages. */
  function Held(frames: seq<Frame>, d: nat, p: nat): seq<byte>
    requires d <= |frames| && |Wire(frames[..d])| <= p <= |Wire(frames)|
  {
    Wire(frames)[|Wire(frames[..d])|..p]
  }

  lemma HeldNext(frames: seq<Frame>, d: nat, p: nat)
    requires d < |frames| && AllOk(frames) && |Wire(frames[..d])| <= p <= |Wire(frames)|
    ensures var next := |Wire(frames[..d + 1])|;
            && (Ready(Held(frames, d, p)) <==> next <= p)
            && (next <= p ==> Ready(Held(frames, d, p)) && FirstFrame(Held(frames, d, p)) == frames[d]
                              && Rest(Held(frames, d, p)) == Held(frames, d + 1, p))
  {
    WirePrefix(frames, d);
    WirePrefix(frames, d + 1);
    HeldSplit(Wire(frames), Wire(frames[..d]), frames[d], p);
  }

  lemma HeldSplit(w: seq<byte>, before: seq<byte>, f: Frame, p: nat)
    requires FrameOk(f) && before + FrameBytes(f) <= w && |before| <= p <= |w|
    ensures var a, b := |before|, |before| + |FrameBytes(f)|;
            && (Ready(w[a..p]) <==> b <= p)
            && (b <= p ==> Ready(w[a..p]) && FirstFrame(w[a..p]) == f && Rest(w[a..p]) == w[b..p])
  {
    var a, b := |before|, |before| + |FrameBytes(f)|;
    var rest := w[b..];
    assert w == before + FrameBytes(f) + rest;
    assert w[a..] == FrameBytes(f) + rest;
    FrameReady(f, rest, p - a);
    assert w[a..p] == w[a..][..p - a];
    if b <= p {
      assert w[a..][b - a..p - a] == w[b..p];
    }
  }

  lemma FrameLength(f: Frame, rest: seq<byte>, n: nat)
    requires FrameOk(f) && n <= |FrameBytes(f) + rest|
    ensures LengthOk((FrameBytes(f) + rest)[..n])
  {
    if n >= COMMON_HEADERS {
      FrameFields(f, rest);
      SliceOfPrefix(FrameBytes(f) + rest, n, 3, 7);
    }
  }

  lemma PartLength(w: seq<byte>, before: seq<byte>, f: Frame, p: nat)
    requires FrameOk(f) && before + FrameBytes(f) <= w && |before| <= p <= |w|
    ensures LengthOk(w[|before|..p])
  {
    var a, rest := |before|, w[|before| + |FrameBytes(f)|..];
    assert w == before + FrameBytes(f) + rest;
    assert w[a..] == FrameBytes(f) + rest;
    FrameLength(f, rest, p - a);
    assert w[a..p] == w[a..][..p - a];
  }

  /** What is held of a stream of messages announces the length of the next of them. */
  lemma HeldLength(frames: seq<Frame>, d: nat, p: nat)
    requires AllOk(frames) && d <= |frames| && |Wire(frames[..d])| <= p <= |Wire(frames)|
    ensures LengthOk(Held(frames, d, p))
  {
    if d < |frames| {
      WirePrefix(frames, d);
      WirePrefix(frames, d + 1);
      PartLength(Wire(frames), Wire(frames[..d]), frames[d], p);
    } else {
      assert frames[..d] == frames;
    }
  }

  lemma HeldNone(frames: seq<Frame>, p: nat)
    requires |Wire(frames)| <= p <= |Wire(frames)|
    ensures frames[..|frames|] == frames && Held(frames, |frames|, p) == [] && !Ready(Held(frames, |frames|, p))
  {
    assert frames[..|frames|] == frames;
  }

  lemma HeldMore(frames: seq<Frame>, d: nat, p: nat, chunk: seq<byte>)
    requires d <= |frames| && |Wire(frames[..d])| <= p && p + |chunk| <= |Wire(frames)|
    requires Wire(frames)[..p] + chunk == Wire(frames)[..p + |chunk|]
    ensures Held(frames, d, p) + chunk == Held(frames, d, p + |chunk|)
  {
    assert Wire(frames)[..p + |chunk|][p..] == chunk;
  }

  /** What a reader is in after `p` bytes and `d` messages handed on: the rest of the bytes are held. */
  ghost predicate UpTo(frames: seq<Frame>, d: nat, p: nat, s: State) {
    && d <= |frames| && |Wire(frames[..d])| <= p <= |Wire(frames)|
    && s == State(Held(frames, d, p), frames[..d])
  }

  /** One chunk more of the stream: the next message is handed on when it is complete. */
  lemma InOrderStep(frames: seq<Frame>, d: nat, p: nat, s: State, chunk: seq<byte>, bad: Frame -> bool)
    requires AllOk(frames) && NoneBad(frames, bad) && UpTo(frames, d, p, s)
    requires p + |chunk| <= |Wire(frames)| && Wire(frames)[..p] + chunk == Wire(frames)[..p + |chunk|]
    ensures UpTo(frames, Min(d + 1, Complete(frames, p + |chunk|)), p + |chunk|, Receive(s, chunk, bad))
  {
    HeldMore(frames, d, p, chunk);
    NextComplete(frames, d, p + |chunk|);
    ProcessUpTo(frames, d, p + |chunk|, State(s.buffer + chunk, s.out), bad);
  }

  lemma ProcessUpTo(frames: seq<Frame>, d: nat, p: nat, s: State, bad: Frame -> bool)
    requires AllOk(frames) && NoneBad(frames, bad) && UpTo(frames, d, p, s)
    ensures UpTo(frames, if d < |frames| && |Wire(frames[..d + 1])| <= p then d + 1 else d, p, Process(s, bad))
  {
    if d < |frames| {
      ProcessHeld(frames, d, p, bad);
    } else {
      assert frames[..d] == frames;
      HeldNone(frames, p);
    }
  }

  /** After `d` messages the next is complete or is not; there are no others to wait for. */
  lemma NextComplete(frames: seq<Frame>, d: nat, p: nat)
    requires d <= |frames| && |Wire(frames[..d])| <= p <= |Wire(frames)|
    ensures Min(d + 1, Complete(frames, p)) == if d < |frames| && |Wire(frames[..d + 1])| <= p then d + 1 else d
    ensures d == |frames| ==> frames[..d] == frames
  {
    CompleteIff(frames, p, d);
    if d < |frames| {
      CompleteIff(frames, p, d + 1);
    }
  }

  lemma ProcessHeld(frames: seq<Frame>, d: nat, p: nat, bad: Frame -> bool)
    requires d < |frames| && AllOk(frames) && !bad(frames[d]) && |Wire(frames[..d])| <= p <= |Wire(frames)|
    ensures |Wire(frames[..d + 1])| > p ==> Process(State(Held(frames, d, p), frames[..d]), bad) == State(Held(frames, d, p), frames[..d])
    ensures |Wire(frames[..d + 1])| <= p ==>
              Process(State(Held(frames, d, p), frames[..d]), bad) == State(Held(frames, d + 1, p), frames[..d + 1])
  {
    HeldNext(frames, d, p);
    assert frames[..d] + [frames[d]] == frames[..d + 1];
  }

  lemma PrefixParts(w: seq<byte>, a: seq<byte>, c: seq<byte>)
    requires a + c <= w
    ensures a <= w && w[..|a|] == a && w[..|a|] + c == w[..|a| + |c|]
  {
    assert w[..|a + c|] == a + c;
  }

  lemma OneMore(frames: seq<Frame>, chunks: seq<seq<byte>>, bad: Frame -> bool)
    requires chunks != []
    ensures var init, chunk := chunks[..|chunks| - 1], chunks[|chunks| - 1];
            && Received(chunks) == Received(init) + chunk
            && ReceiveAll(chunks, bad) == Receive(ReceiveAll(init, bad), chunk, bad)
            && Dispatched(frames, chunks) == Min(Dispatched(frames, init) + 1, Complete(frames, |Received(init)| + |chunk|))
  {
  }

  /** Chunk-independent framing: over any split of a stream of messages, those handed on are the first
      of them in order, one more with each chunk as far as they are complete, and the rest is buffered. */
  lemma {:induction false} InOrder(frames: seq<Frame>, chunks: seq<seq<byte>>, bad: Frame -> bool)
    requires AllOk(frames) && NoneBad(frames, bad) && Received(chunks) <= Wire(frames)
    ensures var d := Dispatched(frames, chunks);
            && d <= |frames| && |Wire(frames[..d])| <= |Received(chunks)|
            && ReceiveAll(chunks, bad) == State(Held(frames, d, |Received(chunks)|), frames[..d])
  {
    UpToAll(frames, chunks, bad);
  }

  lemma {:induction false} UpToAll(frames: seq<Frame>, chunks: seq<seq<byte>>, bad: Frame -> bool)
    requires AllOk(frames) && NoneBad(frames, bad) && Received(chunks) <= Wire(frames)
    ensures UpTo(frames, Dispatched(frames, chunks), |Received(chunks)|, ReceiveAll(chunks, bad))
  {
    if chunks == [] {
      assert frames[..0] == [];
    } else {
      var init, chunk := chunks[..|chunks| - 1], chunks[|chunks| - 1];
      OneMore(frames, chunks, bad);
      PrefixParts(Wire(frames), Received(init), chunk);
      UpToAll(frames, init, bad);
      InOrderStep(frames, Dispatched(frames, init), |Received(init)|, ReceiveAll(init, bad), chunk, bad);
    }
  }

  lemma BufferLength(frames: seq<Frame>, d: nat, p: nat, s: State, chunk: seq<byte>)
    requires AllOk(frames) && UpTo(frames, d, p, s)
    requires p + |chunk| <= |Wire(frames)| && Wire(frames)[..p] + chunk == Wire(frames)[..p + |chunk|]
    ensures LengthOk(s.buffer + chunk)
  {
    HeldMore(frames, d, p, chunk);
    HeldLength(frames, d, p + |chunk|);
  }

  /** A stream of messages never announces a length that wraps around, however it is cut. */
  lemma {:induction false} FramesNeverWrap(frames: seq<Frame>, chunks: seq<seq<byte>>, bad: Frame -> bool)
    requires AllOk(frames) && NoneBad(frames, bad) && Received(chunks) <= Wire(frames)
    ensures NeverWraps(chunks, bad)
  {
    if chunks != [] {
      var init, chunk := chunks[..|chunks| - 1], chunks[|chunks| - 1];
      PrefixParts(Wire(frames), Received(init), chunk);
      FramesNeverWrap(frames, init, bad);
      UpToAll(frames, init, bad);
      OneMore(frames, chunks, bad);
      BufferLength(frames, Dispatched(frames, init), |Received(init)|, ReceiveAll(init, bad), chunk);
    }
  }

  /** Bytes whose announced length does wrap around: the source takes six bytes to be enough for them. */
  lemma WrappingLength()
    ensures var buffer := [1, 0, 10, 255, 255, 255, 255]; !LengthOk(buffer) && (COMMON_HEADERS + BodyLen(buffer)) % 0x1_0000_0000 == 6
  {
    var buffer: seq<byte> := [1, 0, 10, 255, 255, 255, 255];
    assert buffer[3..7] == [] + [255] + [255] + [255] + [255];
    ValueNext([], 255);
    ValueNext([] + [255], 255);
    ValueNext([] + [255] + [255], 255);
    ValueNext([] + [255] + [255] + [255], 255);
  }

  lemma ValueNext(s: seq<byte>, b: byte)
    ensures Value(s + [b]) == Value(s) * 256 + b
  {
    assert (s + [b])[..|s|] == s;
  }

  /** Enough chunks come after each point for the messages still incomplete there. */
  ghost predicate EnoughChunks(frames: seq<Frame>, chunks: seq<seq<byte>>, count: nat) {
    forall i | 0 <= i <= |chunks| :: count <= Complete(frames, |Received(chunks[..i])|) + (|chunks| - i)
  }

  lemma {:induction false} DispatchedAtLeast(frames: seq<Frame>, chunks: seq<seq<byte>>, count: nat)
    ensures count <= Dispatched(frames, chunks) <==>
            EnoughChunks(frames, chunks, count) && count <= |chunks|
  {
    var n := |chunks|;
    assert chunks[..n] == chunks;
    if n == 0 {
      if count <= 0 {
        assert EnoughChunks(frames, chunks, count);
      }
    } else {
      var init := chunks[..n - 1];
      if count > 0 {
        DispatchedAtLeast(frames, init, count - 1);
        forall i | 0 <= i < n ensures init[..i] == chunks[..i] {
        }
        if EnoughChunks(frames, chunks, count) {
          assert EnoughChunks(frames, init, count - 1);
          assert count <= Complete(frames, |Received(chunks[..n])|) + 0;
        }
        if EnoughChunks(frames, init, count - 1) && count <= Complete(frames, |Received(chunks)|) {
          forall i | 0 <= i <= n ensures count <= Complete(frames, |Received(chunks[..i])|) + (n - i) {
            if i < n {
              assert count - 1 <= Complete(frames, |Received(init[..i])|) + (n - 1 - i);
            }
          }
        }
      }
    }
  }

  /** When a whole stream is drained: every message is handed on if and only if no chunk completes
      more messages than chunks are left, the chunk itself included. */
  lemma DrainedIff(frames: seq<Frame>, chunks: seq<seq<byte>>, bad: Frame -> bool)
    requires AllOk(frames) && NoneBad(frames, bad) && Received(chunks) == Wire(frames)
    ensures ReceiveAll(chunks, bad) == State([], frames) <==> EnoughChunks(frames, chunks, |frames|) && |frames| <= |chunks|
  {
    var d := Dispatched(frames, chunks);
    DispatchedAtLeast(frames, chunks, |frames|);
    DispatchedFew(frames, chunks);
    UpToAll(frames, chunks, bad);
    DrainedAt(frames, d, ReceiveAll(chunks, bad));
  }

  lemma DrainedAt(frames: seq<Frame>, d: nat, s: State)
    requires UpTo(frames, d, |Wire(frames)|, s)
    ensures s == State([], frames) <==> d == |frames|
  {
    assert frames[..|frames|] == frames;
    assert s.out == frames ==> |frames[..d]| == |frames|;
    if d == |frames| {
      assert Wire(frames)[|Wire(frames)|..] == [];
    }
  }

  // ---------------------------------------------------------------- after a message that cannot be parsed

  /** The message at the front, once the chunk is there, is complete and cannot be parsed. */
  ghost predicate Breaks(s: State, chunk: seq<byte>, bad: Frame -> bool) {
    Ready(s.buffer + chunk) && bad(FirstFrame(s.buffer + chunk))
  }

  lemma ReceiveNext(chunks: seq<seq<byte>>, chunk: seq<byte>, bad: Frame -> bool)
    ensures ReceiveAll(chunks + [chunk], bad) == Receive(ReceiveAll(chunks, bad), chunk, bad)
  {
    assert (chunks + [chunk])[..|chunks|] == chunks;
  }

  /** What has been handed on before makes no difference to what is made of the next bytes. */
  lemma ReceiveAfter(s: State, out: seq<Frame>, chunk: seq<byte>, bad: Frame -> bool)
    ensures Receive(State(s.buffer, out + s.out), chunk, bad) ==
            State(Receive(s, chunk, bad).buffer, out + Receive(s, chunk, bad).out)
  {
  }

  /** Everything that is buffered goes with a message that cannot be parsed, and nothing else does: the chunks
      that follow are read as by a reader that starts with them. */
  lemma {:induction false} StartsOver(chunks: seq<seq<byte>>, chunk: seq<byte>, later: seq<seq<byte>>, bad: Frame -> bool)
    requires Breaks(ReceiveAll(chunks, bad), chunk, bad)
    ensures ReceiveAll(chunks + [chunk] + later, bad) ==
            State(ReceiveAll(later, bad).buffer, ReceiveAll(chunks, bad).out + ReceiveAll(later, bad).out)
    decreases |later|
  {
    if later == [] {
      assert chunks + [chunk] + later == chunks + [chunk];
      ReceiveNext(chunks, chunk, bad);
    } else {
      var init, last := later[..|later| - 1], later[|later| - 1];
      StartsOver(chunks, chunk, init, bad);
      assert later == init + [last];
      assert chunks + [chunk] + later == chunks + [chunk] + init + [last];
      ReceiveNext(chunks + [chunk] + init, last, bad);
      ReceiveNext(init, last, bad);
      ReceiveAfter(ReceiveAll(init, bad), ReceiveAll(chunks, bad).out, last, bad);
    }
  }
}
