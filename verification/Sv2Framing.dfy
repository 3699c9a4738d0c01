/** client_session.cpp: the SV2 frame writer and reader (Stratum V2 specification, section 3.2).  Over the
    encrypted transport a frame is a 22-byte sealed header and a sealed payload; each sealed unit is opened
    once with the next counter value. */
module Sv2Framing {
  import Bits
  import opened Options
  import Sequences

  type Byte = Bits.Byte

  const MAX_MSG_LENGTH := 65519
  const READ_BUFFER := 4096
  const MAC := 16

  datatype Header = Header(extension: nat, kind: nat, length: nat)
  datatype Message = Message(extension: nat, kind: nat, payload: seq<Byte>)

  // An authenticated cipher keyed for one direction: seal and open under a counter.
  datatype Cipher = Cipher(seal: (nat, seq<Byte>) -> seq<Byte>, unseal: (nat, seq<Byte>) -> Option<seq<Byte>>)

  ghost predicate Sound(c: Cipher) {
    && (forall n: nat, p: seq<Byte> :: |c.seal(n, p)| == |p| + MAC && c.unseal(n, c.seal(n, p)) == Some(p))
    && (forall n: nat, x: seq<Byte> :: c.unseal(n, x).Some? ==> |x| == |c.unseal(n, x).value| + MAC)
  }

  // ----- headers -----

  ghost predicate IsHeader(h: Header) {
    h.extension < 0x1_0000 && h.kind < 0x100 && h.length < 0x100_0000
  }

  function Low(n: nat): Byte {
    n % 256
  }

  // Little endian: two bytes of extension, one of type, three of length.
  function HeaderBytes(h: Header): (b: seq<Byte>)
    ensures |b| == 6
  {
    [Low(h.extension), Low(h.extension / 256), Low(h.kind), Low(h.length), Low(h.length / 256), Low(h.length / 65536)]
  }

  function ParseHeader(b: seq<Byte>): Header
    requires |b| >= 6
  {
    var b0: nat, b1: nat, b2: nat, b3: nat, b4: nat, b5: nat := b[0], b[1], b[2], b[3], b[4], b[5];
    Header(b0 + 256 * b1, b2, b3 + 256 * b4 + 65536 * b5)
  }

  lemma HeaderRoundTrip(h: Header)
    requires IsHeader(h)
    ensures ParseHeader(HeaderBytes(h)) == h
  {
    ThreeBytes(h.length);
  }

  // The number that the bytes of b spell, least significant first.
  ghost function LittleEndian(b: seq<Byte>): nat {
    if b == [] then 0 else var low: nat := b[0]; low + 256 * LittleEndian(b[1..])
  }

  lemma TwoDigits(b: seq<Byte>)
    ensures |b| == 2 ==> var b0: nat, b1: nat := b[0], b[1]; LittleEndian(b) == b0 + 256 * b1
    ensures |b| == 3 ==>
              var b0: nat, b1: nat, b2: nat := b[0], b[1], b[2];
              LittleEndian(b) == b0 + 256 * b1 + 65536 * b2
  {
    if |b| == 2 {
      assert LittleEndian(b[1..][1..]) == 0;
    }
    if |b| == 3 {
      assert LittleEndian(b[1..][1..][1..]) == 0;
    }
  }

  /** The extension type is in bytes 0 and 1, the message type in byte 2 and the length in bytes 3 to 5. */
  lemma HeaderLayout(h: Header)
    requires IsHeader(h)
    ensures var b := HeaderBytes(h);
            LittleEndian(b[..2]) == h.extension && b[2] == h.kind && LittleEndian(b[3..]) == h.length
  {
    var b := HeaderBytes(h);
    TwoDigits(b[..2]);
    TwoDigits(b[3..]);
    ThreeBytes(h.length);
  }

  lemma ThreeBytes(n: nat)
    requires n < 0x100_0000
    ensures n == n % 256 + 256 * (n / 256 % 256) + 65536 * (n / 65536 % 256)
  {
    assert n / 65536 == n / 256 / 256;
  }

  // ----- writing -----

  predicate IsChannelMsg(kind: nat) {
    kind == 0x15 || 0x16 <= kind <= 0x1d || 0x1f <= kind <= 0x21
  }

  // The channel bit of the extension type is set for channel-scoped messages.
  function WireExtension(extension: nat, kind: nat): nat {
    if IsChannelMsg(kind) then extension % 0x8000 + 0x8000 else extension
  }

  // The header of a frame; the length field has 24 bits.
  function HeaderFor(m: Message): Header {
    Header(WireExtension(m.extension, m.kind), m.kind, |m.payload| % 0x100_0000)
  }

  /** The top bit of the extension type is set for the channel messages of the mining protocol and else left alone, as
      are the other bits. */
  lemma ChannelBit(m: Message)
    requires m.extension < 0x1_0000 && m.kind < 0x100
    ensures var b := HeaderBytes(HeaderFor(m));
            && (b[1] >= 128 <==> m.extension >= 0x8000
                                 || m.kind in {0x15, 0x16, 0x17, 0x18, 0x19, 0x1a, 0x1b, 0x1c, 0x1d, 0x1f, 0x20, 0x21})
            && LittleEndian(b[..2]) % 0x8000 == m.extension % 0x8000
  {
    HeaderLayout(HeaderFor(m));
    TwoDigits(HeaderBytes(HeaderFor(m))[..2]);
  }

  // How many units a message seals: an empty payload is not sealed.
  function Units(m: Message): nat {
    if m.payload == [] then 1 else 2
  }

  /** What send_v2_message puts on the wire; encrypted when there is a cipher. */
  function Frame(cipher: Option<Cipher>, tx: nat, m: Message): seq<Byte> {
    match cipher
    case None => HeaderBytes(HeaderFor(m)) + m.payload
    case Some(c) => c.seal(tx, HeaderBytes(HeaderFor(m))) + Body(c, tx + 1, m)
  }

  function Body(c: Cipher, tx: nat, m: Message): seq<Byte> {
    if m.payload == [] then Bits.ZeroBytes(MAC) else c.seal(tx, m.payload)
  }

  function NextTx(cipher: Option<Cipher>, tx: nat, m: Message): nat {
    if cipher.Some? then tx + Units(m) else tx
  }

  function Stream(cipher: Option<Cipher>, tx: nat, ms: seq<Message>): seq<Byte>
    decreases ms
  {
    if ms == [] then [] else Frame(cipher, tx, ms[0]) + Stream(cipher, NextTx(cipher, tx, ms[0]), ms[1..])
  }

  function TxAfter(cipher: Option<Cipher>, tx: nat, ms: seq<Message>): nat
    decreases ms
  {
    if ms == [] then tx else TxAfter(cipher, NextTx(cipher, tx, ms[0]), ms[1..])
  }

  // ----- reading -----

  datatype Reader = Reader(buffer: seq<Byte>, pending: Option<Header>, rx: nat, delivered: seq<Message>, closed: bool)

  function Append(r: Reader, chunk: seq<Byte>): Reader {
    r.(buffer := r.buffer + chunk)
  }

  function Close(r: Reader): Reader {
    r.(closed := true)
  }

  function Deliver(r: Reader, h: Header, payload: seq<Byte>, used: nat, rx: nat): Reader
    requires used <= |r.buffer|
  {
    Reader(r.buffer[used..], None, rx, r.delivered + [Message(h.extension, h.kind, payload)], r.closed)
  }

  // One decoding step; None when more bytes are needed or the session is closed.
  function Next(cipher: Option<Cipher>, r: Reader): Option<Reader> {
    if r.closed then None
    else match cipher
      case None => NextPlain(r)
      case Some(c) => if r.pending.None? then NextHeader(c, r) else NextPayload(c, r, r.pending.value)
  }

  function NextPlain(r: Reader): Option<Reader> {
    if |r.buffer| < 6 then None
    else
      var h := ParseHeader(r.buffer);
      if h.length > MAX_MSG_LENGTH then Some(Close(r))
      else if |r.buffer| < 6 + h.length then None
      else Some(Deliver(r, h, r.buffer[6..6 + h.length], 6 + h.length, r.rx))
  }

  function NextHeader(c: Cipher, r: Reader): Option<Reader> {
    if |r.buffer| < 22 then None
    else
      var text := c.unseal(r.rx, r.buffer[..22]);
      if text.None? || |text.value| < 6 then Some(Close(r))
      else
        var h := ParseHeader(text.value);
        if h.length > MAX_MSG_LENGTH then Some(Close(r.(rx := r.rx + 1)))
        else Some(r.(buffer := r.buffer[22..], pending := Some(h), rx := r.rx + 1))
  }

  function NextPayload(c: Cipher, r: Reader, h: Header): Option<Reader> {
    var required := h.length + MAC;
    if |r.buffer| < required then None
    else if h.length == 0 then Some(Deliver(r, h, [], required, r.rx))
    else
      var text := c.unseal(r.rx, r.buffer[..required]);
      if text.None? then Some(Close(r)) else Some(Deliver(r, h, text.value, required, r.rx + 1))
  }

  function Measure(r: Reader): nat {
    (if r.closed then 0 else 1) + 2 * |r.buffer| + (if r.pending.None? then 1 else 0)
  }

  lemma NextShrinks(cipher: Option<Cipher>, r: Reader)
    requires Next(cipher, r).Some?
    ensures Measure(Next(cipher, r).value) < Measure(r)
  {}

  /** process_v2_buffer: decode for as long as there is enough. */
  function Process(cipher: Option<Cipher>, r: Reader): Reader
    decreases Measure(r)
  {
    var next := Next(cipher, r);
    if next.None? then r else NextShrinks(cipher, r); Process(cipher, next.value)
  }

  // A read appends what arrived and decodes.
  function Feed(cipher: Option<Cipher>, r: Reader, chunk: seq<Byte>): Reader {
    Process(cipher, Append(r, chunk))
  }

  function FeedAll(cipher: Option<Cipher>, r: Reader, chunks: seq<seq<Byte>>): Reader
    decreases chunks
  {
    if chunks == [] then r else FeedAll(cipher, Feed(cipher, r, chunks[0]), chunks[1..])
  }

  function Joined(chunks: seq<seq<Byte>>): seq<Byte> {
    if chunks == [] then [] else chunks[0] + Joined(chunks[1..])
  }

  // ----- how the stream is cut into reads does not matter -----

  // More bytes do not change a step that can be taken.
  lemma NextMonotone(cipher: Option<Cipher>, r: Reader, chunk: seq<Byte>)
    requires Next(cipher, r).Some?
    ensures Next(cipher, Append(r, chunk)) == Some(Append(Next(cipher, r).value, chunk))
  {
    var b := r.buffer;
    assert forall k :: 0 <= k <= |b| ==> (b + chunk)[..k] == b[..k] && (b + chunk)[k..] == b[k..] + chunk;
    if cipher.None? && |b| >= 6 {
      assert ParseHeader(b + chunk) == ParseHeader(b);
      var n := 6 + ParseHeader(b).length;
      if n <= |b| {
        assert (b + chunk)[6..n] == b[6..n];
      }
    }
  }

  lemma {:induction false} ProcessAppend(cipher: Option<Cipher>, r: Reader, chunk: seq<Byte>)
    ensures Process(cipher, Append(r, chunk)) == Process(cipher, Append(Process(cipher, r), chunk))
    decreases Measure(r)
  {
    if Next(cipher, r).Some? {
      NextShrinks(cipher, r);
      NextMonotone(cipher, r, chunk);
      ProcessAppend(cipher, Next(cipher, r).value, chunk);
    }
  }

  /** However the bytes are cut into reads, the reader ends as if they had come at once. */
  lemma {:induction false} FeedAllIsFeed(cipher: Option<Cipher>, r: Reader, chunks: seq<seq<Byte>>)
    ensures Process(cipher, FeedAll(cipher, r, chunks)) == Process(cipher, Append(r, Joined(chunks)))
    decreases chunks
  {
    if chunks == [] {
      assert r.buffer + [] == r.buffer;
    } else {
      FeedAllIsFeed(cipher, Feed(cipher, r, chunks[0]), chunks[1..]);
      ProcessAppend(cipher, Append(r, chunks[0]), Joined(chunks[1..]));
      assert r.buffer + chunks[0] + Joined(chunks[1..]) == r.buffer + Joined(chunks);
    }
  }

  lemma {:induction false} ProcessSettles(cipher: Option<Cipher>, r: Reader)
    ensures Next(cipher, Process(cipher, r)).None?
    decreases Measure(r)
  {
    if Next(cipher, r).Some? {
      NextShrinks(cipher, r);
      ProcessSettles(cipher, Next(cipher, r).value);
    }
  }

  lemma {:induction false} FeedAllSettles(cipher: Option<Cipher>, r: Reader, chunks: seq<seq<Byte>>)
    requires Next(cipher, r).None?
    ensures Next(cipher, FeedAll(cipher, r, chunks)).None?
    decreases chunks
  {
    if chunks != [] {
      ProcessSettles(cipher, Append(r, chunks[0]));
      FeedAllSettles(cipher, Feed(cipher, r, chunks[0]), chunks[1..]);
    }
  }

  // ----- every message arrives, once and in order -----

  ghost predicate Sendable(m: Message) {
    m.extension < 0x1_0000 && m.kind < 0x100 && |m.payload| <= MAX_MSG_LENGTH
  }

  ghost predicate AllSendable(ms: seq<Message>) {
    forall i :: 0 <= i < |ms| ==> Sendable(ms[i])
  }

  ghost predicate Usable(cipher: Option<Cipher>) {
    cipher.Some? ==> Sound(cipher.value)
  }

  function Wired(m: Message): Message {
    m.(extension := WireExtension(m.extension, m.kind))
  }

  function AllWired(ms: seq<Message>): seq<Message> {
    if ms == [] then [] else [Wired(ms[0])] + AllWired(ms[1..])
  }

  ghost predicate AtBoundary(r: Reader) {
    !r.closed && r.pending.None?
  }

  // The reader once a frame is consumed.
  function Received(cipher: Option<Cipher>, r: Reader, m: Message, rest: seq<Byte>): Reader {
    Reader(rest, None, NextTx(cipher, r.rx, m), r.delivered + [Wired(m)], r.closed)
  }

  lemma PlainFrame(r: Reader, m: Message, rest: seq<Byte>)
    requires AtBoundary(r) && Sendable(m) && r.buffer == Frame(None, r.rx, m) + rest
    ensures Next(None, r) == Some(Received(None, r, m, rest))
  {
    var hb := HeaderBytes(HeaderFor(m));
    HeaderRoundTrip(HeaderFor(m));
    assert ParseHeader(r.buffer) == ParseHeader(hb);
    assert r.buffer[6..6 + |m.payload|] == m.payload;
    assert r.buffer[6 + |m.payload|..] == rest;
  }

  lemma SealedHeader(c: Cipher, r: Reader, m: Message, tail: seq<Byte>)
    requires AtBoundary(r) && Sound(c) && m.extension < 0x1_0000 && m.kind < 0x100
    requires r.buffer == c.seal(r.rx, HeaderBytes(HeaderFor(m))) + tail
    ensures HeaderFor(m).length > MAX_MSG_LENGTH ==> Next(Some(c), r) == Some(Close(r.(rx := r.rx + 1)))
    ensures HeaderFor(m).length <= MAX_MSG_LENGTH ==>
              Next(Some(c), r) == Some(Halfway(r, m, tail))
  {
    HeaderRoundTrip(HeaderFor(m));
    assert r.buffer[..22] == c.seal(r.rx, HeaderBytes(HeaderFor(m)));
    assert r.buffer[22..] == tail;
  }

  // The reader between the two units of a frame.
  function Halfway(r: Reader, m: Message, tail: seq<Byte>): Reader {
    r.(buffer := tail, pending := Some(HeaderFor(m)), rx := r.rx + 1)
  }

  lemma SealedPayload(c: Cipher, r: Reader, m: Message, rest: seq<Byte>)
    requires !r.closed && Sound(c) && Sendable(m)
    ensures Next(Some(c), Halfway(r, m, Body(c, r.rx + 1, m) + rest)) == Some(Received(Some(c), r, m, rest))
  {
    var buffer := Body(c, r.rx + 1, m) + rest;
    var required := |m.payload| + MAC;
    assert buffer[required..] == rest;
    if m.payload != [] {
      assert buffer[..required] == c.seal(r.rx + 1, m.payload);
    }
  }

  lemma TwoSteps(cipher: Option<Cipher>, r: Reader, next: Reader, last: Reader)
    requires Next(cipher, r) == Some(next) && Next(cipher, next) == Some(last)
    ensures Process(cipher, r) == Process(cipher, last)
  {
    NextShrinks(cipher, r);
    NextShrinks(cipher, next);
  }

  lemma SealedFrame(c: Cipher, r: Reader, m: Message, rest: seq<Byte>)
    requires AtBoundary(r) && Sound(c) && Sendable(m) && r.buffer == Frame(Some(c), r.rx, m) + rest
    ensures Process(Some(c), r) == Process(Some(c), Received(Some(c), r, m, rest))
  {
    var tail := Body(c, r.rx + 1, m) + rest;
    assert r.buffer == c.seal(r.rx, HeaderBytes(HeaderFor(m))) + tail;
    SealedHeader(c, r, m, tail);
    SealedPayload(c, r, m, rest);
    TwoSteps(Some(c), r, Halfway(r, m, tail), Received(Some(c), r, m, rest));
  }

  lemma FrameReceived(cipher: Option<Cipher>, r: Reader, m: Message, rest: seq<Byte>)
    requires AtBoundary(r) && Usable(cipher) && Sendable(m) && r.buffer == Frame(cipher, r.rx, m) + rest
    ensures Process(cipher, r) == Process(cipher, Received(cipher, r, m, rest))
  {
    match cipher {
      case None =>
        PlainFrame(r, m, rest);
        NextShrinks(cipher, r);
      case Some(c) =>
        SealedFrame(c, r, m, rest);
    }
  }

  lemma {:induction false} StreamReceived(cipher: Option<Cipher>, r: Reader, ms: seq<Message>)
    requires AtBoundary(r) && Usable(cipher) && AllSendable(ms) && r.buffer == Stream(cipher, r.rx, ms)
    ensures Process(cipher, r) == Reader([], None, TxAfter(cipher, r.rx, ms), r.delivered + AllWired(ms), false)
    decreases ms
  {
    if ms == [] {
      assert r.delivered + [] == r.delivered;
    } else {
      var rest := Stream(cipher, NextTx(cipher, r.rx, ms[0]), ms[1..]);
      FrameReceived(cipher, r, ms[0], rest);
      var next := Received(cipher, r, ms[0], rest);
      StreamReceived(cipher, next, ms[1..]);
      OneMore(r.delivered, ms);
    }
  }

  lemma OneMore(delivered: seq<Message>, ms: seq<Message>)
    requires ms != []
    ensures delivered + [Wired(ms[0])] + AllWired(ms[1..]) == delivered + AllWired(ms)
  {
    Sequences.Associates(delivered, [Wired(ms[0])], AllWired(ms[1..]));
  }

  function Fresh(rx: nat): Reader {
    Reader([], None, rx, [], false)
  }

  lemma FreshAppend(rx: nat, bytes: seq<Byte>)
    ensures Append(Fresh(rx), bytes).buffer == bytes
  {}

  /** Any sequence of messages, cut into reads in any way, arrives in order and, but for the channel bit that the
      writer sets, unchanged; and afterwards both sides have used the same number of counter values. */
  lemma RoundTrip(cipher: Option<Cipher>, tx: nat, ms: seq<Message>, chunks: seq<seq<Byte>>)
    requires Usable(cipher) && AllSendable(ms) && Joined(chunks) == Stream(cipher, tx, ms)
    ensures FeedAll(cipher, Fresh(tx), chunks) == Reader([], None, TxAfter(cipher, tx, ms), AllWired(ms), false)
  {
    FeedAllIsFeed(cipher, Fresh(tx), chunks);
    FeedAllSettles(cipher, Fresh(tx), chunks);
    FreshAppend(tx, Joined(chunks));
    StreamReceived(cipher, Append(Fresh(tx), Joined(chunks)), ms);
    assert [] + AllWired(ms) == AllWired(ms);
  }

  /** A message whose length field is over the limit closes the session and is not delivered: below 2^24 bytes every
      message over the limit. */
  lemma OversizeCloses(cipher: Option<Cipher>, r: Reader, m: Message, rest: seq<Byte>)
    requires AtBoundary(r) && Usable(cipher) && m.extension < 0x1_0000 && m.kind < 0x100
    requires MAX_MSG_LENGTH < |m.payload| % 0x100_0000 && r.buffer == Frame(cipher, r.rx, m) + rest
    ensures Process(cipher, r).closed && Process(cipher, r).delivered == r.delivered
  {
    match cipher {
      case None =>
        HeaderRoundTrip(HeaderFor(m));
        assert ParseHeader(r.buffer) == ParseHeader(HeaderBytes(HeaderFor(m)));
        assert Next(cipher, r) == Some(Close(r));
        assert Next(cipher, Close(r)).None?;
      case Some(c) =>
        var tail := Body(c, r.rx + 1, m) + rest;
        assert r.buffer == c.seal(r.rx, HeaderBytes(HeaderFor(m))) + tail;
        SealedHeader(c, r, m, tail);
    }
  }

  lemma NextKeeps(cipher: Option<Cipher>, r: Reader)
    requires Next(cipher, r).Some?
    ensures r.delivered <= Next(cipher, r).value.delivered
  {}

  lemma {:induction false} ProcessKeeps(cipher: Option<Cipher>, r: Reader)
    ensures r.delivered <= Process(cipher, r).delivered
    decreases Measure(r)
  {
    if Next(cipher, r).Some? {
      NextShrinks(cipher, r);
      NextKeeps(cipher, r);
      ProcessKeeps(cipher, Next(cipher, r).value);
    }
  }

  // The next message that is delivered is this one.
  ghost predicate Arrives(before: Reader, after: Reader, m: Message) {
    |after.delivered| > |before.delivered| && after.delivered[|before.delivered|] == m
  }

  // Once something else is delivered, or the session is closed, it does not arrive.
  lemma NotThis(cipher: Option<Cipher>, r: Reader, next: Reader, m: Message)
    requires r.delivered <= next.delivered
    requires if |next.delivered| > |r.delivered| then next.delivered[|r.delivered|] != m else next.closed
    ensures !Arrives(r, Process(cipher, next), m)
  {
    ProcessKeeps(cipher, next);
  }

  // From 2^24 bytes on the length field wraps, and the reader takes the frame for a shorter one.
  lemma PlainWraps(r: Reader, m: Message, rest: seq<Byte>)
    requires AtBoundary(r) && m.extension < 0x1_0000 && m.kind < 0x100 && r.buffer == Frame(None, r.rx, m) + rest
    requires |m.payload| % 0x100_0000 <= MAX_MSG_LENGTH < |m.payload|
    ensures !Arrives(r, Process(None, r), Wired(m))
  {
    var n := |m.payload| % 0x100_0000;
    HeaderRoundTrip(HeaderFor(m));
    assert ParseHeader(r.buffer) == ParseHeader(HeaderBytes(HeaderFor(m)));
    var next := Deliver(r, HeaderFor(m), r.buffer[6..6 + n], 6 + n, r.rx);
    assert Next(None, r) == Some(next);
    NextShrinks(None, r);
    NotThis(None, r, next, Wired(m));
  }

  lemma SealedWraps(c: Cipher, r: Reader, m: Message, rest: seq<Byte>)
    requires AtBoundary(r) && Sound(c) && m.extension < 0x1_0000 && m.kind < 0x100
    requires r.buffer == Frame(Some(c), r.rx, m) + rest && |m.payload| % 0x100_0000 <= MAX_MSG_LENGTH < |m.payload|
    ensures !Arrives(r, Process(Some(c), r), Wired(m))
  {
    var tail := Body(c, r.rx + 1, m) + rest;
    assert r.buffer == c.seal(r.rx, HeaderBytes(HeaderFor(m))) + tail;
    SealedHeader(c, r, m, tail);
    TakenShort(c, r, m, tail);
    TwoSteps(Some(c), r, Halfway(r, m, tail), Next(Some(c), Halfway(r, m, tail)).value);
    NotThis(Some(c), r, Next(Some(c), Halfway(r, m, tail)).value, Wired(m));
  }

  lemma TakenShort(c: Cipher, r: Reader, m: Message, tail: seq<Byte>)
    requires !r.closed && Sound(c) && |m.payload| % 0x100_0000 <= MAX_MSG_LENGTH < |m.payload|
    requires |tail| >= |m.payload| + MAC
    ensures var half := Halfway(r, m, tail);
            && Next(Some(c), half).Some?
            && var next := Next(Some(c), half).value;
               && r.delivered <= next.delivered
               && if |next.delivered| > |r.delivered| then next.delivered[|r.delivered|] != Wired(m) else next.closed
  {}

  /** A frame's message arrives exactly when its payload is within the limit, whatever its length; what comes instead
      is a shorter message or the end of the session. */
  lemma FrameArrives(cipher: Option<Cipher>, r: Reader, m: Message, rest: seq<Byte>)
    requires AtBoundary(r) && Usable(cipher) && m.extension < 0x1_0000 && m.kind < 0x100
    requires r.buffer == Frame(cipher, r.rx, m) + rest
    ensures Arrives(r, Process(cipher, r), Wired(m)) <==> |m.payload| <= 65519
  {
    if |m.payload| <= MAX_MSG_LENGTH {
      FrameReceived(cipher, r, m, rest);
      ProcessKeeps(cipher, Received(cipher, r, m, rest));
    } else if |m.payload| % 0x100_0000 > MAX_MSG_LENGTH {
      OversizeCloses(cipher, r, m, rest);
    } else {
      match cipher {
        case None => PlainWraps(r, m, rest);
        case Some(c) => SealedWraps(c, r, m, rest);
      }
    }
  }

  // ----- the reads the session asks for -----

  // What do_read_v2 is asked for once decoding has stopped.
  function Missing(cipher: Option<Cipher>, r: Reader): int {
    if cipher.None? then (if |r.buffer| < 6 then 6 else 6 + ParseHeader(r.buffer).length) - |r.buffer|
    else (if r.pending.None? then 22 else r.pending.value.length + MAC) - |r.buffer|
  }

  lemma MissingPositive(cipher: Option<Cipher>, r: Reader)
    requires Next(cipher, r).None? && !r.closed
    ensures Missing(cipher, r) > 0
  {}

  // Fewer bytes than that change nothing, and neither does anything once closed.
  lemma Short(cipher: Option<Cipher>, r: Reader, bytes: seq<Byte>)
    requires Next(cipher, r).None? && (r.closed || |bytes| < Missing(cipher, r))
    ensures Process(cipher, Append(r, bytes)) == Append(r, bytes)
  {
    if !r.closed && cipher.None? && |r.buffer| >= 6 {
      assert ParseHeader(r.buffer + bytes) == ParseHeader(r.buffer);
    }
  }

  lemma CutStream(stream: seq<Byte>, pos: nat)
    requires pos <= |stream|
    ensures [] + stream[..pos] + stream[pos..] == stream
  {}

  /** On a stream of whole frames the session never waits for more bytes than are still to come. */
  lemma NeverStarves(cipher: Option<Cipher>, tx: nat, ms: seq<Message>, pos: nat)
    requires Usable(cipher) && AllSendable(ms) && pos < |Stream(cipher, tx, ms)|
    ensures var r := Process(cipher, Append(Fresh(tx), Stream(cipher, tx, ms)[..pos]));
            !r.closed && 0 < Missing(cipher, r) <= |Stream(cipher, tx, ms)| - pos
  {
    var stream := Stream(cipher, tx, ms);
    var read, rest := stream[..pos], stream[pos..];
    var r := Process(cipher, Append(Fresh(tx), read));
    ProcessSettles(cipher, Append(Fresh(tx), read));
    ProcessAppend(cipher, Append(Fresh(tx), read), rest);
    CutStream(stream, pos);
    FreshAppend(tx, stream);
    StreamReceived(cipher, Append(Fresh(tx), stream), ms);
    if r.closed || |rest| < Missing(cipher, r) {
      Short(cipher, r, rest);
    } else {
      MissingPositive(cipher, r);
    }
  }

  lemma ReadOn(cipher: Option<Cipher>, tx: nat, stream: seq<Byte>, pos: nat, n: nat)
    requires pos + n <= |stream|
    ensures Feed(cipher, Process(cipher, Append(Fresh(tx), stream[..pos])), stream[pos..pos + n])
            == Process(cipher, Append(Fresh(tx), stream[..pos + n]))
  {
    ProcessAppend(cipher, Append(Fresh(tx), stream[..pos]), stream[pos..pos + n]);
    assert [] + stream[..pos] + stream[pos..pos + n] == [] + stream[..pos + n];
  }

  lemma NextRead(cipher: Option<Cipher>, tx: nat, ms: seq<Message>, pos: nat, r: Reader, n: int)
    requires Usable(cipher) && AllSendable(ms) && pos < |Stream(cipher, tx, ms)|
    requires r == Process(cipher, Append(Fresh(tx), Stream(cipher, tx, ms)[..pos]))
    requires n == if Missing(cipher, r) <= READ_BUFFER then Missing(cipher, r) else READ_BUFFER
    ensures 0 < n <= READ_BUFFER && pos + n <= |Stream(cipher, tx, ms)|
    ensures Feed(cipher, r, Stream(cipher, tx, ms)[pos..pos + n])
            == Process(cipher, Append(Fresh(tx), Stream(cipher, tx, ms)[..pos + n]))
  {
    NeverStarves(cipher, tx, ms, pos);
    ReadOn(cipher, tx, Stream(cipher, tx, ms), pos, n);
  }

  lemma WholeStream(cipher: Option<Cipher>, tx: nat, ms: seq<Message>, pos: nat)
    requires Usable(cipher) && AllSendable(ms) && pos == |Stream(cipher, tx, ms)|
    ensures Process(cipher, Append(Fresh(tx), Stream(cipher, tx, ms)[..pos]))
            == Reader([], None, TxAfter(cipher, tx, ms), AllWired(ms), false)
  {
    var stream := Stream(cipher, tx, ms);
    assert stream[..pos] == stream;
    FreshAppend(tx, stream);
    StreamReceived(cipher, Append(Fresh(tx), stream), ms);
    assert [] + AllWired(ms) == AllWired(ms);
  }

  lemma NothingRead(cipher: Option<Cipher>, tx: nat, stream: seq<Byte>)
    ensures Process(cipher, Append(Fresh(tx), stream[..0])) == Fresh(tx)
  {
    assert [] + stream[..0] == [];
  }

  // ----- the session -----

  class Session {
    const cipher: Option<Cipher>
    var readBuffer: seq<Byte>
    var pendingHeader: Option<Header>
    var rxNonce: nat
    var txNonce: nat
    var messages: seq<Message>
    var closed: bool

    ghost function State(): Reader
      reads this
    {
      Reader(readBuffer, pendingHeader, rxNonce, messages, closed)
    }

    constructor (c: Option<Cipher>, nonce: nat)
      ensures cipher == c && State() == Fresh(nonce) && txNonce == nonce
    {
      cipher := c;
      readBuffer, pendingHeader, messages, closed := [], None, [], false;
      rxNonce, txNonce := nonce, nonce;
    }

    /** process_v2_buffer over the encrypted transport: open a header if none is pending. */
    method DecodeHeader(c: Cipher) returns (progress: bool)
      requires !closed && pendingHeader.None? && cipher == Some(c)
      modifies this
      ensures txNonce == old(txNonce)
      ensures if progress then Next(cipher, old(State())) == Some(State())
              else Next(cipher, old(State())).None? && State() == old(State())
    {
      if |readBuffer| < 22 {
        return false;
      }
      var header := c.unseal(rxNonce, readBuffer[..22]);
      if header.None? || |header.value| < 6 {
        closed := true;
        return true;
      }
      rxNonce := rxNonce + 1;
      var h := ParseHeader(header.value);
      if h.length > MAX_MSG_LENGTH {
        closed := true;
        return true;
      }
      readBuffer := readBuffer[22..];
      pendingHeader := Some(h);
      return true;
    }

    method DecodePayload(c: Cipher) returns (progress: bool)
      requires !closed && pendingHeader.Some? && cipher == Some(c)
      modifies this
      ensures txNonce == old(txNonce)
      ensures if progress then Next(cipher, old(State())) == Some(State())
              else Next(cipher, old(State())).None? && State() == old(State())
    {
      var h := pendingHeader.value;
      var required := h.length + 16;
      if |readBuffer| < required {
        return false;
      }
      var payload := [];
      if h.length > 0 {
        var text := c.unseal(rxNonce, readBuffer[..required]);
        if text.None? {
          closed := true;
          return true;
        }
        rxNonce := rxNonce + 1;
        payload := text.value;
      }
      readBuffer := readBuffer[required..];
      pendingHeader := None;
      messages := messages + [Message(h.extension, h.kind, payload)];
      return true;
    }

    method DecodePlain() returns (progress: bool)
      requires !closed && cipher.None?
      modifies this
      ensures txNonce == old(txNonce)
      ensures if progress then Next(cipher, old(State())) == Some(State())
              else Next(cipher, old(State())).None? && State() == old(State())
    {
      if |readBuffer| < 6 {
        return false;
      }
      var h := ParseHeader(readBuffer);
      if h.length > MAX_MSG_LENGTH {
        closed := true;
        return true;
      }
      var required := 6 + h.length;
      if |readBuffer| < required {
        return false;
      }
      messages := messages + [Message(h.extension, h.kind, readBuffer[6..required])];
      readBuffer := readBuffer[required..];
      pendingHeader := None;
      return true;
    }

    method ProcessV2Buffer()
      modifies this
      ensures State() == Process(cipher, old(State())) && txNonce == old(txNonce)
      decreases Measure(State())
    {
      if closed {
        return;
      }
      var progress;
      match cipher {
        case None =>
          progress := DecodePlain();
        case Some(c) =>
          if pendingHeader.None? {
            progress := DecodeHeader(c);
          } else {
            progress := DecodePayload(c);
          }
      }
      if progress {
        NextShrinks(cipher, old(State()));
        ProcessV2Buffer();
      }
    }

    method OnRead(chunk: seq<Byte>)
      modifies this
      ensures State() == Feed(cipher, old(State()), chunk) && txNonce == old(txNonce)
    {
      readBuffer := readBuffer + chunk;
      ProcessV2Buffer();
    }

    /** send_v2_message: the bytes handed to the socket. */
    method SendV2Message(m: Message) returns (wire: seq<Byte>)
      modifies this`txNonce
      ensures wire == Frame(cipher, old(txNonce), m) && txNonce == NextTx(cipher, old(txNonce), m)
    {
      var header := HeaderBytes(HeaderFor(m));
      match cipher {
        case None =>
          wire := header + m.payload;
        case Some(c) =>
          wire := c.seal(txNonce, header);
          txNonce := txNonce + 1;
          if m.payload != [] {
            wire := wire + c.seal(txNonce, m.payload);
            txNonce := txNonce + 1;
          } else {
            wire := wire + Bits.ZeroBytes(16);
          }
      }
    }

    /** The read loop on a stream of whole frames: every read asks for what is missing, at most the size of the
        read buffer, and finds it. */
    method Receive(ms: seq<Message>, stream: seq<Byte>, ghost tx: nat)
      requires State() == Fresh(tx) && Usable(cipher) && AllSendable(ms) && stream == Stream(cipher, tx, ms)
      modifies this
      ensures State() == Reader([], None, TxAfter(cipher, tx, ms), AllWired(ms), false)
    {
      var pos := 0;
      NothingRead(cipher, tx, stream);
      while pos < |stream|
        invariant pos <= |stream| && State() == Process(cipher, Append(Fresh(tx), stream[..pos]))
      {
        pos := ReadOnce(ms, stream, pos, tx);
      }
      WholeStream(cipher, tx, ms, pos);
    }

    // do_read_v2: a read of what is missing, at most a buffer full.
    method ReadOnce(ghost ms: seq<Message>, stream: seq<Byte>, pos: nat, ghost tx: nat) returns (next: nat)
      requires Usable(cipher) && AllSendable(ms) && stream == Stream(cipher, tx, ms) && pos < |stream|
      requires State() == Process(cipher, Append(Fresh(tx), stream[..pos]))
      modifies this
      ensures pos < next <= |stream| && next <= pos + READ_BUFFER
      ensures State() == Process(cipher, Append(Fresh(tx), stream[..next]))
    {
      var missing := Outstanding();
      var n := if missing <= READ_BUFFER then missing else READ_BUFFER;
      NextRead(cipher, tx, ms, pos, State(), n);
      OnRead(stream[pos..pos + n]);
      next := pos + n;
    }

    method Outstanding() returns (n: int)
      ensures n == Missing(cipher, State())
    {
      if cipher.None? {
        n := (if |readBuffer| < 6 then 6 else 6 + ParseHeader(readBuffer).length) - |readBuffer|;
      } else {
        n := (if pendingHeader.None? then 22 else pendingHeader.value.length + 16) - |readBuffer|;
      }
    }
  }
}
