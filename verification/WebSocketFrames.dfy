/** What the wire delivers for the frames a server may send, and what a server reads from the frames the
    wire sends (RFC 6455 sections 5.2 to 5.5). */
module WebSocketFrames {
  import opened Common
  import opened Bytes
  import opened IncrementalParser
  import opened WebSocketWire

  datatype Frame = Frame(fin: bool, opcode: nat, payload: seq<Byte>)

  // ----- the server's encoding

  predicate Encodable(f: Frame) {
    f.opcode < 16 && |f.payload| < Power(8)
  }

  function FirstByte(fin: bool, opcode: nat): Byte
    requires opcode < 16
  {
    (if fin then 128 else 0) + opcode
  }

  /** The length in its shortest form; `mark` is 128 in a masked frame. */
  function LengthBytes(length: nat, mark: nat): seq<Byte>
    requires mark == 0 || mark == 128
  {
    if length < 126 then [mark + length]
    else if length <= 0xFFFF then [mark + 126] + BigEndian(length, 2)
    else [mark + 127] + BigEndian(length, 8)
  }

  function ServerBytes(f: Frame): seq<Byte>
    requires Encodable(f)
  {
    [FirstByte(f.fin, f.opcode)] + LengthBytes(|f.payload|, 0) + f.payload
  }

  predicate Fits(k: Settings, w: Wire, f: Frame) {
    Encodable(f) && |f.payload| <= k.maxPayload && (IsData(f.opcode) ==> w.fragmentBytes + |f.payload| <= k.maxPayload)
  }

  lemma TwoBytes()
    ensures Power(2) == 0x1_0000
  {
  }

  lemma LengthReads(k: Settings, f: Frame, rest: seq<Byte>)
    requires Encodable(f) && |f.payload| <= k.maxPayload
    ensures var b := ServerBytes(f) + rest;
            && |b| >= 2 && LengthOf(k, b) == Header(|f.payload|, |ServerBytes(f)| - |f.payload|)
            && b[0] == FirstByte(f.fin, f.opcode) && b[1] < 128
            && |b| >= |ServerBytes(f)| && b[|ServerBytes(f)| - |f.payload|..|ServerBytes(f)|] == f.payload
  {
    hide Power, Value, BigEndian;
    var n := |f.payload|;
    var b := ServerBytes(f) + rest;
    if 126 <= n <= 0xFFFF {
      TwoBytes();
      BigEndianReadsBack(n, 2);
      assert b[2..4] == BigEndian(n, 2);
    } else if n > 0xFFFF {
      BigEndianReadsBack(n, 8);
      assert b[2..10] == BigEndian(n, 8);
    }
  }

  /** One encoded frame is read as that frame, whatever follows it. */
  lemma FrameReads(k: Settings, w: Wire, f: Frame, rest: seq<Byte>)
    requires Fits(k, w, f)
    ensures FrameStep(k, w, ServerBytes(f) + rest) == Moved(Handle(k, w, f.opcode, f.fin, f.payload), |ServerBytes(f)|)
  {
    hide Handle, LengthOf, ServerBytes, Encodable;
    assert f.opcode < 16 by {
      EncodableOpcode(f);
    }
    LengthReads(k, f, rest);
  }

  lemma EncodableOpcode(f: Frame)
    requires Encodable(f)
    ensures f.opcode < 16
  {
  }

  // ----- whole streams of frames

  ghost function HandleAll(k: Settings, w: Wire, frames: seq<Frame>): Wire
    decreases |frames|
  {
    if frames == [] || !w.phase.Open? then w
    else HandleAll(k, Handle(k, w, frames[0].opcode, frames[0].fin, frames[0].payload), frames[1..])
  }

  ghost predicate AllFit(k: Settings, w: Wire, frames: seq<Frame>)
    decreases |frames|
  {
    frames == [] || !w.phase.Open?
    || (Fits(k, w, frames[0])
        && AllFit(k, Handle(k, w, frames[0].opcode, frames[0].fin, frames[0].payload), frames[1..]))
  }

  ghost function AllBytes(frames: seq<Frame>): seq<Byte>
    requires forall i :: 0 <= i < |frames| ==> Encodable(frames[i])
  {
    if frames == [] then [] else ServerBytes(frames[0]) + AllBytes(frames[1..])
  }

  lemma {:induction false} StreamReads(k: Settings, w: Wire, frames: seq<Frame>)
    requires w.phase.Open? && AllFit(k, w, frames)
    requires forall i :: 0 <= i < |frames| ==> Encodable(frames[i])
    ensures Stable(Reader(k))
    ensures Drain(Reader(k), w, AllBytes(frames)) == (HandleAll(k, w, frames), [])
    decreases |frames|
  {
    ReaderIsStable(k);
    if frames != [] {
      hide Handle, Stable, ServerBytes, Encodable, FrameStep;
      var f, rest := frames[0], AllBytes(frames[1..]);
      FrameReads(k, w, f, rest);
      var next := Handle(k, w, f.opcode, f.fin, f.payload);
      assert Reader(k)(w, AllBytes(frames)) == Moved(next, |ServerBytes(f)|);
      assert (ServerBytes(f) + rest)[|ServerBytes(f)|..] == rest;
      match next.phase {
        case Open => StreamReads(k, next, frames[1..]);
        case Closed => ClosedSwallows(k, next, rest);
        case Handshake => HandleOpensNothing(k, w, f.opcode, f.fin, f.payload);
      }
    }
  }

  // ----- what is delivered

  ghost function MessagesOf(log: seq<Event>): seq<seq<Byte>> {
    if log == [] then [] else (if log[0].Message? then [log[0].text] else []) + MessagesOf(log[1..])
  }

  ghost function PongsOf(log: seq<Event>): seq<seq<Byte>> {
    if log == [] then []
    else (if log[0].Sent? && log[0].opcode == PONG then [log[0].payload] else []) + PongsOf(log[1..])
  }

  lemma {:induction false} LogWith(log: seq<Event>, e: Event)
    ensures MessagesOf(log + [e]) == MessagesOf(log) + if e.Message? then [e.text] else []
    ensures PongsOf(log + [e]) == PongsOf(log) + if e.Sent? && e.opcode == PONG then [e.payload] else []
  {
    if log == [] {
      assert [e][1..] == [];
    } else {
      assert (log + [e])[1..] == log[1..] + [e];
      LogWith(log[1..], e);
    }
  }

  function DataFrames(frames: seq<Frame>): seq<Frame> {
    if frames == [] then []
    else if frames[0].opcode < CLOSE then [frames[0]] + DataFrames(frames[1..])
    else DataFrames(frames[1..])
  }

  function PingsIn(frames: seq<Frame>): seq<seq<Byte>> {
    if frames == [] then [] else (if frames[0].opcode == PING then [frames[0].payload] else []) + PingsIn(frames[1..])
  }

  /** The messages of a list of data frames: the payloads up to each final frame, joined; `pending` are the
      payloads of a message already begun. */
  function Assemble(frames: seq<Frame>, pending: seq<seq<Byte>>): seq<seq<Byte>> {
    if frames == [] then []
    else if frames[0].fin then [Concat(pending + [frames[0].payload])] + Assemble(frames[1..], [])
    else Assemble(frames[1..], pending + [frames[0].payload])
  }

  /** What a server may send without closing: control frames anywhere, whole and short; a text frame only
      between messages, continuations only inside one; messages of valid UTF-8 within the size limit. */
  ghost predicate Legal(k: Settings, frames: seq<Frame>, pending: seq<seq<Byte>>) {
    frames == [] ||
    var f := frames[0];
    if f.opcode == PING || f.opcode == PONG then
      f.fin && |f.payload| <= 125 && |f.payload| <= k.maxPayload && Legal(k, frames[1..], pending)
    else
      && f.opcode == (if pending == [] then TEXT else CONTINUATION)
      && |Concat(pending + [f.payload])| <= k.maxPayload && |f.payload| < Power(8)
      && (f.fin ==> k.decodes(Concat(pending + [f.payload])))
      && Legal(k, frames[1..], if f.fin then [] else pending + [f.payload])
  }

  lemma LegalStep(k: Settings, w: Wire, frames: seq<Frame>)
    requires frames != [] && w.phase.Open? && w.fragmentBytes == |Concat(w.fragments)| && Legal(k, frames, w.fragments)
    ensures var f := frames[0];
            var next := Handle(k, w, f.opcode, f.fin, f.payload);
            && Fits(k, w, f) && next.phase.Open? && next.fragmentBytes == |Concat(next.fragments)|
            && Legal(k, frames[1..], next.fragments)
            && MessagesOf(next.log) + Assemble(DataFrames(frames[1..]), next.fragments)
               == MessagesOf(w.log) + Assemble(DataFrames(frames), w.fragments)
            && PongsOf(next.log) + PingsIn(frames[1..]) == PongsOf(w.log) + PingsIn(frames)
  {
    var f := frames[0];
    assert Power(8) >= 126 by {
      TwoBytes();
      assert Power(8) >= Power(2) by {
        PowerGrows(2, 8);
      }
    }
    ConcatWith(w.fragments, f.payload);
    LegalDelivers(k, w, frames);
  }

  lemma {:induction false} PowerGrows(a: nat, b: nat)
    requires a <= b
    ensures Power(a) <= Power(b)
  {
    if a < b {
      PowerGrows(a, b - 1);
    }
  }

  lemma LegalDelivers(k: Settings, w: Wire, frames: seq<Frame>)
    requires frames != [] && w.phase.Open? && Legal(k, frames, w.fragments)
    ensures var f := frames[0];
            var next := Handle(k, w, f.opcode, f.fin, f.payload);
            && MessagesOf(next.log) + Assemble(DataFrames(frames[1..]), next.fragments)
               == MessagesOf(w.log) + Assemble(DataFrames(frames), w.fragments)
            && PongsOf(next.log) + PingsIn(frames[1..]) == PongsOf(w.log) + PingsIn(frames)
  {
    LegalHandled(k, w, frames);
    hide Handle, Legal, Concat, MessagesOf, PongsOf, Assemble;
    if frames[0].opcode < CLOSE {
      DataDelivers(k, w, frames);
    } else {
      ControlDelivers(k, w, frames);
    }
  }

  /** What handling one legal frame does. */
  ghost predicate Handled(w: Wire, f: Frame, next: Wire) {
    if f.opcode < CLOSE then
      var pending := w.fragments + [f.payload];
      if f.fin then next.fragments == [] && next.log == w.log + [Message(Concat(pending))]
      else next.fragments == pending && next.log == w.log
    else
      next.fragments == w.fragments && next.log == if f.opcode == PING then w.log + [Sent(PONG, f.payload)] else w.log
  }

  lemma LegalHandled(k: Settings, w: Wire, frames: seq<Frame>)
    requires frames != [] && w.phase.Open? && Legal(k, frames, w.fragments)
    ensures Handled(w, frames[0], Handle(k, w, frames[0].opcode, frames[0].fin, frames[0].payload))
  {
    hide Concat, Power;
  }

  lemma DataDelivers(k: Settings, w: Wire, frames: seq<Frame>)
    requires frames != [] && frames[0].opcode < CLOSE
    requires Handled(w, frames[0], Handle(k, w, frames[0].opcode, frames[0].fin, frames[0].payload))
    ensures var next := Handle(k, w, frames[0].opcode, frames[0].fin, frames[0].payload);
            && MessagesOf(next.log) + Assemble(DataFrames(frames[1..]), next.fragments)
               == MessagesOf(w.log) + Assemble(DataFrames(frames), w.fragments)
            && PongsOf(next.log) + PingsIn(frames[1..]) == PongsOf(w.log) + PingsIn(frames)
  {
    hide Handle, Concat, MessagesOf, PongsOf, Assemble;
    var f, rest := frames[0], DataFrames(frames[1..]);
    assert DataFrames(frames) == [f] + rest && PingsIn(frames) == [] + PingsIn(frames[1..]) == PingsIn(frames[1..]);
    AssembleNext(f, rest, w.fragments);
    LogWith(w.log, Message(Concat(w.fragments + [f.payload])));
    assert PongsOf(w.log) + [] == PongsOf(w.log);
    if f.fin {
      Regroup(MessagesOf(w.log), [Concat(w.fragments + [f.payload])], Assemble(rest, []));
    }
  }

  lemma ControlDelivers(k: Settings, w: Wire, frames: seq<Frame>)
    requires frames != [] && frames[0].opcode >= CLOSE
    requires Handled(w, frames[0], Handle(k, w, frames[0].opcode, frames[0].fin, frames[0].payload))
    ensures var next := Handle(k, w, frames[0].opcode, frames[0].fin, frames[0].payload);
            && MessagesOf(next.log) + Assemble(DataFrames(frames[1..]), next.fragments)
               == MessagesOf(w.log) + Assemble(DataFrames(frames), w.fragments)
            && PongsOf(next.log) + PingsIn(frames[1..]) == PongsOf(w.log) + PingsIn(frames)
  {
    hide Handle, Concat, MessagesOf, PongsOf, Assemble;
    var f := frames[0];
    LogWith(w.log, Sent(PONG, f.payload));
    assert MessagesOf(w.log) + [] == MessagesOf(w.log);
    assert [] + PingsIn(frames[1..]) == PingsIn(frames[1..]);
    Regroup(PongsOf(w.log), [f.payload], PingsIn(frames[1..]));
  }

  lemma AssembleNext(f: Frame, rest: seq<Frame>, pending: seq<seq<Byte>>)
    ensures Assemble([f] + rest, pending)
            == if f.fin then [Concat(pending + [f.payload])] + Assemble(rest, [])
               else Assemble(rest, pending + [f.payload])
  {
    assert ([f] + rest)[1..] == rest;
  }

  lemma Regroup(a: seq<seq<Byte>>, b: seq<seq<Byte>>, c: seq<seq<Byte>>)
    ensures (a + b) + c == a + (b + c)
  {
  }

  /** A legal stream of frames keeps the wire open; it delivers exactly the messages of its data frames, in
      order and with control frames removed, and answers its pings in order. */
  lemma {:induction false} LegalStreamIsDelivered(k: Settings, w: Wire, frames: seq<Frame>)
    requires w.phase.Open? && w.fragmentBytes == |Concat(w.fragments)| && Legal(k, frames, w.fragments)
    ensures AllFit(k, w, frames) && HandleAll(k, w, frames).phase.Open?
    ensures MessagesOf(HandleAll(k, w, frames).log) == MessagesOf(w.log) + Assemble(DataFrames(frames), w.fragments)
    ensures PongsOf(HandleAll(k, w, frames).log) == PongsOf(w.log) + PingsIn(frames)
    ensures forall i :: 0 <= i < |frames| ==> Encodable(frames[i])
    decreases |frames|
  {
    if frames == [] {
      assert MessagesOf(w.log) + [] == MessagesOf(w.log) && PongsOf(w.log) + [] == PongsOf(w.log);
    } else {
      LegalStep(k, w, frames);
      hide Legal, Handle, Fits, Concat, MessagesOf, PongsOf, Assemble, DataFrames, PingsIn, Encodable;
      var f := frames[0];
      LegalStreamIsDelivered(k, Handle(k, w, f.opcode, f.fin, f.payload), frames[1..]);
      FitsEncodable(k, w, f);
      forall i | 0 <= i < |frames| ensures Encodable(frames[i]) {
        assert i > 0 ==> frames[i] == frames[1..][i - 1];
      }
    }
  }

  lemma FitsEncodable(k: Settings, w: Wire, f: Frame)
    requires Fits(k, w, f)
    ensures Encodable(f)
  {
  }

  const BLANK_LINE: seq<Byte> := [13, 10, 13, 10]

  /** The whole reply of a server, in whatever chunks it arrives: an acceptable handshake, then a legal
      stream of frames. Nothing is left over, and the messages come out whole and in order. */
  lemma ServerIsHeard(k: Settings, header: seq<Byte>, frames: seq<Frame>, chunks: seq<seq<Byte>>)
    requires Legal(k, frames, []) && k.accepts(header)
    requires |header| + 4 <= MAX_HANDSHAKE_BYTES && Boundary(header + BLANK_LINE, 0) == |header|
    requires forall i :: 0 <= i < |frames| ==> Encodable(frames[i])
    requires Joined(chunks) == header + BLANK_LINE + AllBytes(frames)
    ensures Stable(Reader(k))
    ensures var (w, left) := Feed(Reader(k), (Wire(Handshake, [], 0, []), []), chunks);
            && w.phase.Open? && left == []
            && MessagesOf(w.log) == Assemble(DataFrames(frames), []) && PongsOf(w.log) == PingsIn(frames)
  {
    var start := Wire(Handshake, [], 0, []);
    var open := Wire(Open, [], 0, [Opened]);
    var all, bytes := Joined(chunks), AllBytes(frames);
    NothingLogged();
    ReaderIsStable(k);
    hide Legal, AllFit, HandleAll, AllBytes, Assemble, DataFrames, PingsIn, HandshakeStep, Stable, Boundary, MessagesOf,
         PongsOf, FrameStep, Encodable;
    HandshakeReads(k, header, bytes);
    assert all[|header| + 4..] == bytes;
    LegalStreamIsDelivered(k, open, frames);
    StreamReads(k, open, frames);
    NothingYet(k, start);
    ChunksDoNotMatter(Reader(k), start, [], chunks);
    assert [] + all == all;
  }

  lemma NothingLogged()
    ensures MessagesOf([Opened]) == [] && PongsOf([Opened]) == []
  {
  }

  lemma HandshakeReads(k: Settings, header: seq<Byte>, bytes: seq<Byte>)
    requires k.accepts(header) && |header| + 4 <= MAX_HANDSHAKE_BYTES && Boundary(header + BLANK_LINE, 0) == |header|
    ensures HandshakeStep(k, Wire(Handshake, [], 0, []), header + BLANK_LINE + bytes)
            == Moved(Wire(Open, [], 0, [Opened]), |header| + 4)
  {
    var all := header + BLANK_LINE + bytes;
    BoundaryStays(header + BLANK_LINE, bytes);
    hide Boundary;
    assert all[..|header|] == header;
    assert [] + [Opened] == [Opened];
  }

  lemma NothingYet(k: Settings, w: Wire)
    ensures Stable(Reader(k)) && Drain(Reader(k), w, []) == (w, [])
  {
    ReaderIsStable(k);
  }

  // ----- no message is larger than the limit, whatever the server sends

  ghost predicate WithinLimit(k: Settings, w: Wire) {
    && w.fragmentBytes == |Concat(w.fragments)| <= k.maxPayload
    && forall e :: e in w.log && e.Message? ==> |e.text| <= k.maxPayload
  }

  /** The log grows by at most one message, whose fragments were counted. */
  lemma HandleWithinLimit(k: Settings, w: Wire, opcode: nat, fin: bool, payload: seq<Byte>)
    requires WithinLimit(k, w) && (IsData(opcode) ==> w.fragmentBytes + |payload| <= k.maxPayload)
    ensures WithinLimit(k, Handle(k, w, opcode, fin, payload))
  {
    ConcatWith(w.fragments, payload);
    NoFragments();
    hide Concat;
    var next := Handle(k, w, opcode, fin, payload);
    if opcode >= CLOSE {
      assert forall e :: e in next.log && e.Message? ==> e in w.log;
    } else {
      assert forall e :: e in next.log && e.Message? ==> e in w.log || e == Message(Concat(w.fragments + [payload]));
    }
  }

  lemma StepWithinLimit(k: Settings, w: Wire, b: seq<Byte>)
    requires WithinLimit(k, w) && WireStep(k, w, b).Moved?
    ensures WithinLimit(k, WireStep(k, w, b).state)
  {
    if w.phase.Open? {
      hide Handle, Concat;
      assert Concat([]) == [] by {
        NoFragments();
      }
      if |b| >= 2 && LengthOf(k, b).Header? {
        var (length, offset) := (LengthOf(k, b).length, LengthOf(k, b).offset);
        if offset + length <= |b| && (IsData(b[0] % 16) ==> w.fragmentBytes + length <= k.maxPayload) {
          HandleWithinLimit(k, w, b[0] % 16, b[0] >= 128, b[offset..offset + length]);
        }
      }
    }
  }

  lemma NoFragments()
    ensures Concat([]) == []
  {
  }

  /** For any bytes at all, every message delivered is within the size limit. */
  lemma {:induction false} MessagesAreBounded(k: Settings, w: Wire, b: seq<Byte>)
    requires WithinLimit(k, w)
    ensures Stable(Reader(k)) && WithinLimit(k, Drain(Reader(k), w, b).0)
    decreases |b|
  {
    hide WithinLimit, WireStep;
    ReaderIsStable(k);
    if Reader(k)(w, b).Moved? {
      StepWithinLimit(k, w, b);
      MessagesAreBounded(k, Reader(k)(w, b).state, b[Reader(k)(w, b).used..]);
    }
  }

  // ----- the masked frames the wire sends

  function Masked(payload: seq<Byte>, mask: seq<Byte>): (masked: seq<Byte>)
    requires |mask| == 4
    ensures |masked| == |payload|
  {
    seq(|payload|, i requires 0 <= i < |payload| => Xor(payload[i], mask[i % 4]))
  }

  function ClientBytes(mask: seq<Byte>, opcode: nat, payload: seq<Byte>): seq<Byte>
    requires |mask| == 4 && opcode < 16 && |payload| < Power(8)
  {
    [FirstByte(true, opcode)] + LengthBytes(|payload|, 128) + mask + Masked(payload, mask)
  }

  /** `#sendFrame`: builds the header and masks the payload into a buffer. */
  method SendFrame(mask: seq<Byte>, opcode: nat, payload: seq<Byte>) returns (frame: seq<Byte>)
    requires |mask| == 4 && opcode < 16 && |payload| < Power(8)
    ensures frame == ClientBytes(mask, opcode, payload)
  {
    hide Xor, BigEndian, Power;
    var header: seq<Byte>;
    if |payload| < 126 {
      header := [128 + opcode, 128 + |payload|];
    } else if |payload| <= 0xFFFF {
      header := [128 + opcode, 128 + 126] + BigEndian(|payload|, 2);
    } else {
      header := [128 + opcode, 128 + 127] + BigEndian(|payload|, 8);
    }
    assert header == [FirstByte(true, opcode)] + LengthBytes(|payload|, 128);
    var masked := new Byte[|payload|];
    var index := 0;
    while index < |payload|
      invariant index <= |payload|
      invariant forall i :: 0 <= i < index ==> masked[i] == Xor(payload[i], mask[i % 4])
    {
      masked[index] := Xor(payload[index], mask[index % 4]);
      index := index + 1;
    }
    assert masked[..] == Masked(payload, mask);
    frame := header + mask + masked[..];
  }

  /** How a server reads a whole masked frame: RFC 6455 sections 5.2 and 5.3. */
  function ReadClient(b: seq<Byte>): Option<Frame> {
    if |b| < 2 || (b[0] / 16) % 8 != 0 || b[1] < 128 then None
    else
      var short := b[1] - 128;
      var offset := if short == 126 then 4 else if short == 127 then 10 else 2;
      if |b| < offset + 4 then None
      else
        var length := if offset == 2 then short else Value(b[2..offset]);
        if |b| != offset + 4 + length then None
        else Some(Frame(b[0] >= 128, b[0] % 16, Masked(b[offset + 4..], b[offset..offset + 4])))
  }

  lemma MaskUndone(payload: seq<Byte>, mask: seq<Byte>)
    requires |mask| == 4
    ensures Masked(Masked(payload, mask), mask) == payload
  {
    hide Xor;
    forall i | 0 <= i < |payload| ensures Masked(Masked(payload, mask), mask)[i] == payload[i] {
      XorUndone(payload[i], mask[i % 4]);
    }
  }

  /** For every mask and every length, in all three length encodings, the server reads back the opcode and
      the payload. */
  lemma ClientFrameReadsBack(mask: seq<Byte>, opcode: nat, payload: seq<Byte>)
    requires |mask| == 4 && opcode < 16 && |payload| < Power(8)
    ensures ReadClient(ClientBytes(mask, opcode, payload)) == Some(Frame(true, opcode, payload))
  {
    MaskUndone(payload, mask);
    hide Power, Value, BigEndian, Masked;
    var n := |payload|;
    var b := ClientBytes(mask, opcode, payload);
    var masked := Masked(payload, mask);
    var offset := 1 + |LengthBytes(n, 128)|;
    if 126 <= n <= 0xFFFF {
      TwoBytes();
      BigEndianReadsBack(n, 2);
      assert b[2..4] == BigEndian(n, 2);
    } else if n > 0xFFFF {
      BigEndianReadsBack(n, 8);
      assert b[2..10] == BigEndian(n, 8);
    }
    assert b[offset..offset + 4] == mask && b[offset + 4..] == masked;
  }
}
