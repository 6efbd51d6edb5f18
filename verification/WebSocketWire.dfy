/** The WebSocket wire of the Codex adapter: the handshake reply, the frames of the server, and the masked
    frames it sends (RFC 6455 sections 5.2 to 5.5). */
module WebSocketWire {
  import opened Bytes
  import opened IncrementalParser

  const MAX_HANDSHAKE_BYTES := 16 * 1024
  const CONTINUATION := 0
  const TEXT := 1
  const BINARY := 2
  const CLOSE := 8
  const PING := 9
  const PONG := 10

  datatype Event = Opened | Message(text: seq<Byte>) | Sent(opcode: nat, payload: seq<Byte>) | Ended | Failed
  datatype Phase = Handshake | Open | Closed
  datatype Wire = Wire(phase: Phase, fragments: seq<seq<Byte>>, fragmentBytes: nat, log: seq<Event>)

  /** The size limit, whether a handshake reply is acceptable, and whether bytes are valid UTF-8. */
  datatype Settings = Settings(maxPayload: nat, accepts: seq<Byte> -> bool, decodes: seq<Byte> -> bool)

  // ----- the reader, as a machine over the bytes received

  function Fail(w: Wire): Wire {
    Wire(Closed, [], 0, w.log + [Failed])
  }

  predicate BoundaryAt(b: seq<Byte>, i: nat) {
    i + 4 <= |b| && b[i] == 13 && b[i + 1] == 10 && b[i + 2] == 13 && b[i + 3] == 10
  }

  /** The first blank line at or after `from`, or the length when there is none. */
  function Boundary(b: seq<Byte>, from: nat): (i: nat)
    requires from <= |b|
    ensures from <= i <= |b|
    ensures i < |b| ==> BoundaryAt(b, i)
    ensures forall j :: from <= j < i ==> !BoundaryAt(b, j)
    decreases |b| - from
  {
    if from == |b| then |b| else if BoundaryAt(b, from) then from else Boundary(b, from + 1)
  }

  function HandshakeStep(k: Settings, w: Wire, b: seq<Byte>): Step<Wire> {
    var boundary := Boundary(b, 0);
    if (boundary < |b| && boundary + 4 > MAX_HANDSHAKE_BYTES) || (boundary == |b| && |b| > MAX_HANDSHAKE_BYTES) then
      Moved(Fail(w), 1)
    else if boundary == |b| then NeedMore
    else if k.accepts(b[..boundary]) then Moved(w.(phase := Open, log := w.log + [Opened]), boundary + 4)
    else Moved(Fail(w), boundary + 4)
  }

  function Concat(fragments: seq<seq<Byte>>): seq<Byte> {
    if fragments == [] then [] else fragments[0] + Concat(fragments[1..])
  }

  /** `#handleFrame`. */
  function Handle(k: Settings, w: Wire, opcode: nat, fin: bool, payload: seq<Byte>): Wire {
    if opcode >= CLOSE then
      if !fin || |payload| > 125 then Fail(w)
      else if opcode == CLOSE then Wire(Closed, [], 0, w.log + [Sent(CLOSE, payload), Ended])
      else if opcode == PING then w.(log := w.log + [Sent(PONG, payload)])
      else if opcode == PONG then w
      else Fail(w)
    else if opcode == BINARY then Fail(w)
    else if opcode == TEXT && w.fragments != [] then Fail(w)
    else if opcode == CONTINUATION && w.fragments == [] then Fail(w)
    else if opcode != TEXT && opcode != CONTINUATION then Fail(w)
    else
      var fragments := w.fragments + [payload];
      if !fin then
        w.(fragments := fragments, fragmentBytes := (if opcode == TEXT then 0 else w.fragmentBytes) + |payload|)
      else if k.decodes(Concat(fragments)) then Wire(w.phase, [], 0, w.log + [Message(Concat(fragments))])
      else Fail(w)
  }

  predicate IsData(opcode: nat) {
    opcode == CONTINUATION || opcode == TEXT || opcode == BINARY
  }

  /** The length of the frame's payload and where it starts, once the bytes that tell are there. */
  datatype Header = Short | TooLarge | Header(length: nat, offset: nat)

  function LengthOf(k: Settings, b: seq<Byte>): Header
    requires |b| >= 2
  {
    var length := b[1] % 128;
    if length == 126 then
      if |b| < 4 then Short else Header(Value(b[2..4]), 4)
    else if length == 127 then
      if |b| < 10 then Short else if Value(b[2..10]) > k.maxPayload then TooLarge else Header(Value(b[2..10]), 10)
    else Header(length, 2)
  }

  function FrameStep(k: Settings, w: Wire, b: seq<Byte>): Step<Wire> {
    if |b| < 2 then NeedMore
    else if (b[0] / 16) % 8 != 0 || b[1] >= 128 then Moved(Fail(w), 1)
    else
      var opcode := b[0] % 16;
      match LengthOf(k, b)
      case Short => NeedMore
      case TooLarge => Moved(Fail(w), 1)
      case Header(length, offset) =>
        if length > k.maxPayload || (IsData(opcode) && w.fragmentBytes + length > k.maxPayload) then Moved(Fail(w), 1)
        else if |b| < offset + length then NeedMore
        else Moved(Handle(k, w, opcode, b[0] >= 128, b[offset..offset + length]), offset + length)
  }

  function WireStep(k: Settings, w: Wire, b: seq<Byte>): Step<Wire> {
    match w.phase
    case Handshake => HandshakeStep(k, w, b)
    case Open => FrameStep(k, w, b)
    case Closed => if b == [] then NeedMore else Moved(w, 1)
  }

  function Reader(k: Settings): Machine<Wire, Byte> {
    (w, b) => WireStep(k, w, b)
  }

  // ----- chunk independence

  lemma BoundaryStays(b: seq<Byte>, c: seq<Byte>)
    ensures Boundary(b, 0) < |b| ==> Boundary(b + c, 0) == Boundary(b, 0)
    ensures Boundary(b, 0) == |b| ==> Boundary(b + c, 0) + 4 > |b|
  {
    var i := Boundary(b, 0);
    forall j | 0 <= j < i && j + 4 <= |b| ensures !BoundaryAt(b + c, j) {
      assert !BoundaryAt(b, j);
    }
    if i < |b| {
      assert BoundaryAt(b + c, i);
    }
  }

  lemma HandshakeStable(k: Settings, w: Wire, b: seq<Byte>, c: seq<Byte>)
    requires HandshakeStep(k, w, b).Moved?
    ensures 0 < HandshakeStep(k, w, b).used <= |b| && HandshakeStep(k, w, b + c) == HandshakeStep(k, w, b)
  {
    BoundaryStays(b, c);
    if Boundary(b, 0) < |b| {
      assert (b + c)[..Boundary(b, 0)] == b[..Boundary(b, 0)];
    }
  }

  lemma FrameStable(k: Settings, w: Wire, b: seq<Byte>, c: seq<Byte>)
    requires FrameStep(k, w, b).Moved?
    ensures 0 < FrameStep(k, w, b).used <= |b| && FrameStep(k, w, b + c) == FrameStep(k, w, b)
  {
    hide Handle, Value;
    if |b| >= 2 {
      if !LengthOf(k, b).Short? { LengthStable(k, b, c); }
      var h := LengthOf(k, b);
      if h.Header? && h.offset + h.length <= |b| {
        SliceStays(b, c, h.offset, h.offset + h.length);
      }
    }
  }

  lemma SliceStays(b: seq<Byte>, c: seq<Byte>, i: nat, j: nat)
    requires i <= j <= |b|
    ensures (b + c)[i..j] == b[i..j]
  {
    forall n | 0 <= n < j - i ensures (b + c)[i..j][n] == b[i..j][n] {
      assert (b + c)[i + n] == b[i + n];
    }
  }

  lemma LengthStable(k: Settings, b: seq<Byte>, c: seq<Byte>)
    requires |b| >= 2 && !LengthOf(k, b).Short?
    ensures LengthOf(k, b + c) == LengthOf(k, b)
  {
    if |b| >= 4 {
      SliceStays(b, c, 2, 4);
    }
    if |b| >= 10 {
      SliceStays(b, c, 2, 10);
    }
  }

  lemma ReaderIsStable(k: Settings)
    ensures Stable(Reader(k))
  {
    hide HandshakeStep, FrameStep;
    forall w: Wire, b: seq<Byte> ensures Reader(k)(w, b).Moved? ==> 0 < Reader(k)(w, b).used <= |b| {
      if w.phase.Handshake? && WireStep(k, w, b).Moved? { HandshakeStable(k, w, b, []); }
      if w.phase.Open? && WireStep(k, w, b).Moved? { FrameStable(k, w, b, []); }
    }
    forall w: Wire, b: seq<Byte>, c: seq<Byte>
      ensures Reader(k)(w, b).Moved? ==> Reader(k)(w, b + c) == Reader(k)(w, b)
    {
      if w.phase.Handshake? && WireStep(k, w, b).Moved? { HandshakeStable(k, w, b, c); }
      if w.phase.Open? && WireStep(k, w, b).Moved? { FrameStable(k, w, b, c); }
    }
  }

  lemma {:induction false} ClosedSwallows(k: Settings, w: Wire, b: seq<Byte>)
    requires w.phase.Closed? && Stable(Reader(k))
    ensures Drain(Reader(k), w, b) == (w, [])
    decreases |b|
  {
    if b != [] {
      ClosedSwallows(k, w, b[1..]);
    }
  }

  /** What a step of the frame reader makes of the rest. */
  lemma DrainSteps(k: Settings, w: Wire, b: seq<Byte>)
    requires w.phase.Open? && Stable(Reader(k))
    ensures var step := FrameStep(k, w, b);
            && (step.NeedMore? ==> Drain(Reader(k), w, b) == (w, b))
            && (step.Moved? ==>
                  && step.used <= |b| && Drain(Reader(k), w, b) == Drain(Reader(k), step.state, b[step.used..])
                  && (step.state.phase.Closed? ==> Drain(Reader(k), w, b) == (step.state, [])))
  {
    var step := FrameStep(k, w, b);
    assert Reader(k)(w, b) == step;
    hide FrameStep;
    if step.Moved? && step.state.phase.Closed? {
      ClosedSwallows(k, step.state, b[step.used..]);
    }
  }

  // ----- the object

  lemma {:induction false} ConcatWith(fragments: seq<seq<Byte>>, last: seq<Byte>)
    ensures Concat(fragments + [last]) == Concat(fragments) + last
  {
    if fragments == [] {
      assert [last][1..] == [] && Concat([last]) == last + [];
    } else {
      assert (fragments + [last])[1..] == fragments[1..] + [last];
      ConcatWith(fragments[1..], last);
      assert fragments[0] + (Concat(fragments[1..]) + last) == (fragments[0] + Concat(fragments[1..])) + last;
    }
  }

  lemma HeaderIsAhead(k: Settings, b: seq<Byte>)
    requires |b| >= 2
    ensures LengthOf(k, b).Header? ==> LengthOf(k, b).offset >= 2
  {
    hide Value;
  }

  lemma HandleOpensNothing(k: Settings, w: Wire, opcode: nat, fin: bool, payload: seq<Byte>)
    requires w.phase.Open?
    ensures !Handle(k, w, opcode, fin, payload).phase.Handshake?
  {
  }

  class CodexWebSocketWire {
    const settings: Settings
    var phase: Phase
    var buffer: seq<Byte>
    var fragments: seq<seq<Byte>>
    var fragmentBytes: nat
    var log: seq<Event>

    ghost function View(): Wire
      reads this
    {
      Wire(phase, fragments, fragmentBytes, log)
    }

    /** Everything that could be read has been; a closed wire has let go of its bytes. */
    ghost predicate Valid()
      reads this
    {
      WireStep(settings, View(), buffer).NeedMore? && Counted()
    }

    /** The running total is the length of the fragments kept. */
    ghost predicate Counted()
      reads this
    {
      fragmentBytes == |Concat(fragments)|
    }

    constructor (k: Settings)
      ensures settings == k && Valid() && buffer == [] && View() == Wire(Handshake, [], 0, [])
    {
      settings, phase, buffer, fragments, fragmentBytes, log := k, Handshake, [], [], 0, [];
    }

    method FailWith()
      modifies this`phase, this`buffer, this`fragments, this`fragmentBytes, this`log
      ensures View() == (if old(phase).Closed? then old(View()) else Fail(old(View())))
      ensures buffer == if old(phase).Closed? then old(buffer) else []
    {
      if phase.Closed? { return; }
      Finish();
      log := log + [Failed];
    }

    method Finish()
      modifies this`phase, this`buffer, this`fragments, this`fragmentBytes
      ensures phase.Closed? && (!old(phase).Closed? ==> buffer == [] && fragments == [] && fragmentBytes == 0)
      ensures old(phase).Closed? ==> View() == old(View()) && buffer == old(buffer)
    {
      if phase.Closed? { return; }
      phase, buffer, fragments, fragmentBytes := Closed, [], [], 0;
    }

    method ConsumeHandshake() returns (failed: bool, upgraded: bool)
      requires phase.Handshake?
      modifies this`phase, this`buffer, this`log
      ensures var step := HandshakeStep(settings, old(View()), old(buffer));
              && (failed ==> step.Moved? && step.state == Fail(old(View())) && View() == old(View()) && !upgraded)
              && (!failed && !upgraded ==> step.NeedMore? && View() == old(View()) && buffer == old(buffer))
              && (upgraded ==> step.Moved? && View() == step.state && phase.Open?)
              && (upgraded ==> step.used <= |old(buffer)| && buffer == old(buffer)[step.used..])
    {
      var boundary := Boundary(buffer, 0);
      if (boundary < |buffer| && boundary + 4 > MAX_HANDSHAKE_BYTES)
          || (boundary == |buffer| && |buffer| > MAX_HANDSHAKE_BYTES) {
        return true, false;
      }
      if boundary == |buffer| { return false, false; }
      var header := buffer[..boundary];
      buffer := buffer[boundary + 4..];
      if !settings.accepts(header) { return true, false; }
      phase, log := Open, log + [Opened];
      return false, true;
    }

    method HandleFrame(opcode: nat, fin: bool, payload: seq<Byte>) returns (failed: bool)
      requires phase.Open? && Counted()
      modifies this`phase, this`buffer, this`fragments, this`fragmentBytes, this`log
      ensures failed ==>
                Handle(settings, old(View()), opcode, fin, payload) == Fail(old(View())) && phase.Open?
                && log == old(log)
      ensures !failed ==>
                && View() == Handle(settings, old(View()), opcode, fin, payload) && Counted()
                && buffer == if phase.Open? then old(buffer) else []
    {
      if opcode >= CLOSE {
        if !fin || |payload| > 125 { return true; }
        if opcode == CLOSE {
          log := log + [Sent(CLOSE, payload)];
          Finish();
          log := log + [Ended];
          assert log == old(log) + [Sent(CLOSE, payload), Ended];
          return false;
        }
        if opcode == PING {
          log := log + [Sent(PONG, payload)];
          return false;
        }
        return opcode != PONG;
      }
      if opcode == BINARY { return true; }
      ConcatWith(fragments, payload);
      if opcode == TEXT {
        if fragments != [] { return true; }
        fragments, fragmentBytes := fragments + [payload], |payload|;
      } else if opcode == CONTINUATION {
        if fragments == [] { return true; }
        fragments, fragmentBytes := fragments + [payload], fragmentBytes + |payload|;
      } else {
        return true;
      }
      if !fin { return false; }
      var message := Concat(fragments);
      assert |message| == fragmentBytes;
      fragments, fragmentBytes := [], 0;
      if !settings.decodes(message) { return true; }
      log := log + [Message(message)];
      return false;
    }

    /** The length of the payload, and where it starts. */
    method ReadHeader() returns (header: Header)
      requires |buffer| >= 2
      ensures header == LengthOf(settings, buffer)
    {
      hide Value;
      var length, offset := buffer[1] % 128, 2;
      if length == 126 {
        if |buffer| < 4 { return Short; }
        length, offset := Value(buffer[2..4]), 4;
      } else if length == 127 {
        if |buffer| < 10 { return Short; }
        length, offset := Value(buffer[2..10]), 10;
        if length > settings.maxPayload { return TooLarge; }
      }
      return Header(length, offset);
    }

    method ConsumeFrames() returns (failed: bool)
      requires phase.Open? && Counted() && Stable(Reader(settings))
      modifies this`phase, this`buffer, this`fragments, this`fragmentBytes, this`log
      ensures failed ==> phase.Open? && Drain(Reader(settings), old(View()), old(buffer)) == (Fail(View()), [])
      ensures !failed ==> Counted() && Drain(Reader(settings), old(View()), old(buffer)) == (View(), buffer)
    {
      hide Handle, Stable, LengthOf, Drain;
      ghost var start, all := View(), buffer;
      while |buffer| >= 2
        invariant phase.Open? && Counted()
        invariant Drain(Reader(settings), View(), buffer) == Drain(Reader(settings), start, all)
        decreases |buffer|
      {
        DrainSteps(settings, View(), buffer);
        ghost var at, bytes := View(), buffer;
        var first, second := buffer[0], buffer[1];
        if (first / 16) % 8 != 0 || second >= 128 { return true; }
        var opcode, fin := first % 16, first >= 128;
        var header := ReadHeader();
        if header.Short? { return false; }
        if header.TooLarge? || header.length > settings.maxPayload
           || (IsData(opcode) && fragmentBytes + header.length > settings.maxPayload) {
          return true;
        }
        var end := header.offset + header.length;
        if |buffer| < end { return false; }
        var payload := buffer[header.offset..end];
        assert FrameStep(settings, at, bytes) == Moved(Handle(settings, at, opcode, fin, payload), end);
        HeaderIsAhead(settings, buffer);
        buffer := buffer[end..];
        failed := HandleFrame(opcode, fin, payload);
        if failed { return true; }
        if !phase.Open? {
          HandleOpensNothing(settings, at, opcode, fin, payload);
          return false;
        }
      }
      DrainSteps(settings, View(), buffer);
      return false;
    }

    /** A chunk arrives: the wire ends as the machine does on the bytes it had kept and the new ones. */
    method Receive(chunk: seq<Byte>)
      requires Valid()
      modifies this`phase, this`buffer, this`fragments, this`fragmentBytes, this`log
      ensures Valid() && Stable(Reader(settings))
      ensures (View(), buffer) == Drain(Reader(settings), old(View()), old(buffer) + chunk)
    {
      hide HandshakeStep, FrameStep, Handle;
      ReaderIsStable(settings);
      ghost var start, all := View(), buffer + chunk;
      DrainStops(Reader(settings), start, all);
      hide Stable;
      if phase.Closed? {
        ClosedSwallows(settings, start, all);
        return;
      }
      buffer := buffer + chunk;
      var failed := false;
      if phase.Handshake? {
        var upgraded;
        failed, upgraded := ConsumeHandshake();
        if failed {
          ClosedSwallows(settings, Fail(start), all[HandshakeStep(settings, start, all).used..]);
        }
        if !failed && !upgraded { return; }
      }
      if !failed && phase.Open? {
        failed := ConsumeFrames();
      }
      if failed {
        FailWith();
      }
    }
  }
}
