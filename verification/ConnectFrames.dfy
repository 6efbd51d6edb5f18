/** Reading the envelopes of a Connect stream: a flag, a length of four bytes, and a JSON object. */
module ConnectFrames {
  import opened Bytes
  import opened IncrementalParser

  const MAX_STREAM_BYTES := 32 * 1024 * 1024
  const MAX_STREAM_FRAME_BYTES := 1024 * 1024
  const MAX_STREAM_FRAMES := 50_000
  const END_FLAG := 2

  datatype Item = Item(end: bool, payload: seq<Byte>)

  /** What has been read; `refused` after an invalid or excessive envelope. */
  datatype Stream = Stream(refused: bool, ended: bool, frames: nat, items: seq<Item>)

  /** Whether a payload is empty or the text of a JSON object. */
  type Judge = seq<Byte> -> bool

  function Refuse(s: Stream): Stream {
    s.(refused := true)
  }

  function EnvelopeStep(judge: Judge, s: Stream, b: seq<Byte>): Step<Stream> {
    if s.refused then
      if b == [] then NeedMore else Moved(s, 1)
    else if |b| < 5 then NeedMore
    else if s.ended || (b[0] != 0 && b[0] != END_FLAG) || Value(b[1..5]) > MAX_STREAM_FRAME_BYTES then
      Moved(Refuse(s), 1)
    else
      var size := 5 + Value(b[1..5]);
      if |b| < size then NeedMore
      else if s.frames + 1 > MAX_STREAM_FRAMES || !judge(b[5..size]) then Moved(Refuse(s), 1)
      else
        var end := b[0] == END_FLAG;
        Moved(Stream(false, end, s.frames + 1, s.items + [Item(end, b[5..size])]), size)
  }

  function Reader(judge: Judge): Machine<Stream, Byte> {
    (s, b) => EnvelopeStep(judge, s, b)
  }

  lemma EnvelopeStable(judge: Judge, s: Stream, b: seq<Byte>, c: seq<Byte>)
    requires EnvelopeStep(judge, s, b).Moved?
    ensures 0 < EnvelopeStep(judge, s, b).used <= |b| && EnvelopeStep(judge, s, b + c) == EnvelopeStep(judge, s, b)
  {
    hide Value;
    if |b| >= 5 {
      assert (b + c)[1..5] == b[1..5];
      var size := 5 + Value(b[1..5]);
      if size <= |b| {
        assert (b + c)[5..size] == b[5..size];
      }
    }
  }

  lemma ReaderIsStable(judge: Judge)
    ensures Stable(Reader(judge))
  {
    hide EnvelopeStep;
    forall s: Stream, b: seq<Byte> ensures Reader(judge)(s, b).Moved? ==> 0 < Reader(judge)(s, b).used <= |b| {
      if EnvelopeStep(judge, s, b).Moved? { EnvelopeStable(judge, s, b, []); }
    }
    forall s: Stream, b: seq<Byte>, c: seq<Byte>
      ensures Reader(judge)(s, b).Moved? ==> Reader(judge)(s, b + c) == Reader(judge)(s, b)
    {
      if EnvelopeStep(judge, s, b).Moved? { EnvelopeStable(judge, s, b, c); }
    }
  }

  lemma {:induction false} RefusedSwallows(judge: Judge, s: Stream, b: seq<Byte>)
    requires s.refused && Stable(Reader(judge))
    ensures Drain(Reader(judge), s, b) == (s, [])
    decreases |b|
  {
    if b != [] {
      RefusedSwallows(judge, s, b[1..]);
    }
  }

  // ----- the loop over the chunks of a response

  method Consume(judge: Judge, initial: Stream, bytes: seq<Byte>) returns (s: Stream, pending: seq<Byte>)
    requires Stable(Reader(judge)) && !initial.refused
    ensures (s, pending) == Drain(Reader(judge), initial, bytes)
  {
    hide Stable, Value;
    s, pending := initial, bytes;
    while |pending| >= 5
      invariant !s.refused && Drain(Reader(judge), s, pending) == Drain(Reader(judge), initial, bytes)
      decreases |pending|
    {
      RefusedSwallows(judge, Refuse(s), pending[1..]);
      if s.ended { return Refuse(s), []; }
      var flags, length := pending[0], Value(pending[1..5]);
      if (flags != 0 && flags != END_FLAG) || length > MAX_STREAM_FRAME_BYTES { return Refuse(s), []; }
      if |pending| < 5 + length { break; }
      var payload := pending[5..5 + length];
      if s.frames + 1 > MAX_STREAM_FRAMES || !judge(payload) { return Refuse(s), []; }
      var end := flags == END_FLAG;
      s, pending := Stream(false, end, s.frames + 1, s.items + [Item(end, payload)]), pending[5 + length..];
    }
  }

  lemma NothingRead(judge: Judge, s: Stream)
    requires Stable(Reader(judge)) && !s.refused
    ensures Drain(Reader(judge), s, []) == (s, [])
  {
  }

  lemma {:induction false} JoinedWith(chunks: seq<seq<Byte>>, i: nat)
    requires i < |chunks|
    ensures Joined(chunks[..i + 1]) == Joined(chunks[..i]) + chunks[i]
  {
    if i == 0 {
      assert chunks[..1][1..] == [];
    } else {
      JoinedWith(chunks[1..], i - 1);
      assert chunks[..i + 1][1..] == chunks[1..][..i] && chunks[..i][1..] == chunks[1..][..i - 1];
    }
  }

  lemma {:induction false} JoinedPrefix(chunks: seq<seq<Byte>>, i: nat)
    requires i <= |chunks|
    ensures Joined(chunks) == Joined(chunks[..i]) + Joined(chunks[i..])
  {
    if i == 0 {
      assert chunks[0..] == chunks;
    } else {
      JoinedPrefix(chunks[1..], i - 1);
      assert chunks[..i][1..] == chunks[1..][..i - 1] && chunks[1..][i - 1..] == chunks[i..];
    }
  }

  lemma LaterChunks(judge: Judge, start: Stream, chunks: seq<seq<Byte>>, i: nat)
    requires Stable(Reader(judge)) && i <= |chunks| && Drain(Reader(judge), start, Joined(chunks[..i])).0.refused
    ensures Drain(Reader(judge), start, Joined(chunks)) == (Drain(Reader(judge), start, Joined(chunks[..i])).0, [])
  {
    hide Stable, EnvelopeStep;
    var (s, left) := Drain(Reader(judge), start, Joined(chunks[..i]));
    JoinedPrefix(chunks, i);
    DrainAgain(Reader(judge), start, Joined(chunks[..i]), Joined(chunks[i..]));
    RefusedSwallows(judge, s, left + Joined(chunks[i..]));
  }

  /** `connectJsonFrames`, for a response that arrives in these chunks: `total` counts the bytes, `pending`
      holds those not yet used. Past the byte cap it stops at once, with what it had read. */
  method Read(judge: Judge, chunks: seq<seq<Byte>>) returns (s: Stream, complete: bool)
    ensures Stable(Reader(judge))
    ensures |Joined(chunks)| <= MAX_STREAM_BYTES ==>
              var (all, left) := Drain(Reader(judge), Stream(false, false, 0, []), Joined(chunks));
              s == all && (complete <==> !all.refused && left == [])
    ensures |Joined(chunks)| > MAX_STREAM_BYTES ==> s.refused && !complete
  {
    ReaderIsStable(judge);
    hide EnvelopeStep, Stable;
    var pending: seq<Byte>, total, i := [], 0, 0;
    s := Stream(false, false, 0, []);
    ghost var start := s;
    NothingRead(judge, start);
    while i < |chunks|
      invariant i <= |chunks| && total == |Joined(chunks[..i])| <= MAX_STREAM_BYTES && !s.refused
      invariant (s, pending) == Drain(Reader(judge), start, Joined(chunks[..i]))
    {
      JoinedWith(chunks, i);
      JoinedPrefix(chunks, i + 1);
      total := total + |chunks[i]|;
      if total > MAX_STREAM_BYTES { return Refuse(s), false; }
      DrainAgain(Reader(judge), start, Joined(chunks[..i]), chunks[i]);
      pending := pending + chunks[i];
      s, pending := Consume(judge, s, pending);
      if s.refused {
        LaterChunks(judge, start, chunks, i + 1);
        return s, false;
      }
      i := i + 1;
    }
    assert chunks[..i] == chunks;
    return s, pending == [];
  }

  // ----- what a well-formed stream delivers

  function Envelope(item: Item): seq<Byte>
    requires |item.payload| <= MAX_STREAM_FRAME_BYTES
  {
    [if item.end then END_FLAG else 0] + BigEndian(|item.payload|, 4) + item.payload
  }

  ghost function Envelopes(items: seq<Item>): seq<Byte>
    requires forall i :: 0 <= i < |items| ==> |items[i].payload| <= MAX_STREAM_FRAME_BYTES
  {
    if items == [] then [] else Envelope(items[0]) + Envelopes(items[1..])
  }

  lemma FourBytes()
    ensures Power(4) > MAX_STREAM_FRAME_BYTES
  {
    assert Power(2) == 0x1_0000;
  }

  lemma EnvelopeReads(judge: Judge, s: Stream, item: Item, rest: seq<Byte>)
    requires !s.refused && !s.ended && s.frames < MAX_STREAM_FRAMES && |item.payload| <= MAX_STREAM_FRAME_BYTES
    requires judge(item.payload)
    ensures EnvelopeStep(judge, s, Envelope(item) + rest)
            == Moved(Stream(false, item.end, s.frames + 1, s.items + [item]), |Envelope(item)|)
  {
    hide Power, Value, BigEndian;
    var b := Envelope(item) + rest;
    FourBytes();
    BigEndianReadsBack(|item.payload|, 4);
    assert b[1..5] == BigEndian(|item.payload|, 4);
    assert b[5..5 + |item.payload|] == item.payload;
  }

  /** Envelopes of acceptable payloads, only the last of them flagged as the end, come out as they went in. */
  lemma {:induction false} EnvelopesRead(judge: Judge, s: Stream, items: seq<Item>)
    requires !s.refused && !s.ended && s.frames + |items| <= MAX_STREAM_FRAMES
    requires forall i :: 0 <= i < |items| ==> |items[i].payload| <= MAX_STREAM_FRAME_BYTES && judge(items[i].payload)
    requires forall i :: 0 <= i < |items| - 1 ==> !items[i].end
    ensures Stable(Reader(judge))
    ensures var (t, left) := Drain(Reader(judge), s, Envelopes(items));
            !t.refused && left == [] && t.items == s.items + items && t.frames == s.frames + |items|
    decreases |items|
  {
    ReaderIsStable(judge);
    if items == [] {
      assert s.items + [] == s.items;
    } else {
      hide Stable, Envelope, EnvelopeStep;
      var rest := Envelopes(items[1..]);
      var next := Stream(false, items[0].end, s.frames + 1, s.items + [items[0]]);
      EnvelopeReads(judge, s, items[0], rest);
      assert Reader(judge)(s, Envelopes(items)) == Moved(next, |Envelope(items[0])|);
      assert (Envelope(items[0]) + rest)[|Envelope(items[0])|..] == rest;
      assert s.items + items == next.items + items[1..];
      if |items| == 1 {
        EnvelopesDone(judge, next);
      } else {
        EnvelopesRead(judge, next, items[1..]);
      }
    }
  }

  lemma EnvelopesDone(judge: Judge, s: Stream)
    requires Stable(Reader(judge)) && !s.refused
    ensures Drain(Reader(judge), s, Envelopes([])) == (s, [])
  {
  }
}
