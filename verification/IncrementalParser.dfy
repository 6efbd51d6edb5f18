/** Parsers that are fed a stream in chunks: they keep what they could not use yet and go on from there. */
module IncrementalParser {

  /** One step on the bytes at hand: more are needed, or the state moves and some bytes are used up. */
  datatype Step<S> = NeedMore | Moved(state: S, used: nat)

  type Machine<!S, !B> = (S, seq<B>) -> Step<S>

  /** A step that can be taken uses up at least one byte, and bytes that arrive later do not change it. */
  ghost predicate Stable<S(!new), B(!new)>(step: Machine<S, B>) {
    && (forall s, b :: step(s, b).Moved? ==> 0 < step(s, b).used <= |b|)
    && (forall s, b, c :: step(s, b).Moved? ==> step(s, b + c) == step(s, b))
  }

  /** Takes steps while it can; gives the state reached and the bytes left over. */
  ghost function Drain<S(!new), B(!new)>(step: Machine<S, B>, s: S, b: seq<B>): (S, seq<B>)
    requires Stable(step)
    decreases |b|
  {
    match step(s, b)
    case NeedMore => (s, b)
    case Moved(next, used) => Drain(step, next, b[used..])
  }

  ghost function Feed<S(!new), B(!new)>(step: Machine<S, B>, at: (S, seq<B>), chunks: seq<seq<B>>): (S, seq<B>)
    requires Stable(step)
    decreases |chunks|
  {
    if chunks == [] then at else Feed(step, Drain(step, at.0, at.1 + chunks[0]), chunks[1..])
  }

  ghost function Joined<B>(chunks: seq<seq<B>>): seq<B> {
    if chunks == [] then [] else chunks[0] + Joined(chunks[1..])
  }

  /** Draining early makes no difference. */
  lemma {:induction false} DrainAgain<S(!new), B(!new)>(step: Machine<S, B>, s: S, b: seq<B>, c: seq<B>)
    requires Stable(step)
    ensures Drain(step, s, b + c) == Drain(step, Drain(step, s, b).0, Drain(step, s, b).1 + c)
    decreases |b|
  {
    if step(s, b).Moved? {
      var next, used := step(s, b).state, step(s, b).used;
      assert step(s, b + c) == step(s, b);
      assert (b + c)[used..] == b[used..] + c;
      DrainAgain(step, next, b[used..], c);
    }
  }

  /** What is left over cannot move the state reached. */
  lemma {:induction false} DrainStops<S(!new), B(!new)>(step: Machine<S, B>, s: S, b: seq<B>)
    requires Stable(step)
    ensures step(Drain(step, s, b).0, Drain(step, s, b).1).NeedMore?
    decreases |b|
  {
    if step(s, b).Moved? {
      DrainStops(step, step(s, b).state, b[step(s, b).used..]);
    }
  }

  /** The state reached and the bytes left over depend only on all the bytes, not on how they were cut. */
  lemma {:induction false} ChunksDoNotMatter<S(!new), B(!new)>(
      step: Machine<S, B>, s: S, b: seq<B>, chunks: seq<seq<B>>)
    requires Stable(step)
    ensures Feed(step, Drain(step, s, b), chunks) == Drain(step, s, b + Joined(chunks))
    decreases |chunks|
  {
    if chunks == [] {
      assert b + Joined(chunks) == b;
    } else {
      DrainAgain(step, s, b, chunks[0]);
      ChunksDoNotMatter(step, s, b + chunks[0], chunks[1..]);
      assert b + Joined(chunks) == (b + chunks[0]) + Joined(chunks[1..]);
    }
  }
}
