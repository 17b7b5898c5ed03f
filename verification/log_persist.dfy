/** Saving a stream at page hide and bringing it back on load (frontend/src/lib/logStreams.ts). */
module LogPersist {
  import opened Sequences
  import opened LogRing
  import opened LogConn
  import LogReplay

  const PERSIST_MAX_LINES := 2_000

  datatype Saved = Saved(tail: Request, follow: bool, state: StreamState, lines: seq<string>)

  function Save(g: Log, c: Conn, tail: Request): Saved {
    Saved(tail, c.follow,
          if c.state in {Streaming, Connecting, Waiting, Reconnecting} then (if c.follow then Reconnecting else Ended)
          else c.state,
          LastN(g.Lines(), PERSIST_MAX_LINES))
  }

  function RestoredState(p: Saved): StreamState {
    if p.follow && p.state in {Ended, Connecting, Streaming} then Reconnecting else p.state
  }

  function Restored(clock: Clock, p: Saved): Log {
    PushAll(Empty(clock, ClampBufferCap(p.tail)), p.lines)
  }

  /** The restoring loop: the lines are pushed one by one into a new stream's buffer. */
  method Hydrate(clock: Clock, p: Saved) returns (g: Log, state: StreamState)
    ensures g == Restored(clock, p) && state == RestoredState(p)
  {
    g := Empty(clock, ClampBufferCap(p.tail));
    for i := 0 to |p.lines|
      invariant PushAll(g, p.lines[i..]) == Restored(clock, p)
    {
      assert p.lines[i..][1..] == p.lines[i + 1..];
      g := Push(g, p.lines[i]);
    }
    state := if p.follow && p.state in {Ended, Connecting, Streaming} then Reconnecting else p.state;
  }

  /** No two equal timestamped lines, at any distance. */
  ghost predicate StampedOnce(clock: Clock, lines: seq<string>) {
    forall i, j :: 0 <= i < j < |lines| && IsStamped(clock, lines[i]) ==> lines[i] != lines[j]
  }

  ghost predicate Filled(g: Log, lines: seq<string>) {
    && g.history == lines && g.size == (if |lines| <= g.cap then |lines| else g.cap)
    && forall k :: 0 <= k < |g.queue| ==> g.queue[k] in lines
  }

  lemma FillOne(g: Log, lines: seq<string>, x: string)
    requires Filled(g, lines) && (IsStamped(g.clock, x) ==> x !in lines)
    ensures Filled(Push(g, x), lines + [x])
  {
    var h := Push(g, x);
    forall k | 0 <= k < |h.queue|
      ensures h.queue[k] in lines + [x]
    {
      if IsStamped(g.clock, x) {
        assert h.queue[k] in g.queue + [x];
      }
    }
  }

  /** Nothing is dropped on the way in: the de-duplication never meets a line it already knows. */
  lemma {:induction false} FillAll(clock: Clock, cap: Cap, lines: seq<string>, g: Log)
    requires StampedOnce(clock, lines) && g == PushAll(Empty(clock, cap), lines)
    ensures Filled(g, lines) && g.clock == clock && g.cap == cap
  {
    hide Filled, StampedOnce, Push;
    var e := Empty(clock, cap);
    LogReplay.PushAllKeeps(e, lines);
    if lines == [] {
      NothingFilled(clock, cap);
    } else {
      var n := |lines| - 1;
      OnceInPrefix(clock, lines);
      var before := PushAll(e, lines[..n]);
      FillAll(clock, cap, lines[..n], before);
      assert lines == lines[..n] + [lines[n]];
      LogReplay.PushAllConcat(e, lines[..n], [lines[n]]);
      PushOne(before, lines[n]);
      LastIsNew(clock, lines);
      FillOne(before, lines[..n], lines[n]);
    }
  }

  lemma NothingFilled(clock: Clock, cap: Cap)
    ensures Filled(Empty(clock, cap), [])
  {
  }

  lemma OnceInPrefix(clock: Clock, lines: seq<string>)
    requires StampedOnce(clock, lines) && lines != []
    ensures StampedOnce(clock, lines[..|lines| - 1])
  {
  }

  lemma LastIsNew(clock: Clock, lines: seq<string>)
    requires StampedOnce(clock, lines) && lines != []
    ensures var n := |lines| - 1; IsStamped(clock, lines[n]) ==> lines[n] !in lines[..n]
  {
  }

  lemma PushOne(g: Log, x: string)
    ensures PushAll(g, [x]) == Push(g, x)
  {
    assert PushAll(Push(g, x), []) == Push(g, x);
  }

  lemma DistinctKeys(g: Log, lines: seq<string>)
    requires Coupled(g) && IsSuffix(lines, g.Lines())
    ensures NoDup(Stamped(g.clock, lines))
  {
    hide NoDup, LastN, Stamped;
    StampedOfSuffix(g.clock, lines, g.Lines());
    SuffixTransitive(Stamped(g.clock, lines), Stamped(g.clock, g.Lines()), g.queue);
    NoDupDrop(g.queue, |g.queue| - |Stamped(g.clock, lines)|);
  }

  lemma RingIsStampedOnce(g: Log, n: nat)
    requires Coupled(g)
    ensures StampedOnce(g.clock, LastN(g.Lines(), n))
  {
    hide Coupled, LastN, Stamped;
    var lines := LastN(g.Lines(), n);
    LastNIsSuffix(g.Lines(), n);
    DistinctKeys(g, lines);
    forall i, j | 0 <= i < j < |lines| && IsStamped(g.clock, lines[i])
      ensures lines[i] != lines[j]
    {
      DistinctWhenStamped(g.clock, lines, i, j);
    }
  }

  function Min(a: nat, b: nat): nat {
    if a <= b then a else b
  }

  /** A reload keeps the last min(2000, clamped tail) lines of every reachable ring. */
  lemma PersistHydrateRoundTrip(g: Log, c: Conn, tail: Request)
    requires Coupled(g)
    ensures Restored(g.clock, Save(g, c, tail)).Lines()
      == LastN(g.Lines(), Min(2_000, ClampBufferCap(tail)))
  {
    hide Coupled, ClampBufferCap, Push;
    var lines, cap := LastN(g.Lines(), PERSIST_MAX_LINES), ClampBufferCap(tail);
    RingIsStampedOnce(g, PERSIST_MAX_LINES);
    FillAll(g.clock, cap, lines, Restored(g.clock, Save(g, c, tail)));
    NestedLastN(g.Lines(), PERSIST_MAX_LINES, cap);
  }

  lemma NestedLastN(s: seq<string>, n: nat, m: nat)
    ensures LastN(LastN(s, n), m) == LastN(s, Min(n, m))
    ensures LastN(LastN(s, n), if |LastN(s, n)| <= m then |LastN(s, n)| else m) == LastN(LastN(s, n), m)
  {
  }

  /** The connection side of a restored stream: nothing is opened and nothing is armed. */
  function RestoredConn(p: Saved): Conn {
    NewConn(p.follow).(state := RestoredState(p))
  }

  lemma FrozenOrDormant(d: Conn, follow: bool, state: StreamState)
    requires d == NewConn(follow).(state := state)
    requires state in {Ended, PodGone, Error} || (follow && state == Reconnecting)
    ensures Begins(d) && (Dormant(d) <==> state == Reconnecting) && (OneToken(d) <==> state != Reconnecting)
    ensures OneToken(Reopen(d)) && (Reopen(d).ws.Some? <==> state == Reconnecting)
  {
    if state == Reconnecting {
      assert Dormant(d);
    } else {
      assert d.state in {Ended, PodGone, Error} && d.follow == follow;
    }
  }

  /**
   A following stream always comes back reconnecting unless its pod is gone or it failed; any other comes back
   frozen. The reconnecting ones have neither socket nor timer until the user opens them, which connects them.
   */
  lemma RestoredStates(g: Log, c: Conn, tail: Request)
    ensures var d := RestoredConn(Save(g, c, tail));
      && d.state == (if c.state in {PodGone, Error} then c.state else if c.follow then Reconnecting else Ended)
      && Begins(d) && (Dormant(d) <==> d.state == Reconnecting)
      && (OneToken(d) <==> d.state != Reconnecting) && OneToken(Reopen(d))
      && (Reopen(d).ws.Some? <==> d.state == Reconnecting)
  {
    hide LastN, Begins, OneToken, Reconnect;
    var d := RestoredConn(Save(g, c, tail));
    match c.state {
      case PodGone => FrozenOrDormant(d, c.follow, PodGone);
      case Error => FrozenOrDormant(d, c.follow, Error);
      case _ => FrozenOrDormant(d, c.follow, if c.follow then Reconnecting else Ended);
    }
  }
}
