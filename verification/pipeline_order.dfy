/**
 What travels through the delta pipeline (internal/clusters/informers.go, internal/api/stream.go): the handler hands
 over the deltas of a source in the order in which its informer saw them, and whatever a channel accepts reaches the
 client's copy once and in order.
 */
module PipelineOrder {
  import opened Replica
  import opened Pipeline

  /** The deltas the source's informer saw in the first n steps. */
  function Watched(steps: seq<Step>, n: nat, x: Source): seq<Frame>
    requires n <= |steps|
  {
    if n == 0 then []
    else
      Watched(steps, n - 1, x) +
      (match steps[n - 1] case WatchStep(source, d) => (if source == x then [d] else []) case _ => [])
  }

  /** How many of them its handler has taken. */
  function Handled(steps: seq<Step>, n: nat, x: Source): nat
    requires n <= |steps|
  {
    if n == 0 then 0 else Handled(steps, n - 1, x) + (if steps[n - 1] == BroadcastStep(x) then 1 else 0)
  }

  /** The subscriber's channel; there is none before it is registered. */
  function ChannelOf(f: Feed): seq<Frame> {
    match f.phase
    case Registered(_, _, chan) => chan
    case Live(chan) => chan
    case _ => []
  }

  predicate HasChannel(f: Feed) {
    f.phase.Registered? || f.phase.Live?
  }

  /**
   The frames the channel accepted since the last disconnect: the snapshot where it was queued, and every delta that was
   handled while there was a channel with room for it.
   */
  function Accepted(states: seq<System>, steps: seq<Step>, n: nat, x: Source): seq<Frame>
    requires |states| == |steps| + 1 && n <= |steps|
  {
    if n == 0 then []
    else
      var before, s := Accepted(states, steps, n - 1, x), states[n - 1];
      match steps[n - 1]
      case EnqueueStep(source, list) => if source == x then before + [Snapshot(list)] else before
      case BroadcastStep(source) =>
        if source == x && x in s.feeds && HasChannel(s.feeds[x]) && |ChannelOf(s.feeds[x])| < 256
           && Handled(steps, n - 1, x) < |Watched(steps, n - 1, x)|
        then before + [Watched(steps, n - 1, x)[Handled(steps, n - 1, x)]] else before
      case DisconnectStep => []
      case _ => before
  }

  /** The frames of the source that were applied to the client's copy since then. */
  function Applied(states: seq<System>, steps: seq<Step>, n: nat, x: Source): seq<Frame>
    requires |states| == |steps| + 1 && n <= |steps|
  {
    if n == 0 then []
    else
      var before, s := Applied(states, steps, n - 1, x), states[n - 1];
      match steps[n - 1]
      case DeliverStep => if s.socket != [] && s.socket[0].source == x then before + [s.socket[0].frame] else before
      case DisconnectStep => []
      case _ => before
  }

  // ---- one step ----

  lemma StepPending(s: System, step: Step, t: System, owner: Owner, x: Source)
    requires Moves(s, step, t, owner) && x in s.feeds
    ensures x in t.feeds
    ensures step == BroadcastStep(x) ==> s.feeds[x].pending != [] && t.feeds[x].pending == s.feeds[x].pending[1..]
    ensures step.WatchStep? && step.source == x ==> t.feeds[x].pending == s.feeds[x].pending + [step.delta]
    ensures step != BroadcastStep(x) && !(step.WatchStep? && step.source == x) ==>
      t.feeds[x].pending == s.feeds[x].pending
  {
    hide Stored, Harmless, Shown, Disputed, Outdated, Offer;
  }

  /**
   Over every run: the deltas a source's handler has not taken are the last ones its informer saw, in order, so the k-th
   delta that is handled is the k-th that was seen.
   */
  lemma {:induction false} HandledInOrder(states: seq<System>, steps: seq<Step>, owner: Owner, n: nat, x: Source)
    requires IsRun(states, steps, owner) && n <= |steps| && x in states[0].feeds
    ensures x in states[n].feeds && Handled(steps, n, x) <= |Watched(steps, n, x)|
    ensures states[n].feeds[x].pending == Watched(steps, n, x)[Handled(steps, n, x)..]
  {
    hide Moves;
    if n > 0 {
      HandledInOrder(states, steps, owner, n - 1, x);
      assert Moves(states[n - 1], steps[n - 1], states[n - 1 + 1], owner);
      StepPending(states[n - 1], steps[n - 1], states[n], owner, x);
    }
  }

  /** The frames on the way from the channel to the client's copy, the next to arrive first. */
  function OnTheWay(s: System, x: Source): seq<Frame>
    requires x in s.feeds
  {
    FramesOf(s.socket + s.out, x) + ChannelOf(s.feeds[x])
  }

  lemma PumpCarries(s: System, t: System, owner: Owner, source: Source, x: Source)
    requires Moves(s, PumpStep(source), t, owner) && x in s.feeds
    ensures x in t.feeds && OnTheWay(t, x) == OnTheWay(s, x)
  {
    hide FramesOf;
    var chan := s.feeds[source].phase.chan;
    var e := Delivery(source, chan[0]);
    assert t.socket + t.out == s.socket + s.out + [e];
    FramesOfConcat(s.socket + s.out, [e], x);
    FramesOfOne(e, x);
    if x == source {
      assert chan == [chan[0]] + chan[1..];
    }
  }

  lemma FramesOfOne(e: Delivery, x: Source)
    ensures FramesOf([e], x) == if e.source == x then [e.frame] else []
  {
    assert [e][..0] == [];
  }

  lemma DeliverCarries(s: System, t: System, owner: Owner, x: Source)
    requires Moves(s, DeliverStep, t, owner) && x in s.feeds
    ensures x in t.feeds && s.socket != []
    ensures OnTheWay(s, x) == (if s.socket[0].source == x then [s.socket[0].frame] else []) + OnTheWay(t, x)
  {
    hide FramesOf, ApplyFrom;
    assert s.socket + s.out == [s.socket[0]] + (t.socket + t.out);
    FramesOfConcat([s.socket[0]], t.socket + t.out, x);
    FramesOfOne(s.socket[0], x);
  }

  lemma WriteCarries(s: System, t: System, owner: Owner, x: Source)
    requires Moves(s, WriteStep, t, owner) && x in s.feeds
    ensures x in t.feeds && OnTheWay(t, x) == OnTheWay(s, x)
  {
    hide FramesOf;
    assert t.socket + t.out == s.socket + s.out;
  }

  lemma DisconnectCarries(s: System, t: System, owner: Owner, x: Source)
    requires Moves(s, DisconnectStep, t, owner) && x in s.feeds
    ensures x in t.feeds && OnTheWay(t, x) == []
  {
  }

  /** What a step of one source puts into its channel. */
  function PutIn(s: System, step: Step, x: Source): seq<Frame>
    requires x in s.feeds
  {
    match step
    case EnqueueStep(source, list) => if source == x then [Snapshot(list)] else []
    case BroadcastStep(source) =>
      if source == x && HasChannel(s.feeds[x]) && |ChannelOf(s.feeds[x])| < 256 && s.feeds[x].pending != []
      then [s.feeds[x].pending[0]] else []
    case _ => []
  }

  lemma LocalCarries(s: System, step: Step, t: System, owner: Owner, x: Source)
    requires Moves(s, step, t, owner) && x in s.feeds
    requires !step.PumpStep? && !step.WriteStep? && !step.DeliverStep? && !step.DisconnectStep?
    ensures x in t.feeds && OnTheWay(t, x) == OnTheWay(s, x) + PutIn(s, step, x)
  {
    hide FramesOf, Stored, Harmless, Shown, Disputed, Outdated, Lists;
    assert t.socket + t.out == s.socket + s.out;
    assert ChannelOf(t.feeds[x]) == ChannelOf(s.feeds[x]) + PutIn(s, step, x);
  }

  /**
   Over every run: the frames a channel accepted since the last disconnect are those applied to the client's copy,
   followed by those still in the socket, the connection's queue and the channel. None is lost, doubled or overtaken,
   and channel and queue stay within 256 and 1024 frames.
   */
  lemma {:induction false} FramesConserved(states: seq<System>, steps: seq<Step>, owner: Owner, n: nat, x: Source)
    requires IsRun(states, steps, owner) && n <= |steps| && x in states[0].feeds
    ensures x in states[n].feeds
    ensures Accepted(states, steps, n, x) == Applied(states, steps, n, x) + OnTheWay(states[n], x)
    ensures |ChannelOf(states[n].feeds[x])| <= 256 && |states[n].out| <= 1_024
  {
    hide Moves, OnTheWay, ChannelOf, HasChannel;
    if n == 0 {
      NothingOnTheWay(states[0], owner, x);
    } else {
      var s, step, t := states[n - 1], steps[n - 1], states[n];
      FramesConserved(states, steps, owner, n - 1, x);
      HandledInOrder(states, steps, owner, n - 1, x);
      assert Moves(states[n - 1], steps[n - 1], states[n - 1 + 1], owner);
      StepBounded(s, step, t, owner, x);
      match step {
        case PumpStep(source) => PumpCarries(s, t, owner, source, x);
        case WriteStep => WriteCarries(s, t, owner, x);
        case DeliverStep => DeliverCarries(s, t, owner, x);
        case DisconnectStep => DisconnectCarries(s, t, owner, x);
        case _ =>
          LocalCarries(s, step, t, owner, x);
          StepPending(s, step, t, owner, x);
      }
    }
  }

  lemma NothingOnTheWay(s: System, owner: Owner, x: Source)
    requires Initial(s, owner) && x in s.feeds
    ensures OnTheWay(s, x) == [] && ChannelOf(s.feeds[x]) == [] && s.out == []
  {
  }

  lemma StepBounded(s: System, step: Step, t: System, owner: Owner, x: Source)
    requires Moves(s, step, t, owner) && x in s.feeds && |ChannelOf(s.feeds[x])| <= 256 && |s.out| <= 1_024
    ensures x in t.feeds && |ChannelOf(t.feeds[x])| <= 256 && |t.out| <= 1_024
  {
    hide Stored, Harmless, Shown, Disputed, Outdated, Lists;
  }
}
