/**
 How an informer's handler hands a delta to its subscribers (internal/clusters/informers.go): it copies the list of
 channels under the entry's lock and sends after releasing it, while a closing stream leaves the list under the lock
 and closes its channel afterwards. Each of these is one step, so a run is any interleaving.
 */
module Broadcasts {

  /**
   `subs` are the attached channels, `leaving` those taken off the list and not closed yet. `inFlight` holds, for
   each broadcast by number, the channels it has copied and not sent to yet.
   */
  datatype Entry = Entry(
    subs: set<nat>, nextId: nat, leaving: set<nat>, closed: set<nat>, inFlight: map<nat, set<nat>>, nextBroadcast: nat)

  datatype Step = Attach | Detach(id: nat) | CloseChannel(id: nat) | Capture | Send(broadcast: nat, id: nat)

  function NewEntry(): Entry {
    Entry({}, 0, {}, {}, map[], 0)
  }

  predicate Enabled(e: Entry, step: Step) {
    match step
    case Attach => true
    case Detach(id) => id in e.subs
    case CloseChannel(id) => id in e.leaving
    case Capture => true
    case Send(b, id) => InFlight(e, b, id)
  }

  predicate InFlight(e: Entry, b: nat, id: nat) {
    b in e.inFlight && id in e.inFlight[b]
  }

  function Next(e: Entry, step: Step): Entry
    requires Enabled(e, step)
  {
    match step
    case Attach => e.(subs := e.subs + {e.nextId + 1}, nextId := e.nextId + 1)
    case Detach(id) => e.(subs := e.subs - {id}, leaving := e.leaving + {id})
    case CloseChannel(id) => e.(leaving := e.leaving - {id}, closed := e.closed + {id})
    case Capture => e.(inFlight := e.inFlight[e.nextBroadcast := e.subs], nextBroadcast := e.nextBroadcast + 1)
    case Send(b, id) => e.(inFlight := e.inFlight[b := e.inFlight[b] - {id}])
  }

  ghost predicate IsRun(states: seq<Entry>, steps: seq<Step>) {
    && |states| == |steps| + 1 && states[0] == NewEntry()
    && forall i :: 0 <= i < |steps| ==> Moves(states[i], steps[i], states[i + 1])
  }

  predicate Moves(e: Entry, step: Step, f: Entry) {
    Enabled(e, step) && f == Next(e, step)
  }

  /** A channel is attached, leaving or closed, and each only once. */
  ghost predicate Separate(e: Entry) {
    && e.subs !! e.leaving && e.subs !! e.closed && e.leaving !! e.closed
    && forall id :: id in e.subs || id in e.leaving || id in e.closed ==> id <= e.nextId
  }

  lemma StepKeepsSeparate(e: Entry, step: Step)
    requires Separate(e) && Enabled(e, step)
    ensures Separate(Next(e, step))
  {
  }

  lemma {:induction false} RunSeparate(states: seq<Entry>, steps: seq<Step>, n: nat)
    requires IsRun(states, steps) && n <= |steps|
    ensures Separate(states[n])
  {
    hide Enabled, Next;
    if n > 0 {
      hide Separate;
      RunSeparate(states, steps, n - 1);
      assert Moves(states[n - 1], steps[n - 1], states[n - 1 + 1]);
      StepKeepsSeparate(states[n - 1], steps[n - 1]);
    }
  }

  lemma ClosedByStep(e: Entry, step: Step, id: nat)
    requires Enabled(e, step)
    ensures id in Next(e, step).closed <==> id in e.closed || step == CloseChannel(id)
  {
  }

  lemma {:induction false} ClosedIff(states: seq<Entry>, steps: seq<Step>, n: nat, id: nat)
    requires IsRun(states, steps) && n <= |steps|
    ensures id in states[n].closed <==> exists k :: 0 <= k < n && steps[k] == CloseChannel(id)
  {
    hide Enabled, Next;
    if n > 0 {
      ClosedIff(states, steps, n - 1, id);
      assert Moves(states[n - 1], steps[n - 1], states[n - 1 + 1]);
      ClosedByStep(states[n - 1], steps[n - 1], id);
    }
  }

  /** The step is the one in which broadcast b copies the list. */
  predicate Captures(e: Entry, step: Step, b: nat) {
    step == Capture && e.nextBroadcast == b
  }

  lemma InFlightByStep(e: Entry, step: Step, b: nat, id: nat)
    requires Enabled(e, step) && InFlight(Next(e, step), b, id)
    ensures InFlight(e, b, id) || (Captures(e, step, b) && id in e.subs)
  {
  }

  lemma {:induction false} CapturedBefore(states: seq<Entry>, steps: seq<Step>, n: nat, b: nat, id: nat)
    requires IsRun(states, steps) && n <= |steps| && InFlight(states[n], b, id)
    ensures exists a :: 0 <= a < n && Captures(states[a], steps[a], b) && id in states[a].subs
  {
    hide Enabled, Next, Captures;
    if n > 0 {
      assert Moves(states[n - 1], steps[n - 1], states[n - 1 + 1]);
      InFlightByStep(states[n - 1], steps[n - 1], b, id);
      if InFlight(states[n - 1], b, id) {
        CapturedBefore(states, steps, n - 1, b, id);
      }
    }
  }

  /**
   In every interleaving: a send meets a closed channel, and panics, if and only if the channel was closed after the
   broadcast had copied the list.
   */
  lemma SendPanicsIff(states: seq<Entry>, steps: seq<Step>, i: nat, b: nat, id: nat)
    requires IsRun(states, steps) && i < |steps| && steps[i] == Send(b, id)
    ensures id in states[i].closed <==>
      exists a: nat, k: nat :: a < k < i && Captures(states[a], steps[a], b) && steps[k] == CloseChannel(id)
  {
    hide Next;
    assert Moves(states[i], steps[i], states[i + 1]);
    ClosedIff(states, steps, i, id);
    if id in states[i].closed {
      CapturedBefore(states, steps, i, b, id);
      var a: nat :| a < i && Captures(states[a], steps[a], b) && id in states[a].subs;
      var k: nat :| k < i && steps[k] == CloseChannel(id);
      RunSeparate(states, steps, a);
      ClosedIff(states, steps, a, id);
      assert a < k;
    }
  }

  lemma StepSends(e: Entry, step: Step, b: nat, id: nat)
    requires Enabled(e, step) && e.nextBroadcast > b
    ensures Next(e, step).nextBroadcast > b
    ensures InFlight(Next(e, step), b, id) <==> InFlight(e, b, id) && step != Send(b, id)
  {
  }

  /**
   In every interleaving: what a broadcast still has to send to is every channel it copied and has not sent to, so each
   of them is sent to once and no other is.
   */
  lemma {:induction false} StillToSend(states: seq<Entry>, steps: seq<Step>, a: nat, n: nat, b: nat, id: nat)
    requires IsRun(states, steps) && a < n <= |steps| && Captures(states[a], steps[a], b)
    ensures states[n].nextBroadcast > b
    ensures InFlight(states[n], b, id) <==> id in states[a].subs && forall j :: a < j < n ==> steps[j] != Send(b, id)
  {
    assert Moves(states[n - 1], steps[n - 1], states[n - 1 + 1]);
    if n > a + 1 {
      hide Enabled, Next, Captures, InFlight;
      StillToSend(states, steps, a, n - 1, b, id);
      StepSends(states[n - 1], steps[n - 1], b, id);
    }
  }

  /** Such a run: the only subscriber leaves between the copying of the list and the sending. */
  lemma BroadcastPanics()
    ensures exists states: seq<Entry>, steps: seq<Step> ::
      IsRun(states, steps) && |steps| == 5 && steps[4] == Send(0, 1) && 1 in states[4].closed
  {
    var steps := [Attach, Capture, Detach(1), CloseChannel(1), Send(0, 1)];
    var e1 := Next(NewEntry(), steps[0]);
    var e2 := Next(e1, steps[1]);
    var e3 := Next(e2, steps[2]);
    var e4 := Next(e3, steps[3]);
    var e5 := Next(e4, steps[4]);
    var states := [NewEntry(), e1, e2, e3, e4, e5];
    assert IsRun(states, steps) by {
      hide Enabled, Next;
      assert Moves(NewEntry(), steps[0], e1) && Moves(e1, steps[1], e2) && Moves(e2, steps[2], e3);
      assert Moves(e3, steps[3], e4) && Moves(e4, steps[4], e5);
    }
  }
}
