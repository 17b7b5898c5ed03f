/**
 The server's side of one connection (internal/api/stream.go): a table of streams by sid. Every stream that was
 opened must be closed once: by unsubscribing, by being replaced, or when the connection shuts down.
 */
module StreamMux {
  import opened Options

  type Sid = nat
  type Handle = nat

  /**
   `live` are the streams that are open. `pending` is the stream the reader has opened and not yet put into the
   table. Shutting down turns the table into nil; `leaked` are streams the reader then failed to put anywhere.
   */
  datatype Mux = Mux(
    subs: Option<map<Sid, Handle>>,
    live: set<Handle>,
    next: Handle,
    pending: Option<(Sid, Handle)>,
    leaked: set<Handle>)

  datatype Step = StartSubscribe(sid: Sid) | Install | Unsubscribe(sid: Sid) | Shutdown

  predicate Enabled(m: Mux, step: Step) {
    match step
    case StartSubscribe(_) => m.pending.None?
    case Install => m.pending.Some?
    case Unsubscribe(_) => m.pending.None?
    case Shutdown => true
  }

  function Table(m: Mux): map<Sid, Handle> {
    if m.subs.Some? then m.subs.value else map[]
  }

  function Next(m: Mux, step: Step): Mux
    requires Enabled(m, step)
  {
    match step
    case StartSubscribe(sid) => m.(live := m.live + {m.next}, pending := Some((sid, m.next)), next := m.next + 1)
    case Install => Installed(m, m.pending.value.0, m.pending.value.1)
    case Unsubscribe(sid) =>
      if sid !in Table(m) then m
      else m.(subs := Some(Table(m) - {sid}), live := m.live - {Table(m)[sid]})
    case Shutdown => if m.subs.None? then m else m.(subs := None, live := m.live - Table(m).Values)
  }

  /** Writing into a nil table panics: the reader dies and nobody closes the stream. */
  function Installed(m: Mux, sid: Sid, h: Handle): Mux {
    if m.subs.None? then m.(pending := None, leaked := m.leaked + {h})
    else m.(pending := None, subs := Some(Table(m)[sid := h]),
            live := if sid in Table(m) then m.live - {Table(m)[sid]} else m.live)
  }

  /** Each open stream is in exactly one place: under one sid, in the reader's hands, or leaked. */
  ghost predicate Conserved(m: Mux) {
    && m.live == Table(m).Values + (if m.pending.Some? then {m.pending.value.1} else {}) + m.leaked
    && (forall a, b :: a in Table(m) && b in Table(m) && Table(m)[a] == Table(m)[b] ==> a == b)
    && (m.pending.Some? ==> m.pending.value.1 !in Table(m).Values && m.pending.value.1 !in m.leaked)
    && m.leaked !! Table(m).Values
    && (forall h :: h in m.live ==> h < m.next)
    && (m.subs.Some? ==> m.leaked == {})
  }

  lemma TableWithout(t: map<Sid, Handle>, sid: Sid)
    requires sid in t && forall a, b :: a in t && b in t && t[a] == t[b] ==> a == b
    ensures (t - {sid}).Values == t.Values - {t[sid]}
  {
    var u := t - {sid};
    forall h | h in t.Values - {t[sid]}
      ensures h in u.Values
    {
      var a :| a in t && t[a] == h;
      assert u[a] == h;
    }
  }

  lemma TableWith(t: map<Sid, Handle>, sid: Sid, h: Handle)
    requires forall a, b :: a in t && b in t && t[a] == t[b] ==> a == b
    ensures t[sid := h].Values == (if sid in t then t.Values - {t[sid]} else t.Values) + {h}
  {
    var u := t[sid := h];
    assert u[sid] == h;
    forall x | x in (if sid in t then t.Values - {t[sid]} else t.Values)
      ensures x in u.Values
    {
      var a :| a in t && t[a] == x;
      assert u[a] == x;
    }
  }

  lemma InstallConserves(m: Mux)
    requires Conserved(m) && m.pending.Some?
    ensures Conserved(Next(m, Install))
  {
    var (sid, h) := m.pending.value;
    if m.subs.Some? {
      TableWith(Table(m), sid, h);
      if sid in Table(m) {
        assert Table(m)[sid] in Table(m).Values;
      }
    }
  }

  lemma UnsubscribeConserves(m: Mux, sid: Sid)
    requires Conserved(m) && m.pending.None?
    ensures Conserved(Next(m, Unsubscribe(sid)))
  {
    if sid in Table(m) {
      TableWithout(Table(m), sid);
    }
  }

  lemma StepConserves(m: Mux, step: Step)
    requires Conserved(m) && Enabled(m, step)
    ensures Conserved(Next(m, step))
  {
    match step
    case Install => InstallConserves(m);
    case Unsubscribe(sid) => UnsubscribeConserves(m, sid);
    case StartSubscribe(sid) =>
    case Shutdown =>
  }

  ghost predicate IsRun(states: seq<Mux>, steps: seq<Step>) {
    && |states| == |steps| + 1 && states[0] == Mux(Some(map[]), {}, 0, None, {})
    && forall i :: 0 <= i < |steps| ==> Moves(states[i], steps[i], states[i + 1])
  }

  predicate Moves(m: Mux, step: Step, n: Mux) {
    Enabled(m, step) && n == Next(m, step)
  }

  lemma {:induction false} RunConserves(states: seq<Mux>, steps: seq<Step>, n: nat)
    requires IsRun(states, steps) && n <= |steps|
    ensures Conserved(states[n])
  {
    hide Conserved, Enabled, Next;
    if n > 0 {
      RunConserves(states, steps, n - 1);
      assert Moves(states[n - 1], steps[n - 1], states[n - 1 + 1]);
      StepConserves(states[n - 1], steps[n - 1]);
    } else {
      NewIsConserved();
    }
  }

  lemma NewIsConserved()
    ensures Conserved(Mux(Some(map[]), {}, 0, None, {}))
  {
  }

  /**
   Over every run: an unsubscribe takes its sid out of the table and closes that sid's stream; every other sid keeps its
   stream, and every other stream that was open stays open.
   */
  lemma UnsubscribeCloses(states: seq<Mux>, steps: seq<Step>, i: nat, sid: Sid)
    requires IsRun(states, steps) && i < |steps| && steps[i] == Unsubscribe(sid)
    ensures var before, after := states[i], states[i + 1];
      && Table(after).Keys == Table(before).Keys - {sid}
      && (forall x :: x in Table(after) ==> Table(after)[x] == Table(before)[x] && Table(after)[x] in after.live)
      && (sid in Table(before) ==> Table(before)[sid] in before.live && Table(before)[sid] !in after.live)
      && (forall h :: h in before.live && !(sid in Table(before) && h == Table(before)[sid]) ==> h in after.live)
  {
    RunConserves(states, steps, i);
    assert Moves(states[i], steps[i], states[i + 1]);
  }

  /**
   Over every run: a stream put away under a sid of a connection that is still up stays open, the stream it replaces is
   closed, and no other sid is touched.
   */
  lemma InstallReplaces(states: seq<Mux>, steps: seq<Step>, i: nat, sid: Sid, h: Handle)
    requires IsRun(states, steps) && i < |steps| && steps[i] == Install
    requires states[i].pending == Some((sid, h)) && states[i].subs.Some?
    ensures var before, after := states[i], states[i + 1];
      && Table(after).Keys == Table(before).Keys + {sid} && Table(after)[sid] == h && h in after.live
      && (forall x :: x in Table(before) && x != sid ==>
            Table(after)[x] == Table(before)[x] && Table(before)[x] in after.live)
      && (sid in Table(before) ==> Table(before)[sid] !in after.live)
  {
    RunConserves(states, steps, i);
    assert Moves(states[i], steps[i], states[i + 1]);
    assert h !in Table(states[i]).Values;
    assert sid in Table(states[i]) ==> Table(states[i])[sid] in Table(states[i]).Values;
  }

  /** Did the reader put a stream away after the connection had shut down? */
  ghost predicate LateInstall(states: seq<Mux>, steps: seq<Step>, n: nat)
    requires |states| == |steps| + 1 && n <= |steps|
  {
    exists i :: 0 <= i < n && steps[i] == Install && states[i].subs.None?
  }

  lemma {:induction false} LeakIffLateInstall(states: seq<Mux>, steps: seq<Step>, n: nat)
    requires IsRun(states, steps) && n <= |steps|
    ensures states[n].leaked != {} <==> LateInstall(states, steps, n)
  {
    if n > 0 {
      LeakIffLateInstall(states, steps, n - 1);
      var m, step := states[n - 1], steps[n - 1];
      assert Moves(m, step, states[n - 1 + 1]);
      if step == Install && m.subs.None? {
        assert m.pending.value.1 in states[n].leaked;
      } else {
        assert states[n].leaked == m.leaked;
      }
    }
  }

  /**
   Over every run: once the connection has shut down and the reader holds nothing, every stream that was opened is
   closed, if and only if the reader never put one away after the shutdown.
   */
  lemma AllClosedIff(states: seq<Mux>, steps: seq<Step>, m: Mux)
    requires IsRun(states, steps) && m == states[|steps|] && m.subs.None? && m.pending.None?
    ensures m.live == {} <==> !LateInstall(states, steps, |steps|)
  {
    hide IsRun, LateInstall;
    RunConserves(states, steps, |steps|);
    LeakIffLateInstall(states, steps, |steps|);
  }

  /** Such a run: the connection shuts down while the reader is opening a stream, which then stays open. */
  lemma ShutdownLeaks(sid: Sid)
    ensures exists states: seq<Mux>, steps: seq<Step> ::
      IsRun(states, steps) && |steps| == 3
      && states[3].subs.None? && states[3].pending.None? && states[3].live == {0}
  {
    var m0 := Mux(Some(map[]), {}, 0, None, {});
    var steps := [StartSubscribe(sid), Shutdown, Install];
    var m1 := Next(m0, steps[0]);
    var m2 := Next(m1, steps[1]);
    var m3 := Next(m2, steps[2]);
    var states := [m0, m1, m2, m3];
    assert IsRun(states, steps) by {
      hide Enabled, Next;
      assert Moves(m0, steps[0], m1) && Moves(m1, steps[1], m2) && Moves(m2, steps[2], m3);
    }
  }
}
