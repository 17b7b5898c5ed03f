/**
 The per-cluster store of shared informers (internal/clusters/informers.go). Every critical section is one step,
 so a run is any interleaving of subscribers, delayed stops and failed snapshots. Entries are referred to by
 handles, which never change meaning, as pointers do in the source.
 */
module Informers {
  import opened Options

  datatype Gvr = Gvr(group: string, version: string, resource: string)

  /** The map key of an informer: the four names joined by bars. */
  function Key(gvr: Gvr, ns: string): string {
    gvr.group + "|" + gvr.version + "|" + gvr.resource + "|" + ns
  }

  predicate NoBar(s: string) {
    '|' !in s
  }

  predicate PlainNames(gvr: Gvr) {
    NoBar(gvr.group) && NoBar(gvr.version) && NoBar(gvr.resource)
  }

  function FirstBar(s: string): (i: nat)
    ensures i <= |s|
  {
    if s == "" || s[0] == '|' then 0 else 1 + FirstBar(s[1..])
  }

  lemma {:induction false} FirstBarAfter(a: string, rest: string)
    requires NoBar(a)
    ensures FirstBar(a + "|" + rest) == |a|
  {
    if a != "" {
      assert (a + "|" + rest)[1..] == a[1..] + "|" + rest;
      FirstBarAfter(a[1..], rest);
    }
  }

  lemma SplitAtBar(a: string, rest1: string, b: string, rest2: string)
    requires NoBar(a) && NoBar(b) && a + "|" + rest1 == b + "|" + rest2
    ensures a == b && rest1 == rest2
  {
    var s := a + "|" + rest1;
    FirstBarAfter(a, rest1);
    FirstBarAfter(b, rest2);
    assert s[..|a|] == a && s[..|a|] == b;
    assert s[|a| + 1..] == rest1 && s[|a| + 1..] == rest2;
  }

  /** Different resources or namespaces have different keys; the namespace may be any text, bars included. */
  lemma KeyIsInjective(g1: Gvr, ns1: string, g2: Gvr, ns2: string)
    requires PlainNames(g1) && PlainNames(g2) && Key(g1, ns1) == Key(g2, ns2)
    ensures g1 == g2 && ns1 == ns2
  {
    var v1, v2 := g1.resource + "|" + ns1, g2.resource + "|" + ns2;
    assert Key(g1, ns1) == g1.group + "|" + (g1.version + "|" + v1);
    assert Key(g2, ns2) == g2.group + "|" + (g2.version + "|" + v2);
    SplitAtBar(g1.group, g1.version + "|" + v1, g2.group, g2.version + "|" + v2);
    SplitAtBar(g1.version, v1, g2.version, v2);
    SplitAtBar(g1.resource, ns1, g2.resource, ns2);
  }

  type Handle = nat

  datatype Entry = Entry(gvr: Gvr, ns: string, subs: set<nat>, nextSubId: nat, cancelled: bool)

  /**
   `creating` are the entries whose creator is still loading its snapshot, `joining` those found by later
   subscribers that still are. `scheduled` are the delayed stops that sleep, `stopping` those that have found
   their entry empty and not yet cancelled it.
   */
  datatype Store = Store(
    entries: map<string, Handle>, arena: map<Handle, Entry>, next: Handle,
    creating: set<Handle>, joining: multiset<Handle>, scheduled: multiset<Handle>, stopping: multiset<Handle>)

  function EmptyStore(): Store {
    Store(map[], map[], 0, {}, multiset{}, multiset{}, multiset{})
  }

  function KeyOf(e: Entry): string {
    Key(e.gvr, e.ns)
  }

  // ---- the critical sections ----

  /** Under the store's lock: the entry of the key, created when there is none. */
  function Acquire(s: Store, gvr: Gvr, ns: string): (Store, Handle) {
    var key := Key(gvr, ns);
    if key in s.entries then (s.(joining := s.joining + multiset{s.entries[key]}), s.entries[key])
    else (s.(entries := s.entries[key := s.next], arena := s.arena[s.next := Entry(gvr, ns, {}, 0, false)],
             next := s.next + 1, creating := s.creating + {s.next}), s.next)
  }

  /** A subscriber has its snapshot or has failed to get it, and is no longer on its way. */
  function Arrived(s: Store, h: Handle, creator: bool): Store {
    if creator then s.(creating := s.creating - {h}) else s.(joining := s.joining - multiset{h})
  }

  /** Under the entry's lock: a channel for the subscriber, whatever has become of the entry since. */
  function Attach(s: Store, h: Handle): (Store, nat)
    requires h in s.arena
  {
    var id := s.arena[h].nextSubId + 1;
    (s.(arena := s.arena[h := s.arena[h].(nextSubId := id, subs := s.arena[h].subs + {id})]), id)
  }

  /** Closing a stream; a stop is scheduled when nobody is left. */
  function Detach(s: Store, h: Handle, id: nat): Store
    requires h in s.arena
  {
    var rest := s.arena[h].subs - {id};
    s.(arena := s.arena[h := s.arena[h].(subs := rest)],
       scheduled := if rest == {} then s.scheduled + multiset{h} else s.scheduled)
  }

  /** `removeEntry`, and the second half of a delayed stop: only the entry the map still holds is cancelled. */
  function DropIfCurrent(s: Store, h: Handle): Store
    requires h in s.arena
  {
    var key := KeyOf(s.arena[h]);
    if key in s.entries && s.entries[key] == h then
      s.(entries := s.entries - {key}, arena := s.arena[h := s.arena[h].(cancelled := true)])
    else s
  }

  /** The first half of a delayed stop, under the entry's own lock. */
  function CheckEmpty(s: Store, h: Handle): Store
    requires h in s.arena
  {
    s.(scheduled := s.scheduled - multiset{h},
       stopping := if s.arena[h].subs == {} then s.stopping + multiset{h} else s.stopping)
  }

  function StopAll(s: Store): Store {
    s.(entries := map[],
       arena := map h | h in s.arena ::
         if h in s.entries.Values then s.arena[h].(cancelled := true) else s.arena[h])
  }

  /** `creator` tells the subscriber that created the entry from those that found it. */
  datatype Step =
    | AcquireStep(gvr: Gvr, ns: string)
    | AttachStep(h: Handle, creator: bool)
    | SnapshotFailedStep(h: Handle, creator: bool)
    | DetachStep(h: Handle, id: nat)
    | CheckEmptyStep(h: Handle)
    | DelayedStopStep(h: Handle)
    | StopAllStep

  predicate Enabled(s: Store, step: Step) {
    match step
    case AcquireStep(_, _) => true
    case AttachStep(h, creator) => h in s.arena && if creator then h in s.creating else h in s.joining
    case SnapshotFailedStep(h, creator) => h in s.arena && if creator then h in s.creating else h in s.joining
    case DetachStep(h, id) => h in s.arena && id in s.arena[h].subs
    case CheckEmptyStep(h) => h in s.arena && h in s.scheduled
    case DelayedStopStep(h) => h in s.arena && h in s.stopping
    case StopAllStep => true
  }

  function Next(s: Store, step: Step): Store
    requires Enabled(s, step)
  {
    match step
    case AcquireStep(gvr, ns) => Acquire(s, gvr, ns).0
    case AttachStep(h, creator) => Attach(Arrived(s, h, creator), h).0
    case SnapshotFailedStep(h, creator) =>
      if creator then DropIfCurrent(Arrived(s, h, true), h) else Arrived(s, h, false)
    case DetachStep(h, id) => Detach(s, h, id)
    case CheckEmptyStep(h) => CheckEmpty(s, h)
    case DelayedStopStep(h) => DropIfCurrent(s.(stopping := s.stopping - multiset{h}), h)
    case StopAllStep => StopAll(s)
  }

  // ---- one live informer per key ----

  ghost predicate EntryOk(s: Store, h: Handle) {
    h in s.arena ==> h < s.next && (!s.arena[h].cancelled <==> Current(s, h))
  }

  predicate Current(s: Store, h: Handle)
    requires h in s.arena
  {
    KeyOf(s.arena[h]) in s.entries && s.entries[KeyOf(s.arena[h])] == h
  }

  ghost predicate SlotOk(s: Store, key: string) {
    key in s.entries ==> s.entries[key] in s.arena && KeyOf(s.arena[s.entries[key]]) == key
  }

  ghost predicate OneLivePerKey(s: Store) {
    (forall h :: EntryOk(s, h)) && (forall key :: SlotOk(s, key))
  }

  lemma AcquireKeeps(s: Store, gvr: Gvr, ns: string)
    requires OneLivePerKey(s)
    ensures OneLivePerKey(Acquire(s, gvr, ns).0)
    ensures var (t, h) := Acquire(s, gvr, ns);
      h in t.arena && KeyOf(t.arena[h]) == Key(gvr, ns) && !t.arena[h].cancelled
  {
    hide Key;
    var (t, n) := Acquire(s, gvr, ns);
    assert EntryOk(s, s.next) && SlotOk(s, Key(gvr, ns));
    forall h
      ensures EntryOk(t, h)
    {
      assert EntryOk(s, h);
    }
    forall key
      ensures SlotOk(t, key)
    {
      assert SlotOk(s, key);
    }
    assert EntryOk(t, n) && SlotOk(t, Key(gvr, ns));
  }

  lemma DropKeeps(s: Store, h: Handle)
    requires OneLivePerKey(s) && h in s.arena
    ensures OneLivePerKey(DropIfCurrent(s, h))
  {
    hide Key;
    var t := DropIfCurrent(s, h);
    forall x
      ensures EntryOk(t, x)
    {
      assert EntryOk(s, x);
    }
    forall key
      ensures SlotOk(t, key)
    {
      assert SlotOk(s, key);
    }
  }

  lemma StopAllKeeps(s: Store)
    requires OneLivePerKey(s)
    ensures OneLivePerKey(StopAll(s))
  {
    hide Key;
    var t := StopAll(s);
    forall x
      ensures EntryOk(t, x)
    {
      assert EntryOk(s, x);
      if x in s.arena && !s.arena[x].cancelled {
        assert s.entries[KeyOf(s.arena[x])] in s.entries.Values;
      }
    }
    forall key
      ensures SlotOk(t, key)
    {
    }
  }

  /** Nothing that bears on the invariant changes. */
  ghost predicate SameEntries(s: Store, t: Store) {
    && t.entries == s.entries && t.next == s.next && t.arena.Keys == s.arena.Keys
    && forall h :: h in s.arena ==>
         KeyOf(t.arena[h]) == KeyOf(s.arena[h]) && t.arena[h].cancelled == s.arena[h].cancelled
  }

  lemma SubscribersKeep(s: Store, t: Store)
    requires OneLivePerKey(s) && SameEntries(s, t)
    ensures OneLivePerKey(t)
  {
    hide Key;
    forall x
      ensures EntryOk(t, x)
    {
      assert EntryOk(s, x);
    }
    forall key
      ensures SlotOk(t, key)
    {
      assert SlotOk(s, key);
    }
  }

  lemma AttachChangesSubs(s: Store, h: Handle, creator: bool)
    requires h in s.arena
    ensures SameEntries(s, Attach(Arrived(s, h, creator), h).0)
  {
    hide Key;
  }

  lemma DetachChangesSubs(s: Store, h: Handle, id: nat)
    requires h in s.arena
    ensures SameEntries(s, Detach(s, h, id))
  {
    hide Key;
  }

  lemma StepKeeps(s: Store, step: Step)
    requires OneLivePerKey(s) && Enabled(s, step)
    ensures OneLivePerKey(Next(s, step))
  {
    hide Key, OneLivePerKey, DropIfCurrent, Attach, Detach, Acquire;
    match step
    case AcquireStep(gvr, ns) => AcquireKeeps(s, gvr, ns);
    case AttachStep(h, creator) =>
      AttachChangesSubs(s, h, creator);
      SubscribersKeep(s, Next(s, step));
    case DetachStep(h, id) =>
      DetachChangesSubs(s, h, id);
      SubscribersKeep(s, Next(s, step));
    case SnapshotFailedStep(h, creator) =>
      SubscribersKeep(s, Arrived(s, h, creator));
      if creator {
        DropKeeps(Arrived(s, h, true), h);
      }
    case CheckEmptyStep(h) => SubscribersKeep(s, Next(s, step));
    case DelayedStopStep(h) =>
      SubscribersKeep(s, s.(stopping := s.stopping - multiset{h}));
      DropKeeps(s.(stopping := s.stopping - multiset{h}), h);
    case StopAllStep => StopAllKeeps(s);
  }

  ghost predicate IsRun(states: seq<Store>, steps: seq<Step>) {
    && |states| == |steps| + 1 && states[0] == EmptyStore()
    && forall i :: 0 <= i < |steps| ==> Moves(states[i], steps[i], states[i + 1])
  }

  predicate Moves(s: Store, step: Step, t: Store) {
    Enabled(s, step) && t == Next(s, step)
  }

  lemma {:induction false} RunKeeps(states: seq<Store>, steps: seq<Step>, n: nat)
    requires IsRun(states, steps) && n <= |steps|
    ensures OneLivePerKey(states[n])
  {
    hide Enabled, Next;
    if n > 0 {
      RunKeeps(states, steps, n - 1);
      assert Moves(states[n - 1], steps[n - 1], states[n - 1 + 1]);
      StepKeeps(states[n - 1], steps[n - 1]);
    }
  }

  /** In every interleaving, two uncancelled informers watch different resources or different namespaces. */
  lemma OneLiveInformer(states: seq<Store>, steps: seq<Step>, s: Store, h1: Handle, h2: Handle)
    requires IsRun(states, steps) && s == states[|steps|]
    requires h1 in s.arena && h2 in s.arena && !s.arena[h1].cancelled && !s.arena[h2].cancelled
    requires s.arena[h1].gvr == s.arena[h2].gvr && s.arena[h1].ns == s.arena[h2].ns
    ensures h1 == h2
  {
    hide IsRun;
    RunKeeps(states, steps, |steps|);
    assert EntryOk(s, h1) && EntryOk(s, h2);
  }

  lemma DropCancels(s: Store, h: Handle)
    requires OneLivePerKey(s) && h in s.arena
    ensures Cancelled(DropIfCurrent(s, h), h)
  {
    assert EntryOk(s, h);
  }

  /** A stop meant for one entry, however late, cancels no other entry and takes no other entry out of the map. */
  lemma StopSparesOthers(s: Store, h: Handle, other: Handle)
    requires OneLivePerKey(s) && h in s.arena && other in s.arena && other != h
    ensures DropIfCurrent(s, h).arena[other] == s.arena[other]
    ensures Current(DropIfCurrent(s, h), other) == Current(s, other)
  {
    assert EntryOk(s, other) && SlotOk(s, KeyOf(s.arena[other]));
  }

  // ---- when subscribers are left with a cancelled informer ----

  function Subs(s: Store, h: Handle): set<nat> {
    if h in s.arena then s.arena[h].subs else {}
  }

  predicate Cancelled(s: Store, h: Handle) {
    h in s.arena && s.arena[h].cancelled
  }

  /** The step cancels the entry: its creator's snapshot failed, a delayed stop reached it, or everything stops. */
  predicate Cancels(s: Store, step: Step, h: Handle) {
    h in s.arena && Current(s, h)
    && match step
       case SnapshotFailedStep(x, creator) => x == h && creator
       case DelayedStopStep(x) => x == h
       case StopAllStep => true
       case _ => false
  }

  predicate Attaches(s: Store, step: Step, h: Handle, id: nat) {
    step.AttachStep? && step.h == h && h in s.arena && id == s.arena[h].nextSubId + 1
  }

  /** The step is a delayed stop's look at the entry, and it finds nobody. */
  predicate FindsEmpty(s: Store, step: Step, h: Handle) {
    step == CheckEmptyStep(h) && Subs(s, h) == {}
  }

  lemma DropEffect(s: Store, x: Handle, h: Handle)
    requires x in s.arena
    ensures Subs(DropIfCurrent(s, x), h) == Subs(s, h)
    ensures Cancelled(DropIfCurrent(s, x), h) <==> Cancelled(s, h) || (h == x && Current(s, h))
  {
    hide Key;
  }

  lemma StopAllEffect(s: Store, h: Handle)
    requires OneLivePerKey(s)
    ensures Subs(StopAll(s), h) == Subs(s, h)
    ensures Cancelled(StopAll(s), h) <==> Cancelled(s, h) || (h in s.arena && Current(s, h))
  {
    hide Key;
    if h in s.arena {
      ValuesAreCurrent(s, h);
    }
  }

  lemma AcquireEffect(s: Store, gvr: Gvr, ns: string, h: Handle)
    requires OneLivePerKey(s)
    ensures var t := Acquire(s, gvr, ns).0; Subs(t, h) == Subs(s, h) && (Cancelled(t, h) <==> Cancelled(s, h))
  {
    hide Key;
    assert EntryOk(s, s.next);
  }

  lemma AttachEffect(s: Store, x: Handle, creator: bool, h: Handle, id: nat)
    requires x in s.arena
    ensures var t := Attach(Arrived(s, x, creator), x).0;
      && (Cancelled(t, h) <==> Cancelled(s, h))
      && (id in Subs(t, h) <==> id in Subs(s, h) || (h == x && id == s.arena[h].nextSubId + 1))
  {
    hide Key;
  }

  lemma DetachEffect(s: Store, x: Handle, k: nat, h: Handle, id: nat)
    requires x in s.arena
    ensures var t := Detach(s, x, k);
      && (Cancelled(t, h) <==> Cancelled(s, h))
      && (id in Subs(t, h) <==> id in Subs(s, h) && !(h == x && id == k))
  {
    hide Key;
  }

  /** What one step does to the subscribers of an entry and to its being cancelled. */
  lemma StepEffect(s: Store, step: Step, h: Handle, id: nat)
    requires OneLivePerKey(s) && Enabled(s, step)
    ensures Cancelled(Next(s, step), h) <==> Cancelled(s, h) || Cancels(s, step, h)
    ensures id in Subs(Next(s, step), h) <==>
      (id in Subs(s, h) && step != DetachStep(h, id)) || Attaches(s, step, h, id)
  {
    hide Key, OneLivePerKey, Acquire, Attach, Detach, DropIfCurrent, StopAll;
    match step
    case AcquireStep(gvr, ns) => AcquireEffect(s, gvr, ns, h);
    case AttachStep(x, creator) => AttachEffect(s, x, creator, h, id);
    case DetachStep(x, k) => DetachEffect(s, x, k, h, id);
    case SnapshotFailedStep(x, creator) => DropEffect(Arrived(s, x, creator), x, h);
    case CheckEmptyStep(x) =>
    case DelayedStopStep(x) => DropEffect(s.(stopping := s.stopping - multiset{x}), x, h);
    case StopAllStep => StopAllEffect(s, h);
  }

  lemma ValuesAreCurrent(s: Store, h: Handle)
    requires OneLivePerKey(s) && h in s.arena
    ensures h in s.entries.Values <==> Current(s, h)
  {
    if h in s.entries.Values {
      var key :| key in s.entries && s.entries[key] == h;
      assert SlotOk(s, key);
    }
  }

  lemma StoppingByStep(s: Store, step: Step, h: Handle)
    requires Enabled(s, step) && h in Next(s, step).stopping
    ensures h in s.stopping || FindsEmpty(s, step, h)
  {
  }

  /** The subscriber attached by step j under this id is still there before step n. */
  predicate Stays(states: seq<Store>, steps: seq<Step>, j: nat, n: nat, h: Handle, id: nat)
    requires |states| == |steps| + 1 && n <= |steps|
  {
    j < n && Attaches(states[j], steps[j], h, id) && forall k :: j < k < n ==> steps[k] != DetachStep(h, id)
  }

  lemma {:induction false} CancelledIff(states: seq<Store>, steps: seq<Step>, n: nat, h: Handle)
    requires IsRun(states, steps) && n <= |steps|
    ensures Cancelled(states[n], h) <==> exists i :: 0 <= i < n && Cancels(states[i], steps[i], h)
  {
    hide Enabled, Next, Cancels, OneLivePerKey;
    if n > 0 {
      CancelledIff(states, steps, n - 1, h);
      RunKeeps(states, steps, n - 1);
      assert Moves(states[n - 1], steps[n - 1], states[n - 1 + 1]);
      StepEffect(states[n - 1], steps[n - 1], h, 0);
    }
  }

  lemma {:induction false} SubscribedIff(states: seq<Store>, steps: seq<Step>, n: nat, h: Handle, id: nat)
    requires IsRun(states, steps) && n <= |steps|
    ensures id in Subs(states[n], h) <==> exists j: nat :: j < n && Stays(states, steps, j, n, h, id)
  {
    hide Enabled, Next, Attaches, OneLivePerKey;
    if n > 0 {
      SubscribedIff(states, steps, n - 1, h, id);
      RunKeeps(states, steps, n - 1);
      assert Moves(states[n - 1], steps[n - 1], states[n - 1 + 1]);
      StepEffect(states[n - 1], steps[n - 1], h, id);
      StaysSnoc(states, steps, n - 1, n, h, id);
    }
  }

  lemma StaysSnoc(states: seq<Store>, steps: seq<Step>, m: nat, n: nat, h: Handle, id: nat)
    requires |states| == |steps| + 1 && n == m + 1 <= |steps|
    ensures (exists j: nat :: j < n && Stays(states, steps, j, n, h, id))
      <==> ((exists j: nat :: j < m && Stays(states, steps, j, m, h, id)) && steps[m] != DetachStep(h, id))
           || Attaches(states[m], steps[m], h, id)
  {
    hide Attaches;
    if j: nat :| j < n && Stays(states, steps, j, n, h, id) {
      assert j < m ==> Stays(states, steps, j, m, h, id);
    }
    if j: nat :| j < m && Stays(states, steps, j, m, h, id) {
      assert steps[m] != DetachStep(h, id) ==> Stays(states, steps, j, n, h, id);
    }
    if Attaches(states[m], steps[m], h, id) {
      assert Stays(states, steps, m, n, h, id);
    }
  }

  lemma {:induction false} StoppingFoundEmpty(states: seq<Store>, steps: seq<Step>, n: nat, h: Handle)
    requires IsRun(states, steps) && n <= |steps| && h in states[n].stopping
    ensures exists c :: 0 <= c < n && FindsEmpty(states[c], steps[c], h)
  {
    hide Enabled, Next, FindsEmpty;
    if n > 0 {
      assert Moves(states[n - 1], steps[n - 1], states[n - 1 + 1]);
      StoppingByStep(states[n - 1], steps[n - 1], h);
      if h in states[n - 1].stopping {
        StoppingFoundEmpty(states, steps, n - 1, h);
      }
    }
  }

  /**
   In every interleaving: an entry is cancelled and has subscribers if and only if some step cancelled it, and some
   subscriber attached for good, in whichever order.
   */
  lemma OrphanedIff(states: seq<Store>, steps: seq<Step>, n: nat, h: Handle)
    requires IsRun(states, steps) && n <= |steps|
    ensures Cancelled(states[n], h) && Subs(states[n], h) != {} <==>
      exists i: nat, j: nat, id: nat :: i < n && Cancels(states[i], steps[i], h) && Stays(states, steps, j, n, h, id)
  {
    hide Enabled, Next, Cancels, Attaches, Stays;
    CancelledIff(states, steps, n, h);
    if Cancelled(states[n], h) && Subs(states[n], h) != {} {
      var id: nat :| id in Subs(states[n], h);
      SubscribedIff(states, steps, n, h, id);
    }
    if i: nat, j: nat, id: nat :| i < n && Cancels(states[i], steps[i], h) && Stays(states, steps, j, n, h, id) {
      SubscribedIff(states, steps, n, h, id);
      StaysBound(states, steps, j, n, h, id);
    }
  }

  lemma StaysBound(states: seq<Store>, steps: seq<Step>, j: nat, n: nat, h: Handle, id: nat)
    requires |states| == |steps| + 1 && n <= |steps| && Stays(states, steps, j, n, h, id)
    ensures j < n
  {
  }

  /**
   In every interleaving: when it was a delayed stop that cancelled the entry, a subscriber it left behind attached
   after every check that had found the entry empty before that stop, the stop's own check among them.
   */
  lemma StopLeavesOnlyLateComers(states: seq<Store>, steps: seq<Step>, i: nat, j: nat, n: nat, h: Handle, id: nat)
    requires IsRun(states, steps) && i < n <= |steps| && Stays(states, steps, j, n, h, id)
    requires steps[i].DelayedStopStep? && Cancels(states[i], steps[i], h)
    ensures exists c :: 0 <= c < i && FindsEmpty(states[c], steps[c], h)
    ensures forall c :: 0 <= c < i && FindsEmpty(states[c], steps[c], h) ==> c < j
  {
    hide Next, Key, OneLivePerKey;
    assert Moves(states[i], steps[i], states[i + 1]);
    StoppingFoundEmpty(states, steps, i, h);
    forall c: nat | c < i && FindsEmpty(states[c], steps[c], h)
      ensures c < j
    {
      if j < c {
        assert Stays(states, steps, j, c, h, id);
        SubscribedIff(states, steps, c, h, id);
      }
    }
  }

  /** A subscriber comes back between the check and the cancellation. */
  lemma OrphanedSubscriber(gvr: Gvr, ns: string)
    ensures exists states: seq<Store>, steps: seq<Step> ::
      IsRun(states, steps) && |steps| == 7 && steps[6] == DelayedStopStep(0)
      && Cancelled(states[7], 0) && Subs(states[7], 0) == {2}
  {
    hide Key;
    var steps := [AcquireStep(gvr, ns), AttachStep(0, true), DetachStep(0, 1), CheckEmptyStep(0),
                  AcquireStep(gvr, ns), AttachStep(0, false), DelayedStopStep(0)];
    var e := Entry(gvr, ns, {}, 1, false);
    var key := Key(gvr, ns);
    var s1 := Next(EmptyStore(), steps[0]);
    var s2 := Next(s1, steps[1]);
    var s3 := Next(s2, steps[2]);
    assert s3 == Store(map[key := 0], map[0 := e], 1, {}, multiset{}, multiset{0}, multiset{});
    var s4 := Next(s3, steps[3]);
    assert s4 == Store(map[key := 0], map[0 := e], 1, {}, multiset{}, multiset{}, multiset{0});
    var s5 := Next(s4, steps[4]);
    var s6 := Next(s5, steps[5]);
    var s7 := Next(s6, steps[6]);
    var states := [EmptyStore(), s1, s2, s3, s4, s5, s6, s7];
    assert IsRun(states, steps) by {
      hide Enabled, Next;
      assert Moves(EmptyStore(), steps[0], s1) && Moves(s1, steps[1], s2) && Moves(s2, steps[2], s3);
      assert Moves(s3, steps[3], s4) && Moves(s4, steps[4], s5) && Moves(s5, steps[5], s6) && Moves(s6, steps[6], s7);
    }
  }

  /** The creator's snapshot fails after another subscriber has attached to the entry. */
  lemma OrphanedByCreator(gvr: Gvr, ns: string)
    ensures exists states: seq<Store>, steps: seq<Step> ::
      IsRun(states, steps) && |steps| == 4 && steps[3] == SnapshotFailedStep(0, true)
      && Cancelled(states[4], 0) && Subs(states[4], 0) == {1}
  {
    hide Key;
    var steps := [AcquireStep(gvr, ns), AcquireStep(gvr, ns), AttachStep(0, false), SnapshotFailedStep(0, true)];
    var s1 := Next(EmptyStore(), steps[0]);
    var s2 := Next(s1, steps[1]);
    var s3 := Next(s2, steps[2]);
    var s4 := Next(s3, steps[3]);
    var states := [EmptyStore(), s1, s2, s3, s4];
    assert IsRun(states, steps) by {
      hide Enabled, Next;
      assert Moves(EmptyStore(), steps[0], s1) && Moves(s1, steps[1], s2) && Moves(s2, steps[2], s3);
      assert Moves(s3, steps[3], s4);
    }
  }

  // ---- the store as the source has it ----

  class InformerStore {
    var entries: map<string, Handle>
    var arena: map<Handle, Entry>
    var next: Handle
    ghost var creating: set<Handle>
    ghost var joining: multiset<Handle>
    ghost var scheduled: multiset<Handle>
    ghost var stopping: multiset<Handle>

    ghost function Contents(): Store
      reads this
    {
      Store(entries, arena, next, creating, joining, scheduled, stopping)
    }

    constructor ()
      ensures Contents() == EmptyStore() && OneLivePerKey(Contents())
    {
      entries, arena, next := map[], map[], 0;
      creating, joining, scheduled, stopping := {}, multiset{}, multiset{}, multiset{};
    }

    /**
     The first critical section of `subscribe`: find or create the entry. The entry found is live now; by the time
     the subscriber attaches, other sections have run.
     */
    method FindOrCreate(gvr: Gvr, ns: string, handlerOk: bool) returns (h: Option<Handle>, created: bool)
      requires OneLivePerKey(Contents())
      modifies this
      ensures OneLivePerKey(Contents())
      ensures h.Some? <==> handlerOk || Key(gvr, ns) in old(entries)
      ensures h.None? ==> Contents() == old(Contents())
      ensures h.Some? ==> Contents() == Next(old(Contents()), AcquireStep(gvr, ns))
      ensures h.Some? ==> h.value in arena && KeyOf(arena[h.value]) == Key(gvr, ns) && !Cancelled(Contents(), h.value)
      ensures h.Some? ==> created == (Key(gvr, ns) !in old(entries))
    {
      hide Key, OneLivePerKey;
      AcquireKeeps(Contents(), gvr, ns);
      created := Key(gvr, ns) !in entries;
      if created {
        if !handlerOk {
          return None, true;
        }
        arena := arena[next := Entry(gvr, ns, {}, 0, false)];
        entries := entries[Key(gvr, ns) := next];
        creating := creating + {next};
        next := next + 1;
      } else {
        joining := joining + multiset{entries[Key(gvr, ns)]};
      }
      h := Some(entries[Key(gvr, ns)]);
    }

    /** The last critical section of `subscribe`: a new channel, even on an entry cancelled in the meantime. */
    method AttachChannel(h: Handle, creator: bool) returns (id: nat)
      requires OneLivePerKey(Contents()) && Enabled(Contents(), AttachStep(h, creator))
      modifies this`arena, this`creating, this`joining
      ensures OneLivePerKey(Contents()) && Contents() == Next(old(Contents()), AttachStep(h, creator))
      ensures id in Subs(Contents(), h) && Cancelled(Contents(), h) == Cancelled(old(Contents()), h)
    {
      hide Key, OneLivePerKey;
      SubscribersKeep(Contents(), Next(Contents(), AttachStep(h, creator)));
      if creator {
        creating := creating - {h};
      } else {
        joining := joining - multiset{h};
      }
      id := arena[h].nextSubId + 1;
      arena := arena[h := arena[h].(nextSubId := id, subs := arena[h].subs + {id})];
    }

    /** `subscribe` after its snapshot failed: a creator takes its entry back. */
    method GiveUp(h: Handle, creator: bool)
      requires OneLivePerKey(Contents()) && Enabled(Contents(), SnapshotFailedStep(h, creator))
      modifies this`entries, this`arena, this`creating, this`joining
      ensures OneLivePerKey(Contents()) && Contents() == Next(old(Contents()), SnapshotFailedStep(h, creator))
      ensures creator ==> Cancelled(Contents(), h)
    {
      hide Key, OneLivePerKey, DropIfCurrent;
      StepKeeps(Contents(), SnapshotFailedStep(h, creator));
      SubscribersKeep(Contents(), Arrived(Contents(), h, creator));
      if creator {
        creating := creating - {h};
        RemoveEntry(h);
      } else {
        joining := joining - multiset{h};
      }
    }

    /** Removes and cancels the entry if the map still holds it; either way it is cancelled afterwards. */
    method RemoveEntry(h: Handle)
      requires OneLivePerKey(Contents()) && h in arena
      modifies this`entries, this`arena
      ensures OneLivePerKey(Contents()) && Contents() == DropIfCurrent(old(Contents()), h)
      ensures Cancelled(Contents(), h)
      ensures forall x :: x in arena && x != h ==> Cancelled(Contents(), x) == Cancelled(old(Contents()), x)
    {
      hide OneLivePerKey, Key;
      DropKeeps(Contents(), h);
      DropCancels(Contents(), h);
      var key := KeyOf(arena[h]);
      if key in entries && entries[key] == h {
        entries := entries - {key};
        arena := arena[h := arena[h].(cancelled := true)];
      }
    }

    /** Closing a stream; tells whether the entry is now without subscribers, so that a stop is scheduled. */
    method CloseStream(h: Handle, id: nat) returns (empty: bool)
      requires OneLivePerKey(Contents()) && Enabled(Contents(), DetachStep(h, id))
      modifies this`arena, this`scheduled
      ensures OneLivePerKey(Contents()) && Contents() == Next(old(Contents()), DetachStep(h, id))
      ensures id !in Subs(Contents(), h) && (empty <==> Subs(Contents(), h) == {})
      ensures scheduled == if empty then old(scheduled) + multiset{h} else old(scheduled)
    {
      hide OneLivePerKey, Key;
      SubscribersKeep(Contents(), Detach(Contents(), h, id));
      arena := arena[h := arena[h].(subs := arena[h].subs - {id})];
      empty := arena[h].subs == {};
      if empty {
        scheduled := scheduled + multiset{h};
      }
    }

    method StopEverything()
      requires OneLivePerKey(Contents())
      modifies this`entries, this`arena
      ensures OneLivePerKey(Contents()) && Contents() == StopAll(old(Contents()))
      ensures entries == map[] && forall h :: h in arena ==> arena[h].cancelled
    {
      hide Key;
      StopAllKeeps(Contents());
      forall key | key in entries
        ensures entries[key] in arena
      {
        assert SlotOk(Contents(), key);
      }
      var todo := entries.Keys;
      ghost var dropped := {};
      while todo != {}
        invariant todo <= entries.Keys && entries == old(entries) && arena.Keys == old(arena).Keys
        invariant forall key :: key in entries ==> entries[key] in arena
        invariant dropped == set key | key in entries.Keys - todo :: entries[key]
        invariant forall h :: h in arena ==>
          arena[h] == if h in dropped then old(arena)[h].(cancelled := true) else old(arena)[h]
        decreases todo
      {
        var key :| key in todo;
        var h := entries[key];
        arena := arena[h := arena[h].(cancelled := true)];
        todo := todo - {key};
        dropped := dropped + {h};
      }
      assert dropped == entries.Values;
      entries := map[];
      assert arena == StopAll(old(Contents())).arena;
      forall h | h in arena
        ensures arena[h].cancelled
      {
        assert EntryOk(Contents(), h);
      }
    }
  }
}
