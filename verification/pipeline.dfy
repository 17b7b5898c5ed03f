/**
 The delta pipeline end to end, as a step system: informer store, shared broadcast, subscriber channel,
 connection queue, socket, client copy (internal/clusters/informers.go, internal/api/stream.go,
 frontend/src/lib/useResourceList.ts). Each source is one namespace with its own informer; all sources share
 one connection and one client copy.
 */
module Pipeline {
  import opened Options
  import opened Replica

  const CHANNEL_CAPACITY := 256
  const QUEUE_CAPACITY := 1024

  type Objects = map<Uid, Item>

  function At(m: Objects, u: Uid): Option<Item> {
    if u in m then Some(m[u]) else None
  }

  /** Where a subscription stands: nothing; snapshot read; channel registered; snapshot queued. */
  datatype Phase =
    | Idle
    | HasSnapshot(snap: Objects, covered: nat)
    | Registered(snap: Objects, covered: nat, chan: seq<Frame>)
    | Live(chan: seq<Frame>)

  /**
   One source. `pending` are the deltas already in the informer's store that its handler has not broadcast yet;
   the first `covered` of them were in the store when the snapshot was read. `lost` are, before the snapshot is
   queued, the uids it may be wrong about: those a separate list disputed and those of broadcasts that were missed.
   From then on they are the uids the client will be wrong about. `synced` says whether the informer has loaded its
   own first list.
   */
  datatype Feed = Feed(store: Objects, pending: seq<Frame>, phase: Phase, lost: set<Uid>, synced: bool)

  predicate IsDelta(d: Frame) {
    match d
    case Add(item) => item.uid != ""
    case Update(item) => item.uid != ""
    case Delete(uid) => uid != ""
    case _ => false
  }

  function UidOf(d: Frame): Uid {
    match d
    case Add(item) => item.uid
    case Update(item) => item.uid
    case Delete(uid) => uid
    case _ => ""
  }

  function Stored(store: Objects, d: Frame): Objects {
    match d
    case Add(item) => store[item.uid := item]
    case Update(item) => store[item.uid := item]
    case Delete(uid) => store - {uid}
    case _ => store
  }

  // ---- deltas, one uid at a time ----

  predicate Touches(fs: seq<Frame>, u: Uid) {
    exists i :: 0 <= i < |fs| && (fs[i].Snapshot? || (IsDelta(fs[i]) && UidOf(fs[i]) == u))
  }

  lemma {:induction false} TouchedForgets(fs: seq<Frame>, u: Uid, a: Option<Item>, b: Option<Item>)
    requires Touches(fs, u)
    ensures AfterAll(fs, u, a) == AfterAll(fs, u, b)
  {
    var n := |fs| - 1;
    if !(fs[n].Snapshot? || (IsDelta(fs[n]) && UidOf(fs[n]) == u)) {
      var i :| 0 <= i < |fs| && (fs[i].Snapshot? || (IsDelta(fs[i]) && UidOf(fs[i]) == u));
      assert fs[..n][i] == fs[i];
      TouchedForgets(fs[..n], u, a, b);
    }
  }

  lemma {:induction false} UntouchedKeeps(fs: seq<Frame>, u: Uid, a: Option<Item>)
    requires !Touches(fs, u)
    ensures AfterAll(fs, u, a) == a
  {
    if fs != [] {
      var n := |fs| - 1;
      forall i | 0 <= i < n
        ensures !(fs[..n][i].Snapshot? || (IsDelta(fs[..n][i]) && UidOf(fs[..n][i]) == u))
      {
        assert fs[..n][i] == fs[i];
      }
      UntouchedKeeps(fs[..n], u, a);
      NotTouching(fs[n], u, a);
    }
  }

  lemma NotTouching(f: Frame, u: Uid, a: Option<Item>)
    requires !(f.Snapshot? || (IsDelta(f) && UidOf(f) == u))
    ensures After(f, u, a) == a
  {
  }

  /** Two starting points give one result for u exactly when they agree on u or some delta mentions u again. */
  lemma AgreeIffTouched(fs: seq<Frame>, u: Uid, a: Option<Item>, b: Option<Item>)
    ensures AfterAll(fs, u, a) == AfterAll(fs, u, b) <==> a == b || Touches(fs, u)
  {
    if Touches(fs, u) {
      TouchedForgets(fs, u, a, b);
    } else {
      UntouchedKeeps(fs, u, a);
      UntouchedKeeps(fs, u, b);
    }
  }

  /** Replaying the end of a delta sequence that has already been applied changes nothing. */
  lemma ReplayedSuffixIsSilent(done: seq<Frame>, suffix: seq<Frame>, u: Uid, a: Option<Item>)
    ensures AfterAll(suffix, u, AfterAll(done + suffix, u, a)) == AfterAll(done + suffix, u, a)
  {
    AfterAllConcat(done, suffix, u, a);
    if Touches(suffix, u) {
      TouchedForgets(suffix, u, AfterAll(done + suffix, u, a), AfterAll(done, u, a));
    } else {
      UntouchedKeeps(suffix, u, AfterAll(done + suffix, u, a));
    }
  }

  lemma AfterAllCons(f: Frame, fs: seq<Frame>, u: Uid, a: Option<Item>)
    ensures AfterAll([f] + fs, u, a) == AfterAll(fs, u, After(f, u, a))
  {
    AfterAllConcat([f], fs, u, a);
    assert [f][..0] == [];
  }

  lemma StoredAt(store: Objects, d: Frame, u: Uid)
    requires IsDelta(d)
    ensures At(Stored(store, d), u) == After(d, u, At(store, u))
  {
  }

  // ---- one source, step by step ----

  function Watch(f: Feed, d: Frame): Feed {
    f.(store := Stored(f.store, d), pending := f.pending + [d],
       lost := if f.phase.Live? then f.lost - {UidOf(d)} else f.lost)
  }

  function ReadSnapshot(f: Feed): Feed {
    f.(phase := HasSnapshot(f.store, |f.pending|), lost := {})
  }

  /** The objects about which a list and the informer's store disagree. */
  function Disputed(list: Objects, store: Objects): set<Uid> {
    set u | u in list.Keys + store.Keys && At(list, u) != At(store, u)
  }

  /** An informer that has not synced: the snapshot comes from a list call of the subscriber's own. */
  function ListSnapshot(f: Feed, list: Objects): Feed {
    f.(phase := HasSnapshot(list, 0), lost := Disputed(list, f.store))
  }

  function Register(f: Feed): Feed
    requires f.phase.HasSnapshot?
  {
    f.(phase := Registered(f.phase.snap, f.phase.covered, []))
  }

  /** The uids about which a snapshot is out of date and no delta will come. */
  function Outdated(snap: Objects, store: Objects, pending: seq<Frame>): set<Uid> {
    set u | u in snap.Keys + store.Keys && At(snap, u) != At(store, u) && !Touches(pending, u)
  }

  function Enqueue(f: Feed, list: seq<Item>): Feed
    requires f.phase.Registered?
  {
    f.(phase := Live(f.phase.chan + [Snapshot(list)]), lost := Outdated(f.phase.snap, f.store, f.pending))
  }

  function Offer(chan: seq<Frame>, d: Frame): seq<Frame> {
    if |chan| < CHANNEL_CAPACITY then chan + [d] else chan
  }

  /** Dropping the delta does no harm: it changes nothing in what the client will show, or another one follows. */
  predicate Harmless(d: Frame, rest: seq<Frame>, shown: Option<Item>) {
    After(d, UidOf(d), shown) == shown || Touches(rest, UidOf(d))
  }

  /**
   The handler takes the oldest pending delta and offers it to the channel, if any; a full channel drops it. `shown`
   is what the client will show of the delta's object once all that precedes the delta has arrived.
   */
  function Broadcast(f: Feed, shown: Option<Item>): Feed
    requires f.pending != []
  {
    var d, rest := f.pending[0], f.pending[1..];
    match f.phase
    case Idle => f.(pending := rest)
    case HasSnapshot(snap, c) =>
      if c > 0 then f.(pending := rest, phase := HasSnapshot(snap, c - 1))
      else f.(pending := rest, lost := f.lost + {UidOf(d)})
    case Registered(snap, c, chan) =>
      if c > 0 then f.(pending := rest, phase := Registered(snap, c - 1, Offer(chan, d)))
      else f.(pending := rest, phase := Registered(snap, 0, Offer(chan, d)), lost := f.lost + {UidOf(d)})
    case Live(chan) =>
      f.(pending := rest, phase := Live(Offer(chan, d)),
         lost := if |chan| < CHANNEL_CAPACITY || Harmless(d, rest, shown) then f.lost else f.lost + {UidOf(d)})
  }

  /** The invariant of one source at one uid; `base` is what the client shows of u once queue and socket are drained. */
  ghost predicate Settles(f: Feed, u: Uid, base: Option<Item>) {
    && AfterAll(f.pending, u, At(f.store, u)) == At(f.store, u)
    && match f.phase
       case Idle => true
       case HasSnapshot(snap, c) => SnapshotSettles(f, snap, c, u)
       case Registered(snap, c, _) => SnapshotSettles(f, snap, c, u)
       case Live(chan) => u !in f.lost <==> AfterAll(chan + f.pending, u, base) == At(f.store, u)
  }

  ghost predicate SnapshotSettles(f: Feed, snap: Objects, c: nat, u: Uid) {
    c <= |f.pending| && (u !in f.lost ==> AfterAll(f.pending[c..], u, At(snap, u)) == At(f.store, u))
  }

  ghost predicate DeltasOnly(fs: seq<Frame>) {
    forall i :: 0 <= i < |fs| ==> IsDelta(fs[i])
  }

  lemma WatchSettles(f: Feed, d: Frame, u: Uid, base: Option<Item>)
    requires Settles(f, u, base) && IsDelta(d)
    ensures Settles(Watch(f, d), u, base)
  {
    StoredAt(f.store, d, u);
    AfterAllSnoc(f.pending, d, u, At(Watch(f, d).store, u));
    assert AfterAll(f.pending + [d], u, At(Watch(f, d).store, u)) == At(Watch(f, d).store, u) by {
      if UidOf(d) != u {
        NotTouching(d, u, At(f.store, u));
      }
    }
    match f.phase
    case Idle =>
    case HasSnapshot(snap, c) => WatchSnapshot(f, d, snap, c, u);
    case Registered(snap, c, _) => WatchSnapshot(f, d, snap, c, u);
    case Live(chan) =>
      assert chan + (f.pending + [d]) == chan + f.pending + [d];
      AfterAllSnoc(chan + f.pending, d, u, base);
  }

  lemma WatchSnapshot(f: Feed, d: Frame, snap: Objects, c: nat, u: Uid)
    requires SnapshotSettles(f, snap, c, u) && IsDelta(d)
    ensures SnapshotSettles(Watch(f, d), snap, c, u)
  {
    StoredAt(f.store, d, u);
    assert (f.pending + [d])[c..] == f.pending[c..] + [d];
    AfterAllSnoc(f.pending[c..], d, u, At(snap, u));
  }

  lemma ReadSettles(f: Feed, u: Uid, base: Option<Item>)
    requires Settles(f, u, base)
    ensures Settles(ReadSnapshot(f), u, base)
  {
    assert f.pending[|f.pending|..] == [];
  }

  lemma ListSettles(f: Feed, list: Objects, u: Uid, base: Option<Item>)
    requires Settles(f, u, base)
    ensures Settles(ListSnapshot(f, list), u, base)
  {
    assert f.pending[0..] == f.pending;
    assert u !in Disputed(list, f.store) ==> At(list, u) == At(f.store, u);
  }

  /** Queueing the snapshot: it is right about u if it agrees with the store by now or a pending delta touches u. */
  lemma EnqueueSettles(f: Feed, list: seq<Item>, u: Uid, base: Option<Item>)
    requires f.phase.Registered? && Settles(f, u, base) && Listed(list, u) == At(f.phase.snap, u)
    ensures Settles(Enqueue(f, list), u, base)
  {
    hide Touches;
    var queued := f.phase.chan + [Snapshot(list)];
    AfterAllConcat(queued, f.pending, u, base);
    AfterAllSnoc(f.phase.chan, Snapshot(list), u, base);
    AgreeIffTouched(f.pending, u, At(f.phase.snap, u), At(f.store, u));
  }

  /** What the snapshot covers is not lost. */
  lemma EnqueueLosesNothingNew(f: Feed, list: seq<Item>, u: Uid, base: Option<Item>)
    requires f.phase.Registered? && Settles(f, u, base) && u !in f.lost
    ensures u !in Enqueue(f, list).lost
  {
    var snap, later := f.phase.snap, f.pending[f.phase.covered..];
    if !Touches(f.pending, u) {
      forall i | 0 <= i < |later|
        ensures !(later[i].Snapshot? || (IsDelta(later[i]) && UidOf(later[i]) == u))
      {
        assert later[i] == f.pending[f.phase.covered + i];
      }
      UntouchedKeeps(later, u, At(snap, u));
    }
  }

  /** Taking the oldest pending delta away leaves a store that the remaining ones already explain. */
  lemma PoppedStore(store: Objects, d: Frame, rest: seq<Frame>, u: Uid)
    requires AfterAll([d] + rest, u, At(store, u)) == At(store, u)
    ensures AfterAll(rest, u, At(store, u)) == At(store, u)
  {
    AfterAllCons(d, rest, u, At(store, u));
    if Touches(rest, u) {
      TouchedForgets(rest, u, At(store, u), After(d, u, At(store, u)));
    } else {
      UntouchedKeeps(rest, u, At(store, u));
    }
  }

  lemma SkippedDelta(d: Frame, rest: seq<Frame>, u: Uid, a: Option<Item>)
    requires IsDelta(d) && UidOf(d) != u
    ensures AfterAll([d] + rest, u, a) == AfterAll(rest, u, a)
  {
    AfterAllCons(d, rest, u, a);
    NotTouching(d, u, a);
  }

  /** A delta that is not the last word on its object, or changes nothing, may be dropped; no other may. */
  lemma DropIff(f: Feed, u: Uid, chan: seq<Frame>, base: Option<Item>)
    requires f.pending != [] && IsDelta(f.pending[0]) && UidOf(f.pending[0]) == u
    requires AfterAll(f.pending, u, At(f.store, u)) == At(f.store, u)
    ensures AfterAll(chan + f.pending[1..], u, base) == At(f.store, u)
      <==> Harmless(f.pending[0], f.pending[1..], AfterAll(chan, u, base))
  {
    hide Touches;
    var d, rest, shown := f.pending[0], f.pending[1..], AfterAll(chan, u, base);
    assert f.pending == [d] + rest;
    PoppedStore(f.store, d, rest, u);
    AfterAllConcat(chan, rest, u, base);
    AgreeIffTouched(rest, u, shown, At(f.store, u));
    AfterAllCons(d, rest, u, At(f.store, u));
    AgreeIffTouched(rest, u, After(d, u, At(f.store, u)), At(f.store, u));
    assert After(d, u, At(f.store, u)) == After(d, u, shown);
  }

  lemma BroadcastLive(f: Feed, u: Uid, base: Option<Item>, shown: Option<Item>)
    requires f.pending != [] && IsDelta(f.pending[0]) && f.phase.Live? && Settles(f, u, base)
    requires UidOf(f.pending[0]) == u ==> shown == AfterAll(f.phase.chan, u, base)
    ensures Settles(Broadcast(f, shown), u, base)
  {
    var d, rest, chan := f.pending[0], f.pending[1..], f.phase.chan;
    assert f.pending == [d] + rest;
    PoppedStore(f.store, d, rest, u);
    if |chan| < CHANNEL_CAPACITY {
      assert chan + [d] + rest == chan + f.pending;
    } else if UidOf(d) == u {
      DropIff(f, u, chan, base);
      if u in f.lost {
        LostIsUntouched(f, u, base);
      }
    } else {
      AfterAllConcat(chan, f.pending, u, base);
      AfterAllConcat(chan, rest, u, base);
      SkippedDelta(d, rest, u, AfterAll(chan, u, base));
    }
  }

  /** Where the client will be wrong, no delta is pending. */
  lemma LostIsUntouched(f: Feed, u: Uid, base: Option<Item>)
    requires f.phase.Live? && Settles(f, u, base) && u in f.lost
    ensures !Touches(f.pending, u)
  {
    AfterAllConcat(f.phase.chan, f.pending, u, base);
    if Touches(f.pending, u) {
      TouchedForgets(f.pending, u, AfterAll(f.phase.chan, u, base), At(f.store, u));
    }
  }

  lemma BroadcastBefore(f: Feed, u: Uid, base: Option<Item>, shown: Option<Item>)
    requires f.pending != [] && IsDelta(f.pending[0]) && !f.phase.Live? && Settles(f, u, base)
    ensures Settles(Broadcast(f, shown), u, base)
  {
    var d, rest := f.pending[0], f.pending[1..];
    assert f.pending == [d] + rest;
    PoppedStore(f.store, d, rest, u);
    if !f.phase.Idle? {
      var c := f.phase.covered;
      if c > 0 {
        assert rest[c - 1..] == f.pending[c..];
      } else {
        assert rest[0..] == rest && f.pending[0..] == f.pending;
        if UidOf(d) != u {
          SkippedDelta(d, rest, u, At(f.phase.snap, u));
        }
      }
    }
  }

  lemma PumpSettles(f: Feed, chan: seq<Frame>, u: Uid, base: Option<Item>)
    requires f.phase == Live(chan) && chan != [] && Settles(f, u, base)
    ensures Settles(f.(phase := Live(chan[1..])), u, After(chan[0], u, base))
  {
    assert chan + f.pending == [chan[0]] + (chan[1..] + f.pending);
    AfterAllCons(chan[0], chan[1..] + f.pending, u, base);
  }

  // ---- the whole system ----

  datatype System = System(feeds: map<Source, Feed>, out: seq<Delivery>, socket: seq<Delivery>, copy: Copy)

  datatype Step =
    | WatchStep(source: Source, delta: Frame)
    | SyncStep(source: Source)
    | ReadStep(source: Source)
    | ListStep(source: Source, objects: Objects)
    | RegisterStep(source: Source)
    | EnqueueStep(source: Source, list: seq<Item>)
    | BroadcastStep(source: Source)
    | PumpStep(source: Source)
    | WriteStep
    | DeliverStep
    | DisconnectStep

  /** A list that shows exactly the objects of the snapshot, in whatever order. */
  ghost predicate Lists(list: seq<Item>, snap: Objects) {
    && (forall u :: Listed(list, u) == At(snap, u))
    && (forall i :: 0 <= i < |list| ==> list[i].uid != "")
  }

  ghost predicate Enabled(s: System, step: Step, owner: Owner) {
    match step
    case WatchStep(source, d) => source in s.feeds && IsDelta(d) && owner(UidOf(d)) == source
    case SyncStep(source) => source in s.feeds
    case ReadStep(source) => source in s.feeds && s.feeds[source].phase.Idle? && s.feeds[source].synced
    case ListStep(source, objects) =>
      && source in s.feeds && s.feeds[source].phase.Idle? && !s.feeds[source].synced
      && ObjectsOwned(objects, source, owner)
    case RegisterStep(source) => source in s.feeds && s.feeds[source].phase.HasSnapshot?
    case EnqueueStep(source, list) =>
      && source in s.feeds && s.feeds[source].phase.Registered?
      && |s.feeds[source].phase.chan| < CHANNEL_CAPACITY
      && Lists(list, s.feeds[source].phase.snap)
    case BroadcastStep(source) => source in s.feeds && s.feeds[source].pending != []
    case PumpStep(source) =>
      && source in s.feeds && s.feeds[source].phase.Live? && s.feeds[source].phase.chan != []
      && |s.out| < QUEUE_CAPACITY
    case WriteStep => s.out != []
    case DeliverStep => s.socket != []
    case DisconnectStep => true
  }

  function Dropped(f: Feed): Feed {
    f.(phase := Idle, lost := {})
  }

  /** What the client will show of u for a source once the connection queue and the socket are drained. */
  function Arriving(s: System, source: Source, u: Uid): Option<Item> {
    AfterAll(FramesOf(s.socket + s.out, source), u, Lookup(s.copy, source, u))
  }

  /** What it will show of u once the source's channel is drained, too. */
  function Shown(s: System, source: Source, u: Uid): Option<Item>
    requires source in s.feeds
  {
    AfterAll(if s.feeds[source].phase.Live? then s.feeds[source].phase.chan else [], u, Arriving(s, source, u))
  }

  ghost function Next(s: System, step: Step, owner: Owner): System
    requires Enabled(s, step, owner)
  {
    match step
    case WatchStep(source, d) => s.(feeds := s.feeds[source := Watch(s.feeds[source], d)])
    case SyncStep(source) => s.(feeds := s.feeds[source := s.feeds[source].(synced := true)])
    case ReadStep(source) => s.(feeds := s.feeds[source := ReadSnapshot(s.feeds[source])])
    case ListStep(source, objects) => s.(feeds := s.feeds[source := ListSnapshot(s.feeds[source], objects)])
    case RegisterStep(source) => s.(feeds := s.feeds[source := Register(s.feeds[source])])
    case EnqueueStep(source, list) => s.(feeds := s.feeds[source := Enqueue(s.feeds[source], list)])
    case BroadcastStep(source) =>
      var d := s.feeds[source].pending[0];
      s.(feeds := s.feeds[source := Broadcast(s.feeds[source], Shown(s, source, UidOf(d)))])
    case PumpStep(source) =>
      var chan := s.feeds[source].phase.chan;
      s.(feeds := s.feeds[source := s.feeds[source].(phase := Live(chan[1..]))],
         out := s.out + [Delivery(source, chan[0])])
    case WriteStep => s.(out := s.out[1..], socket := s.socket + [s.out[0]])
    case DeliverStep => s.(socket := s.socket[1..], copy := ApplyFrom(s.copy, s.socket[0].source, s.socket[0].frame))
    case DisconnectStep => s.(feeds := map x | x in s.feeds :: Dropped(s.feeds[x]), out := [], socket := [])
  }

  // ---- the invariant of the whole system ----

  ghost predicate ObjectsOwned(m: Objects, source: Source, owner: Owner) {
    forall u :: u in m ==> u != "" && owner(u) == source
  }

  ghost predicate FramesOwned(fs: seq<Frame>, source: Source, owner: Owner) {
    forall i :: 0 <= i < |fs| ==> FrameOwned(fs[i], source, owner)
  }

  ghost predicate FeedOwned(f: Feed, source: Source, owner: Owner) {
    && ObjectsOwned(f.store, source, owner)
    && DeltasOnly(f.pending) && FramesOwned(f.pending, source, owner)
    && match f.phase
       case Idle => true
       case HasSnapshot(snap, _) => ObjectsOwned(snap, source, owner)
       case Registered(snap, _, chan) => ObjectsOwned(snap, source, owner) && FramesOwned(chan, source, owner)
       case Live(chan) => FramesOwned(chan, source, owner)
  }

  ghost predicate FromFeeds(run: seq<Delivery>, feeds: map<Source, Feed>) {
    forall i :: 0 <= i < |run| ==> run[i].source in feeds
  }

  ghost predicate OwnedSystem(s: System, owner: Owner) {
    && Owned(s.copy, owner)
    && RunOwned(s.socket, owner) && RunOwned(s.out, owner)
    && FromFeeds(s.socket, s.feeds) && FromFeeds(s.out, s.feeds)
    && s.copy.scoped.Keys <= s.feeds.Keys
    && forall x :: x in s.feeds ==> FeedOwned(s.feeds[x], x, owner)
  }

  ghost predicate Settled(s: System) {
    forall x, u :: x in s.feeds ==> Settles(s.feeds[x], u, Arriving(s, x, u))
  }

  ghost predicate Initial(s: System, owner: Owner) {
    && s.out == [] && s.socket == [] && s.copy == Copy(map[], map[])
    && forall x :: x in s.feeds ==>
         ObjectsOwned(s.feeds[x].store, x, owner)
         && s.feeds[x] == Feed(s.feeds[x].store, [], Idle, {}, s.feeds[x].synced)
  }

  lemma InitialHolds(s: System, owner: Owner)
    requires Initial(s, owner)
    ensures OwnedSystem(s, owner) && Settled(s)
  {
    forall x, u
      ensures OwnedAt(s.copy, owner, x, u)
    {
    }
  }

  lemma DeltaOwned(d: Frame, source: Source, owner: Owner)
    requires IsDelta(d) && owner(UidOf(d)) == source
    ensures FrameOwned(d, source, owner)
  {
  }

  lemma ListOwned(list: seq<Item>, snap: Objects, source: Source, owner: Owner)
    requires Lists(list, snap) && ObjectsOwned(snap, source, owner)
    ensures FrameOwned(Snapshot(list), source, owner)
  {
    forall i | 0 <= i < |list| && list[i].uid != ""
      ensures owner(list[i].uid) == source
    {
      assert Listed(list, list[i].uid) == At(snap, list[i].uid);
    }
  }

  lemma WatchOwned(f: Feed, d: Frame, source: Source, owner: Owner)
    requires FeedOwned(f, source, owner) && IsDelta(d) && owner(UidOf(d)) == source
    ensures FeedOwned(Watch(f, d), source, owner)
  {
    DeltaOwned(d, source, owner);
    StoredOwned(f.store, d, source, owner);
  }

  lemma StoredOwned(store: Objects, d: Frame, source: Source, owner: Owner)
    requires ObjectsOwned(store, source, owner) && IsDelta(d) && owner(UidOf(d)) == source
    ensures ObjectsOwned(Stored(store, d), source, owner)
  {
  }

  lemma EnqueueOwned(f: Feed, list: seq<Item>, source: Source, owner: Owner)
    requires FeedOwned(f, source, owner) && f.phase.Registered? && Lists(list, f.phase.snap)
    ensures FeedOwned(Enqueue(f, list), source, owner)
  {
    ListOwned(list, f.phase.snap, source, owner);
  }

  lemma BroadcastOwned(f: Feed, shown: Option<Item>, source: Source, owner: Owner)
    requires FeedOwned(f, source, owner) && f.pending != []
    ensures FeedOwned(Broadcast(f, shown), source, owner)
  {
    hide ObjectsOwned, FrameOwned, IsDelta, UidOf, Harmless;
  }

  lemma PumpOwned(f: Feed, chan: seq<Frame>, source: Source, owner: Owner)
    requires FeedOwned(f, source, owner) && f.phase == Live(chan) && chan != []
    ensures FeedOwned(f.(phase := Live(chan[1..])), source, owner) && FrameOwned(chan[0], source, owner)
  {
    hide ObjectsOwned, FrameOwned, IsDelta;
  }

  /** One source changes and the connection does not. */
  lemma LocalStep(s: System, t: System, source: Source, f: Feed, owner: Owner)
    requires OwnedSystem(s, owner) && Settled(s) && source in s.feeds
    requires t == s.(feeds := s.feeds[source := f])
    requires FeedOwned(f, source, owner)
    requires forall u :: Settles(f, u, Arriving(s, source, u))
    ensures OwnedSystem(t, owner) && Settled(t)
  {
    hide FeedOwned, Settles, Owned, RunOwned;
    forall x, u | x in t.feeds
      ensures Settles(t.feeds[x], u, Arriving(t, x, u))
    {
      assert Arriving(t, x, u) == Arriving(s, x, u);
    }
  }

  lemma {:induction false} FramesOfConcat(a: seq<Delivery>, b: seq<Delivery>, x: Source)
    ensures FramesOf(a + b, x) == FramesOf(a, x) + FramesOf(b, x)
  {
    if b == [] {
      assert a + b == a;
    } else {
      var n := |b| - 1;
      assert (a + b)[..|a + b| - 1] == a + b[..n];
      FramesOfConcat(a, b[..n], x);
    }
  }

  lemma PumpArrives(s: System, t: System, e: Delivery, x: Source, u: Uid)
    requires t.socket == s.socket && t.out == s.out + [e] && t.copy == s.copy
    ensures Arriving(t, x, u) == if e.source == x then After(e.frame, u, Arriving(s, x, u)) else Arriving(s, x, u)
  {
    var run := s.socket + s.out;
    assert t.socket + t.out == run + [e];
    FramesOfConcat(run, [e], x);
    assert [e][..0] == [];
    if e.source == x {
      AfterAllSnoc(FramesOf(run, x), e.frame, u, Lookup(s.copy, x, u));
    } else {
      assert FramesOf(run, x) + [] == FramesOf(run, x);
    }
  }

  lemma WriteArrives(s: System, t: System, x: Source, u: Uid)
    requires s.out != [] && t.out == s.out[1..] && t.socket == s.socket + [s.out[0]] && t.copy == s.copy
    ensures Arriving(t, x, u) == Arriving(s, x, u)
  {
    assert t.socket + t.out == s.socket + s.out;
  }

  lemma DeliverArrives(s: System, t: System, owner: Owner, x: Source, u: Uid)
    requires s.socket != [] && t.socket == s.socket[1..] && t.out == s.out
    requires t.copy == ApplyFrom(s.copy, s.socket[0].source, s.socket[0].frame)
    requires Owned(s.copy, owner) && FrameOwned(s.socket[0].frame, s.socket[0].source, owner)
    ensures Arriving(t, x, u) == Arriving(s, x, u)
  {
    hide Lookup, ApplyFrom, FrameOwned, Owned;
    var e, rest := s.socket[0], s.socket[1..] + s.out;
    assert s.socket + s.out == [e] + rest;
    FramesOfConcat([e], rest, x);
    assert [e][..0] == [];
    FrameAt(s.copy, e.source, e.frame, owner, x, u);
    assert FramesOf([e], x) == if e.source == x then [e.frame] else [];
    assert t.socket + t.out == rest;
    if e.source == x {
      AfterAllCons(e.frame, FramesOf(rest, x), u, Lookup(s.copy, x, u));
    } else {
      assert [] + FramesOf(rest, x) == FramesOf(rest, x);
    }
  }

  lemma ScopesOfFrame(r: Copy, e: Delivery)
    ensures ApplyFrom(r, e.source, e.frame).scoped.Keys <= r.scoped.Keys + {e.source}
  {
  }

  lemma PumpHolds(s: System, source: Source, owner: Owner)
    requires OwnedSystem(s, owner) && Settled(s) && Enabled(s, PumpStep(source), owner)
    ensures OwnedSystem(Next(s, PumpStep(source), owner), owner) && Settled(Next(s, PumpStep(source), owner))
  {
    hide FeedOwned, Settles, Owned, Arriving, FrameOwned;
    var t := Next(s, PumpStep(source), owner);
    var chan := s.feeds[source].phase.chan;
    PumpOwned(s.feeds[source], chan, source, owner);
    forall x, u | x in t.feeds
      ensures Settles(t.feeds[x], u, Arriving(t, x, u))
    {
      PumpArrives(s, t, Delivery(source, chan[0]), x, u);
      if x == source {
        PumpSettles(s.feeds[x], chan, u, Arriving(s, x, u));
      }
    }
  }

  lemma WriteHolds(s: System, owner: Owner)
    requires OwnedSystem(s, owner) && Settled(s) && Enabled(s, WriteStep, owner)
    ensures OwnedSystem(Next(s, WriteStep, owner), owner) && Settled(Next(s, WriteStep, owner))
  {
    hide FeedOwned, Settles, Owned, Arriving, FrameOwned;
    var t := Next(s, WriteStep, owner);
    forall x, u | x in t.feeds
      ensures Settles(t.feeds[x], u, Arriving(t, x, u))
    {
      WriteArrives(s, t, x, u);
    }
  }

  lemma DeliverHolds(s: System, owner: Owner)
    requires OwnedSystem(s, owner) && Settled(s) && Enabled(s, DeliverStep, owner)
    ensures OwnedSystem(Next(s, DeliverStep, owner), owner) && Settled(Next(s, DeliverStep, owner))
  {
    hide FeedOwned, Settles, Owned, Arriving, FrameOwned, ApplyFrom;
    var t := Next(s, DeliverStep, owner);
    var e := s.socket[0];
    FrameKeepsOwned(s.copy, e.source, e.frame, owner);
    ScopesOfFrame(s.copy, e);
    forall x, u | x in t.feeds
      ensures Settles(t.feeds[x], u, Arriving(t, x, u))
    {
      DeliverArrives(s, t, owner, x, u);
    }
  }

  lemma DisconnectHolds(s: System, owner: Owner)
    requires OwnedSystem(s, owner) && Settled(s)
    ensures OwnedSystem(Next(s, DisconnectStep, owner), owner) && Settled(Next(s, DisconnectStep, owner))
  {
    hide Owned, Arriving, FrameOwned, ObjectsOwned;
    var t := Next(s, DisconnectStep, owner);
    forall x, u | x in t.feeds
      ensures Settles(t.feeds[x], u, Arriving(t, x, u))
    {
      assert Settles(s.feeds[x], u, Arriving(s, x, u));
    }
  }

  lemma LocalStepHolds(s: System, step: Step, owner: Owner)
    requires OwnedSystem(s, owner) && Settled(s) && Enabled(s, step, owner)
    requires !step.PumpStep? && !step.WriteStep? && !step.DeliverStep? && !step.DisconnectStep?
    ensures OwnedSystem(Next(s, step, owner), owner) && Settled(Next(s, step, owner))
  {
    hide Owned, Arriving, FrameOwned, Settles, Listed, RunOwned;
    var source := step.source;
    var f := s.feeds[source];
    var t := Next(s, step, owner);
    forall u
      ensures Settles(t.feeds[source], u, Arriving(s, source, u))
    {
      assert Settles(f, u, Arriving(s, source, u));
      match step
      case WatchStep(_, d) => WatchSettles(f, d, u, Arriving(s, source, u));
      case SyncStep(_) => SyncSettles(f, u, Arriving(s, source, u));
      case ReadStep(_) => ReadSettles(f, u, Arriving(s, source, u));
      case ListStep(_, objects) => ListSettles(f, objects, u, Arriving(s, source, u));
      case RegisterStep(_) => RegisterSettles(f, u, Arriving(s, source, u));
      case EnqueueStep(_, list) => EnqueueSettles(f, list, u, Arriving(s, source, u));
      case BroadcastStep(_) =>
        var shown := Shown(s, source, UidOf(f.pending[0]));
        if f.phase.Live? {
          BroadcastLive(f, u, Arriving(s, source, u), shown);
        } else {
          BroadcastBefore(f, u, Arriving(s, source, u), shown);
        }
    }
    LocalStepOwned(f, step, if step.BroadcastStep? then Shown(s, source, UidOf(f.pending[0])) else None, source, owner);
    LocalStep(s, t, source, t.feeds[source], owner);
  }

  lemma SyncSettles(f: Feed, u: Uid, base: Option<Item>)
    requires Settles(f, u, base)
    ensures Settles(f.(synced := true), u, base)
  {
  }

  lemma RegisterSettles(f: Feed, u: Uid, base: Option<Item>)
    requires f.phase.HasSnapshot? && Settles(f, u, base)
    ensures Settles(Register(f), u, base)
  {
  }

  ghost predicate EnabledAt(f: Feed, step: Step, source: Source, owner: Owner) {
    match step
    case WatchStep(_, d) => IsDelta(d) && owner(UidOf(d)) == source
    case RegisterStep(_) => f.phase.HasSnapshot?
    case EnqueueStep(_, list) => f.phase.Registered? && Lists(list, f.phase.snap)
    case BroadcastStep(_) => f.pending != []
    case SyncStep(_) => true
    case ReadStep(_) => true
    case ListStep(_, objects) => ObjectsOwned(objects, source, owner)
    case _ => false
  }

  ghost function LocalNext(f: Feed, step: Step, shown: Option<Item>, source: Source, owner: Owner): Feed
    requires EnabledAt(f, step, source, owner)
  {
    match step
    case WatchStep(_, d) => Watch(f, d)
    case SyncStep(_) => f.(synced := true)
    case ReadStep(_) => ReadSnapshot(f)
    case ListStep(_, objects) => ListSnapshot(f, objects)
    case RegisterStep(_) => Register(f)
    case EnqueueStep(_, list) => Enqueue(f, list)
    case BroadcastStep(_) => Broadcast(f, shown)
  }

  lemma LocalStepOwned(f: Feed, step: Step, shown: Option<Item>, source: Source, owner: Owner)
    requires FeedOwned(f, source, owner) && EnabledAt(f, step, source, owner)
    ensures FeedOwned(LocalNext(f, step, shown, source, owner), source, owner)
  {
    hide ObjectsOwned, FrameOwned, Lists;
    match step
    case WatchStep(_, d) => WatchOwned(f, d, source, owner);
    case EnqueueStep(_, list) => EnqueueOwned(f, list, source, owner);
    case BroadcastStep(_) => BroadcastOwned(f, shown, source, owner);
    case _ =>
  }

  lemma StepHolds(s: System, step: Step, owner: Owner)
    requires OwnedSystem(s, owner) && Settled(s) && Enabled(s, step, owner)
    ensures OwnedSystem(Next(s, step, owner), owner) && Settled(Next(s, step, owner))
  {
    hide OwnedSystem, Settled, Enabled, Next;
    match step
    case PumpStep(source) => PumpHolds(s, source, owner);
    case WriteStep => WriteHolds(s, owner);
    case DeliverStep => DeliverHolds(s, owner);
    case DisconnectStep => DisconnectHolds(s, owner);
    case _ => LocalStepHolds(s, step, owner);
  }

  // ---- whole runs ----

  ghost predicate IsRun(states: seq<System>, steps: seq<Step>, owner: Owner) {
    && |states| == |steps| + 1 && Initial(states[0], owner)
    && forall i :: 0 <= i < |steps| ==> Moves(states[i], steps[i], states[i + 1], owner)
  }

  ghost predicate Moves(s: System, step: Step, t: System, owner: Owner) {
    Enabled(s, step, owner) && t == Next(s, step, owner)
  }

  lemma {:induction false} RunHolds(states: seq<System>, steps: seq<Step>, owner: Owner, n: nat)
    requires IsRun(states, steps, owner) && n <= |steps|
    ensures OwnedSystem(states[n], owner) && Settled(states[n])
  {
    hide OwnedSystem, Settled, Enabled, Next, Initial;
    if n == 0 {
      InitialHolds(states[0], owner);
    } else {
      RunHolds(states, steps, owner, n - 1);
      assert Moves(states[n - 1], steps[n - 1], states[n - 1 + 1], owner);
      StepHolds(states[n - 1], steps[n - 1], owner);
    }
  }

  /** What the client will show of u once everything on its way has arrived. */
  function Final(s: System, source: Source, u: Uid): Option<Item>
    requires source in s.feeds && s.feeds[source].phase.Live?
  {
    AfterAll(FramesOf(s.socket + s.out, source) + s.feeds[source].phase.chan + s.feeds[source].pending, u,
             Lookup(s.copy, source, u))
  }

  predicate IsLive(s: System, source: Source) {
    source in s.feeds && s.feeds[source].phase.Live?
  }

  lemma FinalSplits(s: System, source: Source, u: Uid)
    requires IsLive(s, source)
    ensures Final(s, source, u)
         == AfterAll(s.feeds[source].phase.chan + s.feeds[source].pending, u, Arriving(s, source, u))
  {
    var f, net := s.feeds[source], FramesOf(s.socket + s.out, source);
    assert net + f.phase.chan + f.pending == net + (f.phase.chan + f.pending);
    AfterAllConcat(net, f.phase.chan + f.pending, u, Lookup(s.copy, source, u));
  }

  /**
   In every state of every run: applying to the client's copy what is in the socket, the connection queue, the
   subscriber's channel and the not yet broadcast deltas gives the informer's store, at exactly the uids that are
   not lost.
   */
  lemma InFlightReachesStore(states: seq<System>, steps: seq<Step>, owner: Owner, n: nat, source: Source, u: Uid)
    requires IsRun(states, steps, owner) && n <= |steps| && IsLive(states[n], source)
    ensures u !in states[n].feeds[source].lost <==>
      Final(states[n], source, u) == At(states[n].feeds[source].store, u)
  {
    hide OwnedSystem, Moves, Initial, Final, Arriving;
    RunHolds(states, steps, owner, n);
    assert Settles(states[n].feeds[source], u, Arriving(states[n], source, u));
    FinalSplits(states[n], source, u);
  }

  ghost predicate Drained(s: System) {
    && s.out == [] && s.socket == []
    && forall x :: x in s.feeds ==> s.feeds[x].phase == Live([]) && s.feeds[x].pending == []
  }

  /**
   When everything is drained, the client shows of every object what its informer's store holds, exactly if the
   object is not lost: with nothing lost its items are the union of the informers' stores.
   */
  lemma EndToEndReplica(states: seq<System>, steps: seq<Step>, owner: Owner, s: System, u: Uid)
    requires IsRun(states, steps, owner) && s == states[|steps|] && Drained(s)
    ensures owner(u) !in s.feeds ==> u !in s.copy.items
    ensures owner(u) in s.feeds ==>
      (At(s.copy.items, u) == At(s.feeds[owner(u)].store, u) <==> u !in s.feeds[owner(u)].lost)
  {
    RunHolds(states, steps, owner, |steps|);
    OwnedItem(s.copy, owner, u);
    if owner(u) in s.feeds {
      InFlightReachesStore(states, steps, owner, |steps|, owner(u), u);
      var f := s.feeds[owner(u)];
      assert FramesOf(s.socket + s.out, owner(u)) + f.phase.chan + f.pending == [];
    }
  }

  // ---- when something is lost ----

  /** Will the next broadcast of this source be missed by its subscription? */
  predicate Misses(f: Feed) {
    match f.phase
    case Idle => false
    case HasSnapshot(_, c) => c == 0
    case Registered(_, c, _) => c == 0
    case Live(chan) => |chan| >= CHANNEL_CAPACITY
  }

  /** The step loses nothing: its broadcast is not missed, its list agrees with the informer's store. */
  predicate Spares(s: System, step: Step) {
    match step
    case BroadcastStep(source) => source in s.feeds ==> !Misses(s.feeds[source])
    case ListStep(source, objects) => source in s.feeds ==> Disputed(objects, s.feeds[source].store) == {}
    case _ => true
  }

  ghost predicate NoMisses(states: seq<System>, steps: seq<Step>)
    requires |states| == |steps| + 1
  {
    forall i :: 0 <= i < |steps| ==> Spares(states[i], steps[i])
  }

  lemma LostOnlyByMiss(s: System, step: Step, owner: Owner, x: Source)
    requires Enabled(s, step, owner) && Settled(s) && x in s.feeds && s.feeds[x].lost == {} && Spares(s, step)
    ensures x in Next(s, step, owner).feeds && Next(s, step, owner).feeds[x].lost == {}
  {
    hide Settles, Arriving, Harmless, Outdated, Lists;
    if step.EnqueueStep? && step.source == x {
      forall u
        ensures u !in Enqueue(s.feeds[x], step.list).lost
      {
        assert Settles(s.feeds[x], u, Arriving(s, x, u));
        EnqueueLosesNothingNew(s.feeds[x], step.list, u, Arriving(s, x, u));
      }
    }
  }

  /**
   Nothing is lost in a run in which every broadcast finds room in the channel, none falls between reading a
   snapshot and queueing it, except for deltas the snapshot already contains, and every separate list agrees with
   the informer's store.
   */
  lemma {:induction false} NothingLostWithoutMisses(states: seq<System>, steps: seq<Step>, owner: Owner,
                                                    n: nat, x: Source)
    requires IsRun(states, steps, owner) && NoMisses(states, steps) && n <= |steps| && x in states[n].feeds
    ensures states[n].feeds[x].lost == {}
  {
    hide OwnedSystem, Settled, Enabled, Next, Spares;
    if n > 0 {
      assert Moves(states[n - 1], steps[n - 1], states[n - 1 + 1], owner);
      SameSources(states[n - 1], steps[n - 1], owner, x);
      RunHolds(states, steps, owner, n - 1);
      NothingLostWithoutMisses(states, steps, owner, n - 1, x);
      LostOnlyByMiss(states[n - 1], steps[n - 1], owner, x);
    }
  }

  lemma SameSources(s: System, step: Step, owner: Owner, x: Source)
    requires Enabled(s, step, owner)
    ensures x in Next(s, step, owner).feeds <==> x in s.feeds
  {
  }

  // ---- exactly when the client is wrong ----

  /** The step drops a delta of u that mattered. */
  predicate Loses(s: System, step: Step, source: Source, u: Uid) {
    && step == BroadcastStep(source) && IsLive(s, source)
    && s.feeds[source].pending != [] && UidOf(s.feeds[source].pending[0]) == u
    && |s.feeds[source].phase.chan| >= CHANNEL_CAPACITY
    && !Harmless(s.feeds[source].pending[0], s.feeds[source].pending[1..], Shown(s, source, u))
  }

  /** The step brings the informer a delta of u. */
  predicate Refreshes(step: Step, source: Source, u: Uid) {
    step.WatchStep? && step.source == source && UidOf(step.delta) == u
  }

  lemma LostByStep(s: System, step: Step, owner: Owner, source: Source, u: Uid)
    requires Enabled(s, step, owner) && IsLive(s, source) && !step.DisconnectStep?
    ensures IsLive(Next(s, step, owner), source)
    ensures u in Next(s, step, owner).feeds[source].lost <==>
      (u in s.feeds[source].lost && !Refreshes(step, source, u)) || Loses(s, step, source, u)
  {
    hide Arriving, Harmless, Lists;
  }

  /** Is the client going to be wrong about u? */
  predicate Wrong(s: System, source: Source, u: Uid)
    requires IsLive(s, source)
  {
    Final(s, source, u) != At(s.feeds[source].store, u)
  }

  lemma WrongByStep(states: seq<System>, steps: seq<Step>, owner: Owner, n: nat, source: Source, u: Uid)
    requires IsRun(states, steps, owner) && n < |steps| && IsLive(states[n], source) && !steps[n].DisconnectStep?
    ensures IsLive(states[n + 1], source)
    ensures Wrong(states[n + 1], source, u) <==>
      (Wrong(states[n], source, u) && !Refreshes(steps[n], source, u)) || Loses(states[n], steps[n], source, u)
  {
    hide Enabled, Next, Final, Loses, Refreshes;
    assert Moves(states[n], steps[n], states[n + 1], owner);
    LostByStep(states[n], steps[n], owner, source, u);
    InFlightReachesStore(states, steps, owner, n, source, u);
    InFlightReachesStore(states, steps, owner, n + 1, source, u);
  }

  /**
   In every run, when a subscription's snapshot is queued, be it from the informer's store or from a separate list,
   and whatever was broadcast since it was taken: the client will be right about u if and only if the snapshot
   agrees by now with the informer's store about u, or some delta still to be broadcast touches u.
   */
  lemma SnapshotRightIff(states: seq<System>, steps: seq<Step>, owner: Owner, n: nat,
                         source: Source, list: seq<Item>, u: Uid)
    requires IsRun(states, steps, owner) && n < |steps| && steps[n] == EnqueueStep(source, list)
    ensures source in states[n].feeds && states[n].feeds[source].phase.Registered? && IsLive(states[n + 1], source)
    ensures var f := states[n].feeds[source];
      !Wrong(states[n + 1], source, u) <==> At(f.phase.snap, u) == At(f.store, u) || Touches(f.pending, u)
  {
    hide Lists, Touches, Final;
    assert Moves(states[n], steps[n], states[n + 1], owner);
    InFlightReachesStore(states, steps, owner, n + 1, source, u);
  }

  /**
   In every run, for a client that is right about u: a broadcast makes it wrong if and only if a full channel drops
   the delta, the delta changes what the client is going to show, and no later delta of u is pending.
   */
  lemma DropWrongIff(states: seq<System>, steps: seq<Step>, owner: Owner, n: nat, source: Source, u: Uid)
    requires IsRun(states, steps, owner) && n < |steps| && steps[n] == BroadcastStep(source)
    requires IsLive(states[n], source) && !Wrong(states[n], source, u)
    ensures IsLive(states[n + 1], source) && states[n].feeds[source].pending != []
    ensures var f := states[n].feeds[source];
      var d, rest, shown := f.pending[0], f.pending[1..], Shown(states[n], source, u);
      Wrong(states[n + 1], source, u) <==>
        UidOf(d) == u && |f.phase.chan| >= CHANNEL_CAPACITY && After(d, u, shown) != shown && !Touches(rest, u)
  {
    hide Final, Touches, Shown;
    assert Moves(states[n], steps[n], states[n + 1], owner);
    WrongByStep(states, steps, owner, n, source, u);
  }

  /** No connection ends between the states m and n. */
  predicate Connected(steps: seq<Step>, m: nat, n: nat)
    requires n <= |steps|
  {
    forall i :: m <= i < n ==> !steps[i].DisconnectStep?
  }

  /** From state m on, the informer sees no delta of u before state n. */
  predicate NoDelta(steps: seq<Step>, m: nat, n: nat, source: Source, u: Uid)
    requires n <= |steps|
  {
    forall i :: m <= i < n ==> !Refreshes(steps[i], source, u)
  }

  /**
   The whole history, in every run: while a connection lasts, the client is wrong about u if and only if it was wrong
   at the start, or some step has lost a delta of u since, and the informer has not seen a delta of u after that.
   */
  lemma {:induction false} WrongIff(states: seq<System>, steps: seq<Step>, owner: Owner, m: nat, n: nat,
                                    source: Source, u: Uid)
    requires IsRun(states, steps, owner) && m <= n <= |steps| && IsLive(states[m], source) && Connected(steps, m, n)
    ensures IsLive(states[n], source)
    ensures Wrong(states[n], source, u) <==>
      || (Wrong(states[m], source, u) && NoDelta(steps, m, n, source, u))
      || (exists k: nat :: m <= k < n && Loses(states[k], steps[k], source, u) && NoDelta(steps, k, n, source, u))
  {
    hide Enabled, Next, Wrong, Loses, Refreshes;
    if m < n {
      var p := n - 1;
      WrongIff(states, steps, owner, m, p, source, u);
      WrongByStep(states, steps, owner, p, source, u);
      assert NoDelta(steps, m, n, source, u) <==> NoDelta(steps, m, p, source, u) && !Refreshes(steps[p], source, u);
      LosesIsNoDelta(states[p], steps[p], source, u);
      assert Loses(states[p], steps[p], source, u) ==> NoDelta(steps, p, n, source, u);
      forall k: nat | m <= k < p
        ensures NoDelta(steps, k, n, source, u) <==>
          NoDelta(steps, k, p, source, u) && !Refreshes(steps[p], source, u)
      {
      }
    }
  }

  lemma LosesIsNoDelta(s: System, step: Step, source: Source, u: Uid)
    ensures Loses(s, step, source, u) ==> !Refreshes(step, source, u)
  {
  }

  /** So a client that is wrong stays wrong until the informer sees another delta of the object, and no longer. */
  lemma NextDeltaRepairs(states: seq<System>, steps: seq<Step>, owner: Owner, n: nat, source: Source, u: Uid)
    requires IsRun(states, steps, owner) && n < |steps| && IsLive(states[n], source)
    requires Refreshes(steps[n], source, u)
    ensures IsLive(states[n + 1], source) && !Wrong(states[n + 1], source, u)
  {
    hide Wrong;
    WrongByStep(states, steps, owner, n, source, u);
  }

  /** And a client that is right stays right until a delta of the object that matters is dropped. */
  lemma RightUntilLost(states: seq<System>, steps: seq<Step>, owner: Owner, m: nat, n: nat, source: Source, u: Uid)
    requires IsRun(states, steps, owner) && m <= n <= |steps| && IsLive(states[m], source) && Connected(steps, m, n)
    requires !Wrong(states[m], source, u)
    requires forall k :: m <= k < n ==> !Loses(states[k], steps[k], source, u)
    ensures IsLive(states[n], source) && !Wrong(states[n], source, u)
  {
    hide Wrong, Loses, NoDelta, Connected;
    WrongIff(states, steps, owner, m, n, source, u);
  }

  function OneFeed(source: Source, f: Feed): System {
    System(map[source := f], [], [], Copy(map[], map[]))
  }

  lemma ListsOne(v: Item)
    requires v.uid != ""
    ensures Lists([v], map[v.uid := v])
  {
    assert [v][..0] == [];
  }

  lemma GapFeeds(f0: Feed, v1: Item, v2: Item, shown: Option<Item>)
    requires f0 == Feed(if f0.synced then map[v1.uid := v1] else map[], [], Idle, {}, f0.synced)
    requires v1.uid == v2.uid != "" && v1 != v2
    ensures var f2 := Watch(GapRead(f0, v1), Update(v2));
      f2.pending != [] && f2.pending[0] == Update(v2)
      && Broadcast(f2, shown) == Feed(map[v1.uid := v2], [], HasSnapshot(map[v1.uid := v1], 0), {v1.uid}, f0.synced)
  {
    var f1 := GapRead(f0, v1);
    assert f1.phase == HasSnapshot(map[v1.uid := v1], 0);
    assert Watch(f1, Update(v2)).store == map[v1.uid := v2];
    if !f0.synced {
      assert Disputed(map[v1.uid := v1], map[]) == {v1.uid};
    }
  }

  lemma GapFinal(s: System, source: Source, v1: Item, v2: Item)
    requires IsLive(s, source) && s.out == [] && s.socket == [] && s.copy == Copy(map[], map[]) && v1.uid != ""
    requires s.feeds[source].phase == Live([Snapshot([v1])]) && s.feeds[source].pending == []
    ensures Final(s, source, v1.uid) == Some(v1)
  {
    assert FramesOf(s.socket + s.out, source) + [Snapshot([v1])] + [] == [Snapshot([v1])];
    assert [Snapshot([v1])][..0] == [] && [v1][..0] == [];
  }

  /** The first half of such a run: the snapshot is taken, the object changes, the change is broadcast. */
  lemma GapOpens(source: Source, owner: Owner, v1: Item, v2: Item, f0: Feed, f3: Feed)
    requires v1.uid == v2.uid != "" && v1 != v2 && owner(v1.uid) == source
    requires f0 == Feed(if f0.synced then map[v1.uid := v1] else map[], [], Idle, {}, f0.synced)
    requires f3 == Feed(map[v1.uid := v2], [], HasSnapshot(map[v1.uid := v1], 0), {v1.uid}, f0.synced)
    ensures Moves(OneFeed(source, f0), GapStep(source, f0, v1), OneFeed(source, GapRead(f0, v1)), owner)
    ensures var f2 := Watch(GapRead(f0, v1), Update(v2));
      && Moves(OneFeed(source, GapRead(f0, v1)), WatchStep(source, Update(v2)), OneFeed(source, f2), owner)
      && Moves(OneFeed(source, f2), BroadcastStep(source), OneFeed(source, f3), owner)
  {
    hide Broadcast, Listed, Shown;
    var f1 := GapRead(f0, v1);
    var f2 := Watch(f1, Update(v2));
    FeedMoves(source, owner, f0, f1, GapStep(source, f0, v1));
    FeedMoves(source, owner, f1, f2, WatchStep(source, Update(v2)));
    var shown := Shown(OneFeed(source, f2), source, v2.uid);
    GapFeeds(f0, v1, v2, shown);
    FeedMoves(source, owner, f2, f3, BroadcastStep(source));
  }

  function GapRead(f: Feed, v: Item): Feed {
    if f.synced then ReadSnapshot(f) else ListSnapshot(f, map[v.uid := v])
  }

  function GapStep(source: Source, f: Feed, v: Item): Step {
    if f.synced then ReadStep(source) else ListStep(source, map[v.uid := v])
  }

  /** The second half: the channel is registered and the snapshot queued. */
  lemma GapCloses(source: Source, owner: Owner, v1: Item, f3: Feed)
    requires f3.phase == HasSnapshot(map[v1.uid := v1], 0) && v1.uid != ""
    ensures Moves(OneFeed(source, f3), RegisterStep(source), OneFeed(source, Register(f3)), owner)
    ensures Moves(OneFeed(source, Register(f3)), EnqueueStep(source, [v1]),
                  OneFeed(source, Enqueue(Register(f3), [v1])), owner)
  {
    hide Lists;
    ListsOne(v1);
    FeedMoves(source, owner, f3, Register(f3), RegisterStep(source));
    FeedMoves(source, owner, Register(f3), Enqueue(Register(f3), [v1]), EnqueueStep(source, [v1]));
  }

  /**
   Such a run: an object changes, and the change is broadcast, between the reading of the snapshot and the
   registration of the channel. The snapshot may be the informer's own or a separate list.
   */
  lemma GapLosesDelta(source: Source, owner: Owner, v1: Item, v2: Item, synced: bool)
    requires v1.uid == v2.uid != "" && v1 != v2 && owner(v1.uid) == source
    ensures exists states: seq<System>, steps: seq<Step> ::
      IsRun(states, steps, owner) && |steps| == 5 && IsLive(states[5], source)
      && states[5].feeds[source].store == map[v1.uid := v2] && Final(states[5], source, v1.uid) == Some(v1)
  {
    hide Final, Lists, Broadcast, Watch, GapRead, GapStep, Moves;
    var f0 := Feed(if synced then map[v1.uid := v1] else map[], [], Idle, {}, synced);
    var f1 := GapRead(f0, v1);
    var f2 := Watch(f1, Update(v2));
    var f3 := Feed(map[v1.uid := v2], [], HasSnapshot(map[v1.uid := v1], 0), {v1.uid}, synced);
    var f4 := Register(f3);
    var f5 := Enqueue(f4, [v1]);
    GapOpens(source, owner, v1, v2, f0, f3);
    GapCloses(source, owner, v1, f3);
    OneFeedInitial(source, owner, f0);
    var steps := [GapStep(source, f0, v1), WatchStep(source, Update(v2)),
                  BroadcastStep(source), RegisterStep(source), EnqueueStep(source, [v1])];
    var states := [OneFeed(source, f0), OneFeed(source, f1), OneFeed(source, f2), OneFeed(source, f3),
                   OneFeed(source, f4), OneFeed(source, f5)];
    assert [] + [Snapshot([v1])] == [Snapshot([v1])];
    GapFinal(states[5], source, v1, v2);
    hide OneFeed, Initial;
    assert IsRun(states, steps, owner);
  }

  lemma OneFeedInitial(source: Source, owner: Owner, f: Feed)
    requires f == Feed(f.store, [], Idle, {}, f.synced) && ObjectsOwned(f.store, source, owner)
    ensures Initial(OneFeed(source, f), owner)
  {
  }

  lemma FeedMoves(source: Source, owner: Owner, f: Feed, g: Feed, step: Step)
    requires !step.PumpStep? && !step.WriteStep? && !step.DeliverStep? && !step.DisconnectStep? && step.source == source
    requires Enabled(OneFeed(source, f), step, owner)
    requires var shown := if step.BroadcastStep? then Shown(OneFeed(source, f), source, UidOf(f.pending[0])) else None;
      g == LocalNext(f, step, shown, source, owner)
    ensures Moves(OneFeed(source, f), step, OneFeed(source, g), owner)
  {
    hide Lists, Watch, ReadSnapshot, ListSnapshot, Broadcast, Register, Enqueue, Shown;
    assert map[source := f][source := g] == map[source := g];
  }

  // ---- a run to a full channel ----

  /** A live subscription whose channel holds its snapshot and k updates that nobody has taken. */
  function Filled(k: nat, v: Item): Feed {
    Feed(map[v.uid := v], [], Live([Snapshot([v])] + seq(k, _ => Update(v))), {}, true)
  }

  lemma RunSnoc(states: seq<System>, steps: seq<Step>, owner: Owner, step: Step, t: System)
    requires IsRun(states, steps, owner) && Moves(states[|steps|], step, t, owner)
    ensures IsRun(states + [t], steps + [step], owner)
  {
    hide Moves, Initial;
  }

  lemma FilledStart(source: Source, owner: Owner, v: Item) returns (states: seq<System>, steps: seq<Step>)
    requires v.uid != "" && owner(v.uid) == source
    ensures IsRun(states, steps, owner) && states[|steps|] == OneFeed(source, Filled(0, v))
  {
    hide Lists, Listed;
    var f0 := Feed(map[v.uid := v], [], Idle, {}, true);
    var f1 := ReadSnapshot(f0);
    ListsOne(v);
    OneFeedInitial(source, owner, f0);
    FeedMoves(source, owner, f0, f1, ReadStep(source));
    GapCloses(source, owner, v, f1);
    var f3 := Enqueue(Register(f1), [v]);
    assert f3.phase.chan == Filled(0, v).phase.chan && f3.lost == {};
    states := [OneFeed(source, f0), OneFeed(source, f1), OneFeed(source, Register(f1)), OneFeed(source, f3)];
    steps := [ReadStep(source), RegisterStep(source), EnqueueStep(source, [v])];
    hide Moves, OneFeed, Initial;
  }

  /** One more update that finds room in the channel. */
  lemma FillOne(source: Source, owner: Owner, v: Item, k: nat)
    requires v.uid != "" && owner(v.uid) == source && 1 + k < CHANNEL_CAPACITY
    ensures var f := Watch(Filled(k, v), Update(v));
      && Moves(OneFeed(source, Filled(k, v)), WatchStep(source, Update(v)), OneFeed(source, f), owner)
      && Moves(OneFeed(source, f), BroadcastStep(source), OneFeed(source, Filled(k + 1, v)), owner)
  {
    hide Shown;
    var f := Watch(Filled(k, v), Update(v));
    assert f == Filled(k, v).(pending := [Update(v)]);
    assert [Update(v)][1..] == [];
    assert Filled(k, v).phase.chan + [Update(v)] == Filled(k + 1, v).phase.chan;
    FeedMoves(source, owner, Filled(k, v), f, WatchStep(source, Update(v)));
    FeedMoves(source, owner, f, Filled(k + 1, v), BroadcastStep(source));
  }

  lemma {:induction false} FilledRun(source: Source, owner: Owner, v: Item, k: nat)
    returns (states: seq<System>, steps: seq<Step>)
    requires v.uid != "" && owner(v.uid) == source && k < CHANNEL_CAPACITY
    ensures IsRun(states, steps, owner) && states[|steps|] == OneFeed(source, Filled(k, v))
  {
    hide Moves, Initial, Filled, OneFeed, Watch;
    if k == 0 {
      states, steps := FilledStart(source, owner, v);
    } else {
      var before, taken := FilledRun(source, owner, v, k - 1);
      var f := OneFeed(source, Watch(Filled(k - 1, v), Update(v)));
      FillOne(source, owner, v, k - 1);
      RunSnoc(before, taken, owner, WatchStep(source, Update(v)), f);
      states, steps := before + [f], taken + [WatchStep(source, Update(v))];
      RunSnoc(states, steps, owner, BroadcastStep(source), OneFeed(source, Filled(k, v)));
      states, steps := states + [OneFeed(source, Filled(k, v))], steps + [BroadcastStep(source)];
    }
  }

  lemma {:induction false} FilledShows(v: Item, k: nat, before: Option<Item>)
    requires v.uid != ""
    ensures AfterAll(Filled(k, v).phase.chan, v.uid, before) == Some(v)
  {
    var chan := Filled(k, v).phase.chan;
    if k == 0 {
      assert chan == [Snapshot([v])] && chan[..0] == [] && [v][..0] == [];
    } else {
      assert chan[..k] == Filled(k - 1, v).phase.chan;
      FilledShows(v, k - 1, before);
    }
  }

  /** Such a run: the client takes nothing from the channel, and the first delta the full channel drops is lost. */
  lemma FullChannelLoses(source: Source, owner: Owner, v: Item, w: Item)
    returns (states: seq<System>, steps: seq<Step>)
    requires v.uid == w.uid != "" && v != w && owner(v.uid) == source
    ensures IsRun(states, steps, owner) && |steps| > 0 && IsLive(states[|steps|], source)
    ensures Loses(states[|steps| - 1], steps[|steps| - 1], source, v.uid) && Wrong(states[|steps|], source, v.uid)
  {
    hide Moves, Initial, Wrong, Filled, Shown, Loses;
    states, steps := FilledRun(source, owner, v, CHANNEL_CAPACITY - 1);
    var f := Filled(CHANNEL_CAPACITY - 1, v);
    var g := f.(store := map[v.uid := w], pending := [Update(w)]);
    var h := g.(pending := [], lost := {v.uid});
    DropMoves(source, owner, v, w, f, g, h);
    RunSnoc(states, steps, owner, WatchStep(source, Update(w)), OneFeed(source, g));
    states, steps := states + [OneFeed(source, g)], steps + [WatchStep(source, Update(w))];
    RunSnoc(states, steps, owner, BroadcastStep(source), OneFeed(source, h));
    states, steps := states + [OneFeed(source, h)], steps + [BroadcastStep(source)];
    IsWrong(states, steps, owner, source, v.uid);
  }

  lemma IsWrong(states: seq<System>, steps: seq<Step>, owner: Owner, source: Source, u: Uid)
    requires IsRun(states, steps, owner) && IsLive(states[|steps|], source)
    requires u in states[|steps|].feeds[source].lost
    ensures Wrong(states[|steps|], source, u)
  {
    hide Final;
    InFlightReachesStore(states, steps, owner, |steps|, source, u);
  }

  lemma DropMoves(source: Source, owner: Owner, v: Item, w: Item, f: Feed, g: Feed, h: Feed)
    requires v.uid == w.uid != "" && v != w && owner(v.uid) == source && f == Filled(CHANNEL_CAPACITY - 1, v)
    requires g == f.(store := map[v.uid := w], pending := [Update(w)]) && h == g.(pending := [], lost := {v.uid})
    ensures f.phase.Live?
    ensures Moves(OneFeed(source, f), WatchStep(source, Update(w)), OneFeed(source, g), owner)
    ensures Moves(OneFeed(source, g), BroadcastStep(source), OneFeed(source, h), owner)
    ensures Loses(OneFeed(source, g), BroadcastStep(source), source, v.uid)
  {
    hide Shown;
    assert Watch(f, Update(w)) == g;
    FeedMoves(source, owner, f, g, WatchStep(source, Update(w)));
    var shown := Shown(OneFeed(source, g), source, v.uid);
    ShownFilled(source, v, g);
    assert [Update(w)][1..] == [] && !Touches([], v.uid);
    assert After(Update(w), v.uid, shown) == Some(w);
    assert Broadcast(g, shown) == h;
    FeedMoves(source, owner, g, h, BroadcastStep(source));
  }

  lemma ShownFilled(source: Source, v: Item, g: Feed)
    requires v.uid != "" && g.phase == Filled(CHANNEL_CAPACITY - 1, v).phase
    ensures Shown(OneFeed(source, g), source, v.uid) == Some(v)
  {
    FilledShows(v, CHANNEL_CAPACITY - 1, Arriving(OneFeed(source, g), source, v.uid));
  }
}
