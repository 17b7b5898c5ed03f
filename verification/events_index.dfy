/**
 Warning badges (frontend/src/lib/eventsIndex.ts): the Warning events of a cluster, indexed by the uid of the object
 they involve and, as a fallback, by its kind, namespace and name.
 */
module EventsIndex {
  import opened Options
  import opened Sequences

  const ACTIVE_WINDOW_MS := 5 * 60 * 1000
  const SEVERE_WINDOW_MS := 30 * 60 * 1000
  const REBUILD_TTL_MS := 3_000

  /** A point in time an event may carry: a date that cannot be read is not a number of milliseconds. */
  datatype Time = Unreadable | Millis(ms: int)

  datatype Involved = Involved(uid: string, kind: string, namespace: string, name: string)

  /** An event of the cluster; the empty string stands for a missing text. */
  datatype Event = Event(
    eventType: string, lastTimestamp: Option<Time>, eventTime: Option<Time>, created: Option<Time>,
    reason: Option<string>, message: string, count: int, involved: Involved)

  datatype Warning = Warning(reason: string, message: string, count: int, lastSeen: int)

  datatype Row = Row(uid: string, kind: string, namespace: string, name: string)

  datatype Index = Index(byUid: map<string, seq<Warning>>, byKey: map<string, seq<Warning>>)

  predicate IsSevereReason(reason: string) {
    reason in {"CrashLoopBackOff", "OOMKilled", "Evicted", "FailedScheduling", "ImagePullBackOff", "ErrImagePull",
               "InvalidImageName", "FailedCreatePodSandBox", "FailedSync", "ProgressDeadlineExceeded"}
  }

  function Window(reason: string): int {
    if IsSevereReason(reason) then SEVERE_WINDOW_MS else ACTIVE_WINDOW_MS
  }

  /** The first timestamp present decides; an event without any counts as seen at time zero. */
  function LastSeen(ev: Event): Time {
    if ev.lastTimestamp.Some? then ev.lastTimestamp.value
    else if ev.eventTime.Some? then ev.eventTime.value
    else if ev.created.Some? then ev.created.value
    else Millis(0)
  }

  function Reason(ev: Event): string {
    if ev.reason.Some? then ev.reason.value else "Warning"
  }

  /** Does the event raise a badge at this time? */
  predicate Shows(ev: Event, now: int) {
    ev.eventType == "Warning" && LastSeen(ev).Millis? && now - LastSeen(ev).ms <= Window(Reason(ev))
  }

  function Summary(ev: Event): Warning
    requires LastSeen(ev).Millis?
  {
    Warning(Reason(ev), ev.message, ev.count, LastSeen(ev).ms)
  }

  function ObjectKey(kind: string, namespace: string, name: string): string {
    kind + "/" + namespace + "/" + name
  }

  predicate HasKey(o: Involved) {
    o.kind != "" && o.name != ""
  }

  // ---- the scan the index must agree with ----

  /** The warnings, in event order, of the shown events that involve the uid. */
  function ScanUid(events: seq<Event>, now: int, uid: string): seq<Warning> {
    if events == [] then []
    else
      var n := |events| - 1;
      ScanUid(events[..n], now, uid)
      + (if Shows(events[n], now) && events[n].involved.uid == uid then [Summary(events[n])] else [])
  }

  /** The warnings, in event order, of the shown events that involve an object with this kind, namespace and name. */
  function ScanName(events: seq<Event>, now: int, kind: string, namespace: string, name: string): seq<Warning> {
    if events == [] then []
    else
      var n := |events| - 1;
      var o := events[n].involved;
      ScanName(events[..n], now, kind, namespace, name)
      + (if Shows(events[n], now) && HasKey(o) && o.kind == kind && o.namespace == namespace && o.name == name
         then [Summary(events[n])] else [])
  }

  /** What a row must show: the events of its uid, or else those of its name. */
  function ScanFor(events: seq<Event>, now: int, row: Row): seq<Warning> {
    if row.uid != "" && ScanUid(events, now, row.uid) != [] then ScanUid(events, now, row.uid)
    else if row.kind != "" && row.name != "" then ScanName(events, now, row.kind, row.namespace, row.name)
    else []
  }

  // ---- the index ----

  function At(m: map<string, seq<Warning>>, k: string): seq<Warning> {
    if k in m then m[k] else []
  }

  /** `eventsForItem`; the row's kind is the item's own or the last part of the resource name. */
  function EventsForItem(idx: Index, row: Row): seq<Warning> {
    if row.uid != "" && row.uid in idx.byUid && idx.byUid[row.uid] != [] then idx.byUid[row.uid]
    else if row.kind != "" && row.name != "" then At(idx.byKey, ObjectKey(row.kind, row.namespace, row.name))
    else []
  }

  predicate Plain(s: string) {
    '/' !in s
  }

  /** Kinds and namespaces contain no slash; names may. */
  predicate PlainObject(o: Involved) {
    Plain(o.kind) && Plain(o.namespace)
  }

  predicate PlainRow(row: Row) {
    Plain(row.kind) && Plain(row.namespace)
  }

  function FirstSlash(s: string): (i: nat)
    ensures i <= |s|
  {
    if s == "" || s[0] == '/' then 0 else 1 + FirstSlash(s[1..])
  }

  lemma {:induction false} FirstSlashAfter(a: string, rest: string)
    requires Plain(a)
    ensures FirstSlash(a + "/" + rest) == |a|
  {
    if a != "" {
      assert (a + "/" + rest)[1..] == a[1..] + "/" + rest;
      FirstSlashAfter(a[1..], rest);
    }
  }

  lemma FirstPartIsUnique(a: string, rest1: string, b: string, rest2: string)
    requires Plain(a) && Plain(b) && a + "/" + rest1 == b + "/" + rest2
    ensures a == b && rest1 == rest2
  {
    var s := a + "/" + rest1;
    FirstSlashAfter(a, rest1);
    FirstSlashAfter(b, rest2);
    assert s[..|a|] == a && s[..|a|] == b && s[|a| + 1..] == rest1 && s[|a| + 1..] == rest2;
  }

  lemma ObjectKeyIsInjective(kind1: string, ns1: string, name1: string, kind2: string, ns2: string, name2: string)
    requires Plain(kind1) && Plain(ns1) && Plain(kind2) && Plain(ns2)
    ensures ObjectKey(kind1, ns1, name1) == ObjectKey(kind2, ns2, name2)
      <==> kind1 == kind2 && ns1 == ns2 && name1 == name2
  {
    if ObjectKey(kind1, ns1, name1) == ObjectKey(kind2, ns2, name2) {
      assert ObjectKey(kind1, ns1, name1) == kind1 + "/" + (ns1 + "/" + name1);
      assert ObjectKey(kind2, ns2, name2) == kind2 + "/" + (ns2 + "/" + name2);
      FirstPartIsUnique(kind1, ns1 + "/" + name1, kind2, ns2 + "/" + name2);
      FirstPartIsUnique(ns1, name1, ns2, name2);
    }
  }

  /** The warnings, in event order, filed under one key of the fallback map. */
  function Filed(events: seq<Event>, now: int, key: string): seq<Warning> {
    if events == [] then []
    else
      var n := |events| - 1;
      var o := events[n].involved;
      Filed(events[..n], now, key)
      + (if Shows(events[n], now) && HasKey(o) && ObjectKey(o.kind, o.namespace, o.name) == key
         then [Summary(events[n])] else [])
  }

  ghost predicate UidIndex(m: map<string, seq<Warning>>, events: seq<Event>, now: int) {
    "" !in m && forall u :: u != "" ==> At(m, u) == ScanUid(events, now, u)
  }

  ghost predicate KeyIndex(m: map<string, seq<Warning>>, events: seq<Event>, now: int) {
    forall k :: At(m, k) == Filed(events, now, k)
  }

  ghost predicate Indexes(idx: Index, events: seq<Event>, now: int) {
    UidIndex(idx.byUid, events, now) && KeyIndex(idx.byKey, events, now)
  }

  function Push(m: map<string, seq<Warning>>, k: string, w: Warning): map<string, seq<Warning>> {
    m[k := At(m, k) + [w]]
  }

  lemma UidStep(m: map<string, seq<Warning>>, events: seq<Event>, ev: Event, now: int)
    requires UidIndex(m, events, now)
    ensures UidIndex(if Shows(ev, now) && ev.involved.uid != "" then Push(m, ev.involved.uid, Summary(ev)) else m,
                     events + [ev], now)
  {
    assert (events + [ev])[..|events|] == events;
    forall u | u != ""
      ensures ScanUid(events + [ev], now, u) ==
        if Shows(ev, now) && ev.involved.uid == u then ScanUid(events, now, u) + [Summary(ev)]
        else ScanUid(events, now, u)
    {
    }
  }

  lemma KeyStep(m: map<string, seq<Warning>>, events: seq<Event>, ev: Event, now: int)
    requires KeyIndex(m, events, now)
    ensures var o := ev.involved;
      KeyIndex(if Shows(ev, now) && HasKey(o) then Push(m, ObjectKey(o.kind, o.namespace, o.name), Summary(ev)) else m,
               events + [ev], now)
  {
    assert (events + [ev])[..|events|] == events;
    var o := ev.involved;
    forall k
      ensures Filed(events + [ev], now, k) ==
        if Shows(ev, now) && HasKey(o) && ObjectKey(o.kind, o.namespace, o.name) == k
        then Filed(events, now, k) + [Summary(ev)] else Filed(events, now, k)
    {
    }
  }

  method BuildIndex(events: seq<Event>, now: int) returns (idx: Index)
    ensures Indexes(idx, events, now)
  {
    hide ScanUid, Filed, UidIndex, KeyIndex;
    idx := Index(map[], map[]);
    NothingIndexed(now);
    for i := 0 to |events|
      invariant Indexes(idx, events[..i], now)
    {
      assert events[..i + 1] == events[..i] + [events[i]];
      var ev := events[i];
      UidStep(idx.byUid, events[..i], ev, now);
      KeyStep(idx.byKey, events[..i], ev, now);
      if Shows(ev, now) {
        var o, summary := ev.involved, Summary(ev);
        if o.uid != "" {
          idx := idx.(byUid := Push(idx.byUid, o.uid, summary));
        }
        if HasKey(o) {
          idx := idx.(byKey := Push(idx.byKey, ObjectKey(o.kind, o.namespace, o.name), summary));
        }
      }
    }
    assert events[..|events|] == events;
  }

  lemma NothingIndexed(now: int)
    ensures Indexes(Index(map[], map[]), [], now)
  {
  }

  lemma {:induction false} FiledIsScan(events: seq<Event>, now: int, kind: string, namespace: string, name: string)
    requires Plain(kind) && Plain(namespace) && forall i :: 0 <= i < |events| ==> PlainObject(events[i].involved)
    ensures Filed(events, now, ObjectKey(kind, namespace, name)) == ScanName(events, now, kind, namespace, name)
  {
    if events != [] {
      var n := |events| - 1;
      var o := events[n].involved;
      FiledIsScan(events[..n], now, kind, namespace, name);
      ObjectKeyIsInjective(o.kind, o.namespace, o.name, kind, namespace, name);
    }
  }

  /** Looking a row up in a fresh index gives the same warnings, in the same order, as scanning all events. */
  lemma IndexEqualsScan(idx: Index, events: seq<Event>, now: int, row: Row)
    requires Indexes(idx, events, now) && PlainRow(row)
    requires forall i :: 0 <= i < |events| ==> PlainObject(events[i].involved)
    ensures EventsForItem(idx, row) == ScanFor(events, now, row)
  {
    FiledIsScan(events, now, row.kind, row.namespace, row.name);
    if row.uid != "" {
      assert At(idx.byUid, row.uid) == ScanUid(events, now, row.uid);
    }
  }

  // ---- which warnings a row shows ----

  /** The first of the three timestamps that is present is this time; without any it is time zero. */
  predicate SeenAt(ev: Event, ms: int) {
    match (ev.lastTimestamp, ev.eventTime, ev.created)
    case (Some(t), _, _) => t == Millis(ms)
    case (None, Some(t), _) => t == Millis(ms)
    case (None, None, Some(t)) => t == Millis(ms)
    case (None, None, None) => ms == 0
  }

  /** Minutes for which an event counts: thirty for the ten severe reasons, five for all others. */
  function Minutes(ev: Event): int {
    if ev.reason in {Some("CrashLoopBackOff"), Some("OOMKilled"), Some("Evicted"), Some("FailedScheduling"),
                     Some("ImagePullBackOff"), Some("ErrImagePull"), Some("InvalidImageName"),
                     Some("FailedCreatePodSandBox"), Some("FailedSync"), Some("ProgressDeadlineExceeded")}
    then 30 else 5
  }

  /** A warning that was seen, at a time that can be read, no longer ago than it counts. */
  ghost predicate IsCurrent(ev: Event, now: int) {
    ev.eventType == "Warning" && exists ms :: SeenAt(ev, ms) && now - ms <= Minutes(ev) * 60_000
  }

  predicate IsNamed(ev: Event, row: Row) {
    && row.kind != "" && row.name != ""
    && ev.involved.kind == row.kind && ev.involved.namespace == row.namespace && ev.involved.name == row.name
  }

  /** The row's uid decides if any current warning bears it, or else its kind, namespace and name. */
  ghost predicate Concerns(events: seq<Event>, now: int, row: Row, ev: Event) {
    IsCurrent(ev, now) &&
    if row.uid != "" && exists e :: e in events && IsCurrent(e, now) && e.involved.uid == row.uid
    then ev.involved.uid == row.uid
    else IsNamed(ev, row)
  }

  /** The warning tells of the event. */
  predicate Tells(w: Warning, ev: Event) {
    && w.message == ev.message && w.count == ev.count && SeenAt(ev, w.lastSeen)
    && w.reason == match ev.reason { case Some(r) => r case None => "Warning" }
  }

  ghost predicate AllTell(ws: seq<Warning>, events: seq<Event>) {
    |ws| == |events| && forall i :: 0 <= i < |ws| ==> Tells(ws[i], events[i])
  }

  lemma ShowsIff(ev: Event, now: int)
    ensures Shows(ev, now) <==> IsCurrent(ev, now)
    ensures Shows(ev, now) ==> Tells(Summary(ev), ev)
  {
    assert Window(Reason(ev)) == Minutes(ev) * 60_000;
    if Shows(ev, now) {
      assert SeenAt(ev, LastSeen(ev).ms);
    }
  }

  lemma {:induction false} ScanUidTells(events: seq<Event>, now: int, uid: string, keep: Event -> bool)
    requires forall ev :: keep(ev) <==> IsCurrent(ev, now) && ev.involved.uid == uid
    ensures AllTell(ScanUid(events, now, uid), Kept(events, keep))
  {
    hide IsCurrent, Shows, Tells;
    if events != [] {
      var n := |events| - 1;
      ScanUidTells(events[..n], now, uid, keep);
      ShowsIff(events[n], now);
    }
  }

  lemma {:induction false} ScanNameTells(events: seq<Event>, now: int, row: Row, keep: Event -> bool)
    requires row.kind != "" && row.name != ""
    requires forall ev :: keep(ev) <==> IsCurrent(ev, now) && IsNamed(ev, row)
    ensures AllTell(ScanName(events, now, row.kind, row.namespace, row.name), Kept(events, keep))
  {
    hide IsCurrent, Shows, Tells;
    if events != [] {
      var n := |events| - 1;
      ScanNameTells(events[..n], now, row, keep);
      ShowsIff(events[n], now);
    }
  }

  lemma NothingKept(events: seq<Event>, keep: Event -> bool)
    ensures Kept(events, keep) == [] <==> forall e :: e in events ==> !keep(e)
  {
    if e :| e in events && keep(e) {
      assert e in Kept(events, keep);
    }
    if Kept(events, keep) != [] {
      assert Kept(events, keep)[0] in Kept(events, keep);
    }
  }

  /**
   What a lookup in an index built now finds: in event order, one warning for each current event of the row's uid, or,
   if there is none, for each current event of its kind, namespace and name.
   */
  lemma WarningsOfRow(idx: Index, events: seq<Event>, now: int, row: Row) returns (picks: seq<nat>)
    requires Indexes(idx, events, now) && PlainRow(row)
    requires forall i :: 0 <= i < |events| ==> PlainObject(events[i].involved)
    ensures Picks(events, ev => Concerns(events, now, row, ev), picks) && |EventsForItem(idx, row)| == |picks|
    ensures forall i :: 0 <= i < |picks| ==>
      picks[i] < |events| && Tells(EventsForItem(idx, row)[i], events[picks[i]])
  {
    ScanForTells(events, now, row);
    IndexEqualsScan(idx, events, now, row);
    hide Indexes, EventsForItem, ScanFor, Tells, Concerns, Picks, Kept;
    picks := KeptAt(events, ev => Concerns(events, now, row, ev));
  }

  lemma ScanForTells(events: seq<Event>, now: int, row: Row)
    ensures AllTell(ScanFor(events, now, row), Kept(events, ev => Concerns(events, now, row, ev)))
  {
    hide IsCurrent, ScanUid, ScanName, Tells;
    var keep := (ev: Event) => Concerns(events, now, row, ev);
    var ofUid := (ev: Event) => IsCurrent(ev, now) && ev.involved.uid == row.uid;
    ScanUidTells(events, now, row.uid, ofUid);
    NothingKept(events, ofUid);
    if row.uid != "" && ScanUid(events, now, row.uid) != [] {
      ScanUidTells(events, now, row.uid, keep);
    } else if row.kind != "" && row.name != "" {
      ScanNameTells(events, now, row, keep);
    } else {
      NothingKept(events, keep);
    }
  }

  // ---- the cache and the memo in front of it ----

  /** What every list of events that was ever handed out contains; lists are told apart by reference. */
  type Lists = nat -> seq<Event>

  datatype Built = Built(ref: nat, at: int, idx: Index)

  /** The result of the last computation, with what it depends on. */
  datatype Memo = Memo(ref: nat, enabled: bool, tick: nat, builtAt: int, idx: Index)

  /** The hook: its inputs, its cache and its memo. `ticked` is when the interval last fired or was set up. */
  datatype Hook = Hook(enabled: bool, ref: nat, tick: nat, cache: Option<Built>, memo: Option<Memo>, ticked: int)

  const EMPTY_INDEX := Index(map[], map[])

  predicate Memoised(h: Hook) {
    h.memo.Some? && h.memo.value.ref == h.ref && h.memo.value.enabled == h.enabled && h.memo.value.tick == h.tick
  }

  /** The memoised function: nothing, the cached index, or a new one. */
  ghost predicate Computes(lists: Lists, h: Hook, now: int, m: Memo, cache: Option<Built>) {
    && m.ref == h.ref && m.enabled == h.enabled && m.tick == h.tick
    && if !h.enabled || lists(h.ref) == [] then m.idx == EMPTY_INDEX && m.builtAt == now && cache == h.cache
       else if h.cache.Some? && h.cache.value.ref == h.ref && now - h.cache.value.at < REBUILD_TTL_MS then
         m.idx == h.cache.value.idx && m.builtAt == h.cache.value.at && cache == h.cache
       else Indexes(m.idx, lists(h.ref), now) && m.builtAt == now && cache == Some(Built(h.ref, now, m.idx))
  }

  ghost predicate Renders(lists: Lists, h: Hook, now: int, r: Hook) {
    if Memoised(h) then r == h
    else
      && r.memo.Some? && r == h.(memo := r.memo, cache := r.cache)
      && Computes(lists, h, now, r.memo.value, r.cache)
  }

  /** What makes the hook render again. */
  datatype Cause = Ticks | NewItems(ref: nat) | Toggled(enabled: bool) | OtherRender

  function Caused(h: Hook, cause: Cause, now: int): Hook {
    match cause
    case Ticks => h.(tick := h.tick + 1, ticked := now)
    case NewItems(ref) => h.(ref := ref)
    case Toggled(enabled) => if enabled == h.enabled then h else h.(enabled := enabled, ticked := now)
    case OtherRender => h
  }

  /** The interval fires while the hook is enabled, at most `late` milliseconds late. */
  predicate Timely(h: Hook, cause: Cause, now: int, late: nat) {
    (cause.Ticks? ==> h.enabled) && (h.enabled ==> now <= h.ticked + REBUILD_TTL_MS + late)
  }

  ghost predicate Moves(lists: Lists, h: Hook, before: int, cause: Cause, now: int, late: nat, r: Hook) {
    before <= now && Timely(h, cause, now, late) && Renders(lists, Caused(h, cause, now), now, r)
  }

  /** Renders from the mounting of the hook on; `times[i]` is when state i was rendered. */
  ghost predicate IsRun(lists: Lists, late: nat, states: seq<Hook>, causes: seq<Cause>, times: seq<int>) {
    && |states| == |times| == |causes| + 1
    && (exists enabled, ref :: Renders(lists, Hook(enabled, ref, 0, None, None, times[0]), times[0], states[0]))
    && forall i :: 0 <= i < |causes| ==>
         Moves(lists, states[i], times[i], causes[i], times[i + 1], late, states[i + 1])
  }

  /** The index on display was built for the list on display, less than the rebuild interval before the last tick. */
  ghost predicate Displays(lists: Lists, h: Hook, now: int) {
    && Memoised(h) && h.ticked <= now
    && (h.cache.Some? ==>
          Indexes(h.cache.value.idx, lists(h.cache.value.ref), h.cache.value.at) && h.cache.value.at <= now)
    && (if !h.enabled || lists(h.ref) == [] then h.memo.value.idx == EMPTY_INDEX
        else Indexes(h.memo.value.idx, lists(h.ref), h.memo.value.builtAt)
             && h.ticked - REBUILD_TTL_MS < h.memo.value.builtAt <= now)
  }

  lemma RenderDisplays(lists: Lists, h: Hook, now: int, r: Hook)
    requires !Memoised(h) && Renders(lists, h, now, r) && h.ticked <= now
    requires h.cache.Some? ==>
      Indexes(h.cache.value.idx, lists(h.cache.value.ref), h.cache.value.at) && h.cache.value.at <= now
    ensures Displays(lists, r, now)
  {
    hide Indexes;
  }

  lemma StepDisplays(lists: Lists, h: Hook, before: int, cause: Cause, now: int, late: nat, r: Hook)
    requires Displays(lists, h, before) && Moves(lists, h, before, cause, now, late, r)
    ensures Displays(lists, r, now)
    ensures h.enabled && r.enabled ==> now <= r.ticked + REBUILD_TTL_MS + late
  {
    hide Indexes;
    var c := Caused(h, cause, now);
    if !Memoised(c) {
      RenderDisplays(lists, c, now, r);
    }
  }

  lemma {:induction false} RunDisplays(lists: Lists, late: nat, states: seq<Hook>,
                                       causes: seq<Cause>, times: seq<int>, n: nat)
    requires IsRun(lists, late, states, causes, times) && n <= |causes|
    ensures Displays(lists, states[n], times[n])
    ensures states[n].enabled ==> times[n] <= states[n].ticked + REBUILD_TTL_MS + late
  {
    hide Moves, Displays, Renders;
    if n == 0 {
      var enabled, ref :| Renders(lists, Hook(enabled, ref, 0, None, None, times[0]), times[0], states[0]);
      FirstDisplays(lists, Hook(enabled, ref, 0, None, None, times[0]), times[0], states[0]);
    } else {
      RunDisplays(lists, late, states, causes, times, n - 1);
      var i := n - 1;
      assert Moves(lists, states[i], times[i], causes[i], times[i + 1], late, states[i + 1]);
      StepDisplays(lists, states[i], times[i], causes[i], times[n], late, states[n]);
      EnabledSince(lists, states[i], times[i], causes[i], times[n], late, states[n]);
    }
  }

  lemma FirstDisplays(lists: Lists, h: Hook, now: int, r: Hook)
    requires h.memo.None? && h.cache.None? && h.ticked == now && Renders(lists, h, now, r)
    ensures Displays(lists, r, now) && r.ticked == now
  {
    RenderDisplays(lists, h, now, r);
  }

  lemma EnabledSince(lists: Lists, h: Hook, before: int, cause: Cause, now: int, late: nat, r: Hook)
    requires Moves(lists, h, before, cause, now, late, r)
    ensures !h.enabled && r.enabled ==> r.ticked == now
  {
    hide Computes;
  }

  lemma {:induction false} ScannedIsRecent(events: seq<Event>, at: int, uid: string, i: nat)
    requires i < |ScanUid(events, at, uid)|
    ensures var w := ScanUid(events, at, uid)[i]; at - w.lastSeen <= Window(w.reason)
  {
    var n := |events| - 1;
    if i < |ScanUid(events[..n], at, uid)| {
      ScannedIsRecent(events[..n], at, uid, i);
    }
  }

  lemma {:induction false} FiledIsRecent(events: seq<Event>, at: int, key: string, i: nat)
    requires i < |Filed(events, at, key)|
    ensures var w := Filed(events, at, key)[i]; at - w.lastSeen <= Window(w.reason)
  {
    var n := |events| - 1;
    if i < |Filed(events[..n], at, key)| {
      FiledIsRecent(events[..n], at, key, i);
    }
  }

  /** A warning a lookup finds, by uid or by name, was within its window when the index was built. */
  lemma FoundIsRecent(idx: Index, events: seq<Event>, at: int, row: Row, i: nat)
    requires Indexes(idx, events, at) && i < |EventsForItem(idx, row)|
    ensures events != []
    ensures var w := EventsForItem(idx, row)[i]; at - w.lastSeen <= Window(w.reason)
  {
    hide Window;
    if row.uid != "" && row.uid in idx.byUid && idx.byUid[row.uid] != [] {
      assert At(idx.byUid, row.uid) == ScanUid(events, at, row.uid);
      ScannedIsRecent(events, at, row.uid, i);
    } else {
      var key := ObjectKey(row.kind, row.namespace, row.name);
      assert At(idx.byKey, key) == Filed(events, at, key);
      FiledIsRecent(events, at, key, i);
    }
  }

  /**
   In every run in which the interval fires at most `late` milliseconds late, the index on display is one built for
   the events on display less than twice the rebuild interval and `late` ago: a tick may find the cache young enough
   to keep, and the memo then holds it until the next tick. No badge, whether it was found by uid or by name,
   outlives its window by more than that.
   */
  lemma BadgeOutlivesWindowByLess(lists: Lists, late: nat, states: seq<Hook>,
                                  causes: seq<Cause>, times: seq<int>, n: nat,
                                  row: Row, i: nat)
    requires IsRun(lists, late, states, causes, times) && n <= |causes|
    requires states[n].memo.Some? && i < |EventsForItem(states[n].memo.value.idx, row)|
    ensures Indexes(states[n].memo.value.idx, lists(states[n].ref), states[n].memo.value.builtAt)
    ensures times[n] - 6_000 - late < states[n].memo.value.builtAt <= times[n]
    ensures var w := EventsForItem(states[n].memo.value.idx, row)[i];
      times[n] - w.lastSeen < Window(w.reason) + 6_000 + late
  {
    hide Moves, Renders, Window, ScanUid, Indexes;
    RunDisplays(lists, late, states, causes, times, n);
    var h := states[n];
    assert h.memo.value.idx != EMPTY_INDEX && h.enabled && lists(h.ref) != [];
    FoundIsRecent(h.memo.value.idx, lists(h.ref), h.memo.value.builtAt, row, i);
  }

  /**
   The bound is reached: events arrive one millisecond after the hook was mounted, the first tick keeps their index,
   and just before the second tick it is still on display, one millisecond short of six seconds old.
   */
  lemma OlderThanInterval(lists: Lists, idx: Index)
    requires lists(0) == [] && lists(1) != [] && Indexes(idx, lists(1), 1)
    ensures exists states: seq<Hook>, causes: seq<Cause>, times: seq<int> ::
      IsRun(lists, 0, states, causes, times) && |causes| == 3
      && states[3].memo.Some? && times[3] - states[3].memo.value.builtAt == 5_999
      && states[3].memo.value.idx == idx
  {
    hide Indexes;
    var m0, m1, m2 := Memo(0, true, 0, 0, EMPTY_INDEX), Memo(1, true, 0, 1, idx), Memo(1, true, 1, 1, idx);
    var built := Some(Built(1, 1, idx));
    var h0 := Hook(true, 0, 0, None, Some(m0), 0);
    var h1 := Hook(true, 1, 0, built, Some(m1), 0);
    var h2 := Hook(true, 1, 1, built, Some(m2), 3_000);
    var states, causes, times := [h0, h1, h2, h2], [NewItems(1), Ticks, OtherRender], [0, 1, 3_000, 6_000];
    assert Renders(lists, Hook(true, 0, 0, None, None, 0), 0, h0);
    assert Moves(lists, h0, 0, NewItems(1), 1, 0, h1);
    assert Moves(lists, h1, 1, Ticks, 3_000, 0, h2);
    assert Moves(lists, h2, 3_000, OtherRender, 6_000, 0, h2);
    assert IsRun(lists, 0, states, causes, times) by {
      hide Moves, Renders;
      assert Renders(lists, Hook(true, 0, 0, None, None, times[0]), times[0], states[0]);
      forall i | 0 <= i < |causes|
        ensures Moves(lists, states[i], times[i], causes[i], times[i + 1], 0, states[i + 1])
      {
        assert i == 0 || i == 1 || i == 2;
      }
    }
  }

  // ---- the hook as the source has it ----

  class EventIndexHook {
    ghost const lists: Lists
    var enabled: bool
    var ref: nat
    var tick: nat
    var cache: Option<Built>
    var memo: Option<Memo>
    var ticked: int

    function Contents(): Hook
      reads this
    {
      Hook(enabled, ref, tick, cache, memo, ticked)
    }

    constructor (lists: Lists, enabled: bool, ref: nat, now: int)
      ensures this.lists == lists && Contents() == Hook(enabled, ref, 0, None, None, now)
    {
      this.lists, this.enabled, this.ref, this.ticked := lists, enabled, ref, now;
      tick, cache, memo := 0, None, None;
    }

    /** One evaluation of the hook: the memo if nothing it depends on changed, else the cache or a new index. */
    method Render(events: seq<Event>, now: int) returns (idx: Index)
      requires events == lists(ref)
      modifies this`cache, this`memo
      ensures Renders(lists, old(Contents()), now, Contents()) && memo.Some? && idx == memo.value.idx
    {
      hide Indexes;
      if memo.Some? && memo.value.ref == ref && memo.value.enabled == enabled && memo.value.tick == tick {
        return memo.value.idx;
      }
      var builtAt := now;
      if !enabled || events == [] {
        idx := EMPTY_INDEX;
      } else if cache.Some? && cache.value.ref == ref && now - cache.value.at < REBUILD_TTL_MS {
        idx, builtAt := cache.value.idx, cache.value.at;
      } else {
        idx := BuildIndex(events, now);
        cache := Some(Built(ref, now, idx));
      }
      memo := Some(Memo(ref, enabled, tick, builtAt, idx));
    }

    /** The interval fires: the index on display is less than the rebuild interval old. */
    method OnTick(events: seq<Event>, ghost before: int, now: int) returns (idx: Index)
      requires events == lists(ref) && Displays(lists, Contents(), before) && before <= now
      modifies this`tick, this`ticked, this`cache, this`memo
      ensures Renders(lists, Caused(old(Contents()), Ticks, now), now, Contents())
      ensures Displays(lists, Contents(), now) && idx == memo.value.idx
      ensures enabled && events != [] ==> now - 3_000 < memo.value.builtAt <= now
    {
      hide Renders, Indexes;
      tick, ticked := tick + 1, now;
      ghost var due := Contents();
      idx := Render(events, now);
      RenderDisplays(lists, due, now, Contents());
    }
  }
}
