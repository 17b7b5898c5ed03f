/**
 Client and server agree on who is subscribed (frontend/src/lib/stream.ts, internal/api/stream.go): the client's
 `active` map, the messages on the way to the server, the server's table of streams, and the frames on the way back.
 */
module Reconciliation {
  import opened Options
  import opened Sequences
  import opened ClusterStreams

  /**
   `registry` remembers what every sid ever handed out stands for. `processed` are the sids whose subscribe message
   the server has handled on this connection, `rejected` those it could not serve. `serving` are the streams it
   has opened on this connection, those included that have left the table and whose frames still drain.
   */
  datatype System = System(
    client: Client,
    registry: map<Sid, Target>,
    toServer: seq<ClientMsg>,
    table: map<Sid, Target>,
    serving: map<Sid, Target>,
    processed: seq<Sid>,
    rejected: set<Sid>,
    frames: seq<(Sid, Target)>)

  function At(m: map<Sid, Target>, sid: Sid): Option<Target> {
    if sid in m then Some(m[sid]) else None
  }

  /** What the server's table will say about a sid once it has handled the messages. */
  function Expected(msgs: seq<ClientMsg>, sid: Sid, before: Option<Target>): Option<Target> {
    if msgs == [] then before
    else
      var n := |msgs| - 1;
      match msgs[n]
      case SubscribeMsg(x, target) => if x == sid then Some(target) else Expected(msgs[..n], sid, before)
      case UnsubscribeMsg(x) => if x == sid then None else Expected(msgs[..n], sid, before)
  }

  lemma ExpectedSnoc(msgs: seq<ClientMsg>, m: ClientMsg, sid: Sid, before: Option<Target>)
    ensures Expected(msgs + [m], sid, before) ==
      if m.sid != sid then Expected(msgs, sid, before) else if m.SubscribeMsg? then Some(m.target) else None
  {
    assert (msgs + [m])[..|msgs|] == msgs;
  }

  lemma {:induction false} ExpectedCons(m: ClientMsg, msgs: seq<ClientMsg>, sid: Sid, before: Option<Target>)
    ensures Expected([m] + msgs, sid, before) == Expected(msgs, sid, Expected([m], sid, before))
  {
    if msgs == [] {
      assert [m] + msgs == [m];
    } else {
      var n := |msgs| - 1;
      assert ([m] + msgs)[..n + 1] == [m] + msgs[..n];
      ExpectedCons(m, msgs[..n], sid, before);
    }
  }

  /** A sid that no later message subscribes again stays out of the table if it is out. */
  lemma {:induction false} NotSubscribedAgain(msgs: seq<ClientMsg>, sid: Sid)
    requires sid !in SubSids(msgs)
    ensures Expected(msgs, sid, None) == None
  {
    if msgs != [] {
      NotSubscribedAgain(msgs[..|msgs| - 1], sid);
    }
  }

  lemma {:induction false} SubSidsCons(m: ClientMsg, msgs: seq<ClientMsg>)
    ensures SubSids([m] + msgs) == (if m.SubscribeMsg? then [m.sid] else []) + SubSids(msgs)
  {
    if msgs == [] {
      assert [m] + msgs == [m] && [m][..0] == [];
      assert SubSids([m]) == [] + (if m.SubscribeMsg? then [m.sid] else []);
    } else {
      var n := |msgs| - 1;
      assert ([m] + msgs)[..n + 1] == [m] + msgs[..n];
      SubSidsCons(m, msgs[..n]);
    }
  }

  // ---- steps ----

  datatype Step =
    | ClientStep(event: Event)
    | OpenStep(socket: nat, resent: seq<ClientMsg>)
    | ProcessStep(accepted: bool, told: bool)
    | EmitStep(sid: Sid)
    | DeliverStep

  ghost predicate Enabled(s: System, step: Step) {
    match step
    case ClientStep(e) => !e.Opens? && ClusterStreams.Enabled(s.client, e)
    case OpenStep(socket, resent) => ClusterStreams.Enabled(s.client, Opens(socket)) && Resends(resent, s.client.active)
    case ProcessStep(_, _) => s.toServer != []
    case EmitStep(sid) => sid in s.serving
    case DeliverStep => s.frames != []
  }

  /** Everything that belonged to a connection goes with it. */
  function Disconnected(s: System): System {
    s.(toServer := [], table := map[], serving := map[], processed := [], rejected := {}, frames := [])
  }

  /** The messages a client event puts on the wire. */
  function Sent(c: Client, e: Event): seq<ClientMsg> {
    match e
    case Subscribes(target) => if !c.dead && c.isOpen then [SubscribeMsg(c.nextSid, target)] else []
    case Unsubscribes(sid) => if c.isOpen then [UnsubscribeMsg(sid)] else []
    case _ => []
  }

  function ClientNext(s: System, e: Event): System
    requires ClusterStreams.Enabled(s.client, e)
  {
    var t := if e.Closes? then Disconnected(s) else s;
    t.(client := ClusterStreams.Step(s.client, e),
       registry := if e.Subscribes? then s.registry[s.client.nextSid := e.target] else s.registry,
       toServer := t.toServer + Sent(s.client, e))
  }

  /**
   The server handles one message. A subscription it cannot resolve or start is answered with an error frame, which
   is given up (`told` is false) when the connection's queue stays full.
   */
  function Process(s: System, accepted: bool, told: bool): System
    requires s.toServer != []
  {
    var rest := s.toServer[1..];
    match s.toServer[0]
    case SubscribeMsg(sid, target) =>
      var t := s.(toServer := rest, processed := s.processed + [sid]);
      if accepted then t.(table := s.table[sid := target], serving := s.serving[sid := target])
      else t.(rejected := s.rejected + {sid}, frames := if told then s.frames + [(sid, target)] else s.frames)
    case UnsubscribeMsg(sid) => s.(toServer := rest, table := s.table - {sid})
  }

  ghost function Next(s: System, step: Step): System
    requires Enabled(s, step)
  {
    match step
    case ClientStep(e) => ClientNext(s, e)
    case OpenStep(socket, resent) =>
      Disconnected(s).(client := ClusterStreams.Step(s.client, Opens(socket)), toServer := resent)
    case ProcessStep(accepted, told) => Process(s, accepted, told)
    case EmitStep(sid) => s.(frames := s.frames + [(sid, s.serving[sid])])
    case DeliverStep => s.(frames := s.frames[1..])
  }

  // ---- the invariant ----

  /** Every name for a subscription means what the registry says. */
  ghost predicate Named(s: System) {
    && s.client.handlers == s.client.active
    && (forall sid :: sid in s.client.active ==> sid in s.registry && s.registry[sid] == s.client.active[sid])
    && (forall sid :: sid in s.registry ==> sid < s.client.nextSid)
    && (forall sid :: sid in s.table ==> sid in s.registry && s.registry[sid] == s.table[sid])
    && (forall sid :: sid in s.serving ==> sid in s.registry && s.registry[sid] == s.serving[sid])
    && (forall i :: 0 <= i < |s.toServer| && s.toServer[i].SubscribeMsg? ==>
          s.toServer[i].sid in s.registry && s.registry[s.toServer[i].sid] == s.toServer[i].target)
    && (forall i :: 0 <= i < |s.frames| ==> s.frames[i].0 in s.registry && s.registry[s.frames[i].0] == s.frames[i].1)
  }

  /** On one connection every sid is subscribed at most once, and only sids the client has handed out. */
  ghost predicate OncePerConnection(s: System) {
    && NoDup(s.processed + SubSids(s.toServer))
    && (forall sid :: sid in s.processed + SubSids(s.toServer) ==> sid < s.client.nextSid)
    && (forall sid :: sid in s.table || sid in s.rejected ==> sid in s.processed)
  }

  /** While the socket is open, the table will agree with `active` on every sid that was not rejected. */
  ghost predicate AgreesAt(s: System, sid: Sid) {
    s.client.isOpen ==>
      Expected(s.toServer, sid, At(s.table, sid)) == if sid in s.rejected then None else At(s.client.active, sid)
  }

  ghost predicate Agrees(s: System) {
    forall sid :: AgreesAt(s, sid)
  }

  ghost predicate Inv(s: System) {
    Alive(s.client) && Named(s) && OncePerConnection(s) && Agrees(s)
  }

  lemma {:induction false} SubSidsIn(msgs: seq<ClientMsg>, sid: Sid)
    ensures sid in SubSids(msgs) <==> exists i :: 0 <= i < |msgs| && msgs[i].SubscribeMsg? && msgs[i].sid == sid
  {
    if msgs != [] {
      var n := |msgs| - 1;
      SubSidsIn(msgs[..n], sid);
      if sid in SubSids(msgs[..n]) {
        var i :| 0 <= i < n && msgs[..n][i].SubscribeMsg? && msgs[..n][i].sid == sid;
        assert msgs[i] == msgs[..n][i];
      }
      forall i | 0 <= i < n && msgs[i].SubscribeMsg? && msgs[i].sid == sid
        ensures sid in SubSids(msgs[..n])
      {
        assert msgs[..n][i] == msgs[i];
      }
    }
  }

  lemma {:induction false} ResentAt(msgs: seq<ClientMsg>, active: map<Sid, Target>, sid: Sid)
    requires forall i :: 0 <= i < |msgs| ==>
      msgs[i].SubscribeMsg? && msgs[i].sid in active && msgs[i].target == active[msgs[i].sid]
    ensures Expected(msgs, sid, None) == if sid in SubSids(msgs) then At(active, sid) else None
  {
    if msgs != [] {
      ResentAt(msgs[..|msgs| - 1], active, sid);
    }
  }

  lemma ResentBound(s: System, resent: seq<ClientMsg>, sid: Sid)
    requires Named(s) && Resends(resent, s.client.active) && sid in SubSids(resent)
    ensures sid < s.client.nextSid
  {
    SubSidsIn(resent, sid);
    var i :| 0 <= i < |resent| && resent[i].SubscribeMsg? && resent[i].sid == sid;
  }

  lemma OpenNamed(s: System, socket: nat, resent: seq<ClientMsg>)
    requires Named(s) && Enabled(s, OpenStep(socket, resent))
    ensures Named(Next(s, OpenStep(socket, resent)))
  {
  }

  lemma OpenHolds(s: System, socket: nat, resent: seq<ClientMsg>)
    requires Inv(s) && Enabled(s, OpenStep(socket, resent))
    ensures Inv(Next(s, OpenStep(socket, resent)))
  {
    hide OncePerConnection, Named, Alive, NoDup;
    StepKeepsAlive(s.client, Opens(socket));
    var t := Next(s, OpenStep(socket, resent));
    OpenNamed(s, socket, resent);
    OpenOnce(s, socket, resent);
    forall sid: Sid
      ensures AgreesAt(t, sid)
    {
      ResentAt(resent, s.client.active, sid);
    }
  }

  lemma OpenOnce(s: System, socket: nat, resent: seq<ClientMsg>)
    requires Named(s) && Enabled(s, OpenStep(socket, resent))
    ensures OncePerConnection(Next(s, OpenStep(socket, resent)))
  {
    hide NoDup, Named, Alive;
    assert [] + SubSids(resent) == SubSids(resent);
    forall sid: Sid | sid in SubSids(resent)
      ensures sid < s.client.nextSid
    {
      ResentBound(s, resent, sid);
    }
  }

  lemma SubscribeNamed(s: System, target: Target)
    requires Named(s)
    ensures Named(ClientNext(s, Subscribes(target)))
  {
  }

  lemma SubscribeOnce(s: System, target: Target)
    requires OncePerConnection(s)
    ensures OncePerConnection(ClientNext(s, Subscribes(target)))
  {
    hide NoDup;
    var t, sid := ClientNext(s, Subscribes(target)), s.client.nextSid;
    var before := s.processed + SubSids(s.toServer);
    if !s.client.dead && s.client.isOpen {
      SubSidsSnoc(s.toServer, SubscribeMsg(sid, target));
      assert t.processed + SubSids(t.toServer) == before + [sid];
      NoDupSnoc(before, sid);
    } else {
      assert t.toServer == s.toServer;
    }
  }

  lemma SubscribeAgreesAt(s: System, target: Target, x: Sid)
    requires Named(s) && OncePerConnection(s) && AgreesAt(s, x) && AgreesAt(s, s.client.nextSid)
    requires s.client.isOpen ==> !s.client.dead
    ensures AgreesAt(ClientNext(s, Subscribes(target)), x)
  {
    hide NoDup;
    var t, sid := ClientNext(s, Subscribes(target)), s.client.nextSid;
    assert t.table == s.table && t.rejected == s.rejected;
    if s.client.isOpen {
      assert t.toServer == s.toServer + [SubscribeMsg(sid, target)];
      ExpectedSnoc(s.toServer, SubscribeMsg(sid, target), x, At(s.table, x));
      assert sid in s.processed ==> sid in s.processed + SubSids(s.toServer);
      assert sid !in s.rejected;
    }
  }

  lemma SubscribeHolds(s: System, target: Target)
    requires Inv(s)
    ensures Inv(ClientNext(s, Subscribes(target)))
  {
    hide Named, OncePerConnection, AgreesAt, Alive;
    StepKeepsAlive(s.client, Subscribes(target));
    OpenIsLive(s.client);
    SubscribeNamed(s, target);
    SubscribeOnce(s, target);
    forall x: Sid
      ensures AgreesAt(ClientNext(s, Subscribes(target)), x)
    {
      assert AgreesAt(s, x) && AgreesAt(s, s.client.nextSid);
      SubscribeAgreesAt(s, target, x);
    }
  }

  lemma OpenIsLive(c: Client)
    requires Alive(c)
    ensures c.isOpen ==> !c.dead
  {
  }

  lemma UnsubscribeAgreesAt(s: System, sid: Sid, x: Sid)
    requires AgreesAt(s, x)
    ensures AgreesAt(ClientNext(s, Unsubscribes(sid)), x)
  {
    ExpectedSnoc(s.toServer, UnsubscribeMsg(sid), x, At(s.table, x));
  }

  lemma UnsubscribeOnce(s: System, sid: Sid)
    requires OncePerConnection(s)
    ensures OncePerConnection(ClientNext(s, Unsubscribes(sid)))
  {
    hide NoDup;
    SubSidsSnoc(s.toServer, UnsubscribeMsg(sid));
    assert SubSids(s.toServer) + [] == SubSids(s.toServer);
    assert s.toServer + [] == s.toServer;
  }

  lemma UnsubscribeNamed(s: System, sid: Sid)
    requires Named(s)
    ensures Named(ClientNext(s, Unsubscribes(sid)))
  {
  }

  lemma UnsubscribeHolds(s: System, sid: Sid)
    requires Inv(s)
    ensures Inv(ClientNext(s, Unsubscribes(sid)))
  {
    hide Named, OncePerConnection, AgreesAt, Alive;
    StepKeepsAlive(s.client, Unsubscribes(sid));
    UnsubscribeNamed(s, sid);
    UnsubscribeOnce(s, sid);
    forall x: Sid
      ensures AgreesAt(ClientNext(s, Unsubscribes(sid)), x)
    {
      assert AgreesAt(s, x);
      UnsubscribeAgreesAt(s, sid, x);
    }
  }

  lemma DisconnectedHolds(s: System)
    requires Inv(s)
    ensures Named(Disconnected(s)) && OncePerConnection(Disconnected(s))
  {
    assert [] + SubSids([]) == [];
  }

  /** Timers, liveness checks, the end of a connection and the end of the stream touch no subscription. */
  lemma OtherClientHolds(s: System, e: Event)
    requires Inv(s) && ClusterStreams.Enabled(s.client, e)
    requires e.Checked? || e.Fires? || e.UserCloses? || e.Closes?
    ensures Inv(ClientNext(s, e))
  {
    hide NoDup, Alive;
    StepKeepsAlive(s.client, e);
    var t := ClientNext(s, e);
    assert s.toServer + [] == s.toServer;
    DisconnectedHolds(s);
    OtherClientFields(s.client, e);
    forall x: Sid
      ensures AgreesAt(t, x)
    {
      assert AgreesAt(s, x);
    }
  }

  lemma OtherClientFields(c: Client, e: Event)
    requires ClusterStreams.Enabled(c, e) && Alive(c)
    requires e.Checked? || e.Fires? || e.UserCloses? || e.Closes?
    ensures var d := ClusterStreams.Step(c, e);
      && d.nextSid == c.nextSid && (d.isOpen ==> c.isOpen && !e.Closes?)
      && d.handlers == (if e.UserCloses? then map[] else c.handlers)
      && d.active == (if e.UserCloses? then map[] else c.active)
      && (e.UserCloses? ==> !d.isOpen)
  {
  }

  lemma ProcessHolds(s: System, accepted: bool, told: bool)
    requires Inv(s) && s.toServer != []
    ensures Inv(Process(s, accepted, told))
  {
    var t := Process(s, accepted, told);
    ProcessNamed(s, accepted, told);
    ProcessOnce(s, accepted, told);
    forall x
      ensures AgreesAt(t, x)
    {
      ProcessAgreesAt(s, accepted, told, x);
    }
  }

  lemma ProcessNamed(s: System, accepted: bool, told: bool)
    requires Named(s) && s.toServer != []
    ensures Named(Process(s, accepted, told))
  {
  }

  lemma ProcessOnce(s: System, accepted: bool, told: bool)
    requires OncePerConnection(s) && s.toServer != []
    ensures OncePerConnection(Process(s, accepted, told))
  {
    hide NoDup, SubSids;
    var m, rest, t := s.toServer[0], s.toServer[1..], Process(s, accepted, told);
    assert s.toServer == [m] + rest;
    SubSidsCons(m, rest);
    assert [] + SubSids(rest) == SubSids(rest);
    assert t.processed + SubSids(rest) == s.processed + SubSids(s.toServer);
  }

  lemma ProcessAgreesAt(s: System, accepted: bool, told: bool, x: Sid)
    requires OncePerConnection(s) && s.toServer != [] && AgreesAt(s, x)
    ensures AgreesAt(Process(s, accepted, told), x)
  {
    var m, rest := s.toServer[0], s.toServer[1..];
    assert s.toServer == [m] + rest;
    ExpectedCons(m, rest, x, At(s.table, x));
    assert [m][..0] == [];
    if m.SubscribeMsg? && m.sid == x {
      FirstSubscription(s, m, rest);
      NotSubscribedAgain(rest, x);
    }
  }

  /** The sid of a subscribe message is new to the server and is not subscribed again behind it. */
  lemma FirstSubscription(s: System, m: ClientMsg, rest: seq<ClientMsg>)
    requires OncePerConnection(s) && s.toServer == [m] + rest && m.SubscribeMsg?
    ensures m.sid !in SubSids(rest) && m.sid !in s.processed && m.sid !in s.table && m.sid !in s.rejected
  {
    SubSidsCons(m, rest);
    var all, k := s.processed + SubSids(s.toServer), |s.processed|;
    assert all[k] == m.sid;
    forall i | 0 <= i < |SubSids(rest)|
      ensures SubSids(rest)[i] != m.sid
    {
      assert all[k + 1 + i] == SubSids(rest)[i];
      NoDupAt(all, k, k + 1 + i);
    }
    forall i | 0 <= i < k
      ensures s.processed[i] != m.sid
    {
      assert all[i] == s.processed[i];
      NoDupAt(all, i, k);
    }
  }

  lemma FrameStepsHold(s: System, step: Step)
    requires Inv(s) && Enabled(s, step) && (step.EmitStep? || step.DeliverStep?)
    ensures Inv(Next(s, step))
  {
    forall x
      ensures AgreesAt(Next(s, step), x)
    {
      assert AgreesAt(s, x);
    }
  }

  lemma StepHolds(s: System, step: Step)
    requires Inv(s) && Enabled(s, step)
    ensures Inv(Next(s, step))
  {
    hide Inv;
    match step
    case OpenStep(socket, resent) => OpenHolds(s, socket, resent);
    case ProcessStep(accepted, told) => ProcessHolds(s, accepted, told);
    case EmitStep(sid) => FrameStepsHold(s, step);
    case DeliverStep => FrameStepsHold(s, step);
    case ClientStep(e) =>
      match e
      case Subscribes(target) => SubscribeHolds(s, target);
      case Unsubscribes(sid) => UnsubscribeHolds(s, sid);
      case _ => OtherClientHolds(s, e);
  }

  ghost predicate IsRun(states: seq<System>, steps: seq<Step>) {
    && |states| == |steps| + 1
    && (exists now :: states[0] == System(NewClient(now), map[], [], map[], map[], [], {}, []))
    && forall i :: 0 <= i < |steps| ==> Moves(states[i], steps[i], states[i + 1])
  }

  ghost predicate Moves(s: System, step: Step, t: System) {
    Enabled(s, step) && t == Next(s, step)
  }

  lemma StartHolds(s: System)
    requires exists now :: s == System(NewClient(now), map[], [], map[], map[], [], {}, [])
    ensures Inv(s)
  {
    assert s.client.sockets == {0};
    assert [] + SubSids([]) == [];
  }

  lemma {:induction false} RunHolds(states: seq<System>, steps: seq<Step>, n: nat)
    requires IsRun(states, steps) && n <= |steps|
    ensures Inv(states[n])
  {
    hide Enabled, Next;
    if n == 0 {
      StartHolds(states[0]);
    } else {
      hide Inv;
      RunHolds(states, steps, n - 1);
      assert Moves(states[n - 1], steps[n - 1], states[n - 1 + 1]);
      StepHolds(states[n - 1], steps[n - 1]);
    }
  }

  /**
   Over every run of subscribing, unsubscribing, losing and reopening the connection, and server processing: while
   the socket is open, the server's table after the pending messages is the client's `active` map without the
   rejected sids, and no sid was subscribed twice on this connection.
   */
  lemma SubscriptionsReconcile(states: seq<System>, steps: seq<Step>, s: System, sid: Sid)
    requires IsRun(states, steps) && s == states[|steps|]
    ensures s.client.isOpen ==>
      Expected(s.toServer, sid, At(s.table, sid)) == if sid in s.rejected then None else At(s.client.active, sid)
    ensures NoDup(s.processed + SubSids(s.toServer))
  {
    hide IsRun;
    RunHolds(states, steps, |steps|);
    assert AgreesAt(s, sid);
  }

  /** A frame that reaches a handler comes from a subscription to that handler's own resource and namespace. */
  lemma FramesReachTheirHandler(states: seq<System>, steps: seq<Step>, s: System, i: nat)
    requires IsRun(states, steps) && s == states[|steps|] && i < |s.frames|
    requires s.frames[i].0 in s.client.handlers
    ensures s.client.handlers[s.frames[i].0] == s.frames[i].1
  {
    hide IsRun;
    RunHolds(states, steps, |steps|);
  }

  /**
   Over every run, when the server handles a message: a subscription it accepts is in its table and served, one it
   refuses is not and is answered by one error frame if there is room, and an unsubscribe takes its sid out of the
   table while frames of that stream may still follow. Every other sid stays as it was.
   */
  lemma ServerAnswers(states: seq<System>, steps: seq<Step>, i: nat, accepted: bool, told: bool, m: ClientMsg)
    requires IsRun(states, steps) && i < |steps| && steps[i] == ProcessStep(accepted, told)
    requires states[i].toServer != [] && states[i].toServer[0] == m
    ensures var s, t := states[i], states[i + 1];
      && t.toServer == s.toServer[1..] && t.client == s.client
      && (forall x :: x != m.sid ==> At(t.table, x) == At(s.table, x) && At(t.serving, x) == At(s.serving, x))
      && At(t.table, m.sid) == (if m.SubscribeMsg? && accepted then Some(m.target) else None)
      && At(t.serving, m.sid) == (if m.SubscribeMsg? && accepted then Some(m.target) else At(s.serving, m.sid))
      && t.rejected == s.rejected + (if m.SubscribeMsg? && !accepted then {m.sid} else {})
      && t.frames == s.frames + (if m.SubscribeMsg? && !accepted && told then [(m.sid, m.target)] else [])
  {
    RunHolds(states, steps, i);
    var s := states[i];
    assert Moves(s, steps[i], states[i + 1]);
    assert s.toServer == [m] + s.toServer[1..];
    if m.SubscribeMsg? {
      FirstIsNew(s, m);
    }
  }

  lemma FirstIsNew(s: System, m: ClientMsg)
    requires OncePerConnection(s) && s.toServer != [] && s.toServer[0] == m && m.SubscribeMsg?
    ensures m.sid !in s.table
  {
    var rest := SubSids(s.toServer[1..]);
    SubSidsCons(m, s.toServer[1..]);
    assert s.toServer == [m] + s.toServer[1..];
    var all := s.processed + SubSids(s.toServer);
    assert all[|s.processed|] == m.sid;
    if m.sid in s.processed {
      var k :| 0 <= k < |s.processed| && s.processed[k] == m.sid;
      NoDupAt(all, k, |s.processed|);
    }
  }

  /** Nothing of the old connection is left: no message, no stream, no frame. */
  predicate Bare(s: System) {
    s.toServer == [] && s.table == map[] && s.serving == map[] && s.rejected == {} && s.frames == []
  }

  lemma StepBares(s: System, step: Step, t: System)
    requires Moves(s, step, t) && Alive(s.client) && (!s.client.isOpen && !s.client.dead ==> Bare(s))
    ensures !t.client.isOpen && !t.client.dead ==> Bare(t)
    ensures step.ClientStep? && step.event.Closes? ==> Bare(t)
  {
  }

  /** Over every run: while a stream waits for its socket to open, nothing of an earlier connection is left. */
  lemma {:induction false} NothingOutlivesConnection(states: seq<System>, steps: seq<Step>, n: nat)
    requires IsRun(states, steps) && n <= |steps|
    ensures !states[n].client.isOpen && !states[n].client.dead ==> Bare(states[n])
  {
    hide Moves, Alive;
    if n > 0 {
      NothingOutlivesConnection(states, steps, n - 1);
      RunHolds(states, steps, n - 1);
      assert Moves(states[n - 1], steps[n - 1], states[n - 1 + 1]);
      StepBares(states[n - 1], steps[n - 1], states[n]);
    }
  }
}
