/**
 The client's connection to one cluster (frontend/src/lib/stream.ts): one socket at a time, reconnecting with a
 growing delay, and a liveness check when the first connection is refused at once.
 */
module ClusterStreams {
  import opened Options
  import opened Sequences

  const FAST_CLOSE_THRESHOLD_MS := 2_000
  const FIRST_DELAY := 500.0
  const MAX_DELAY := 8000.0

  type Sid = nat

  datatype Target = Target(gvr: string, ns: string)

  /**
   `sockets` are the sockets whose close event has not been heard; `isOpen` says whether the current one is open.
   `retryDelay` is the armed timer with its delay; `checks` counts the liveness checks in flight.
   */
  datatype Client = Client(
    socket: Option<nat>,
    isOpen: bool,
    sockets: set<nat>,
    nextSocket: nat,
    retryDelay: Option<real>,
    reconnectDelay: real,
    checks: nat,
    connectStartedAt: int,
    everConnected: bool,
    dead: bool,
    nextSid: Sid,
    handlers: map<Sid, Target>,
    active: map<Sid, Target>)

  datatype CheckResult = Listed | NotListed | Failed

  function Capped(delay: real): real {
    if delay <= MAX_DELAY then delay else MAX_DELAY
  }

  function Connect(c: Client, now: int): Client {
    if c.dead then c
    else c.(retryDelay := None, connectStartedAt := now, socket := Some(c.nextSocket), isOpen := false,
            sockets := c.sockets + {c.nextSocket}, nextSocket := c.nextSocket + 1)
  }

  function ScheduleReconnect(c: Client): Client {
    if c.dead || c.retryDelay.Some? then c
    else c.(retryDelay := Some(Capped(c.reconnectDelay)), reconnectDelay := Capped(c.reconnectDelay * 1.7))
  }

  function DeclareDead(c: Client): Client {
    if c.dead then c else c.(dead := true, retryDelay := None)
  }

  function OnOpen(c: Client): Client {
    c.(everConnected := true, reconnectDelay := FIRST_DELAY, isOpen := true)
  }

  function OnClose(c: Client, socket: nat, now: int): Client {
    var d := c.(sockets := c.sockets - {socket}, isOpen := if c.socket == Some(socket) then false else c.isOpen);
    if !c.everConnected && now - c.connectStartedAt < FAST_CLOSE_THRESHOLD_MS then d.(checks := c.checks + 1)
    else ScheduleReconnect(d)
  }

  function OnChecked(c: Client, result: CheckResult): Client
    requires c.checks > 0
  {
    var d := c.(checks := c.checks - 1);
    if result == NotListed then DeclareDead(d) else ScheduleReconnect(d)
  }

  function OnTimer(c: Client, now: int): Client {
    Connect(c.(retryDelay := None), now)
  }

  function Subscribe(c: Client, target: Target): Client {
    c.(nextSid := c.nextSid + 1, handlers := c.handlers[c.nextSid := target], active := c.active[c.nextSid := target])
  }

  function Unsubscribe(c: Client, sid: Sid): Client {
    c.(handlers := c.handlers - {sid}, active := c.active - {sid})
  }

  function Close(c: Client): Client {
    c.(handlers := map[], active := map[], isOpen := false, retryDelay := None, dead := true)
  }

  function NewClient(now: int): Client {
    Connect(Client(None, false, {}, 0, None, FIRST_DELAY, 0, 0, false, false, 1, map[], map[]), now)
  }

  datatype Event =
    | Opens(socket: nat)
    | Closes(socket: nat, now: int)
    | Checked(result: CheckResult)
    | Fires(now: int)
    | Subscribes(target: Target)
    | Unsubscribes(sid: Sid)
    | UserCloses

  predicate Enabled(c: Client, e: Event) {
    match e
    case Opens(socket) => c.socket == Some(socket) && socket in c.sockets && !c.isOpen && !c.dead
    case Closes(socket, _) => socket in c.sockets
    case Checked(_) => c.checks > 0
    case Fires(_) => c.retryDelay.Some?
    case _ => true
  }

  function Step(c: Client, e: Event): Client
    requires Enabled(c, e)
  {
    match e
    case Opens(_) => OnOpen(c)
    case Closes(socket, now) => OnClose(c, socket, now)
    case Checked(result) => OnChecked(c, result)
    case Fires(now) => OnTimer(c, now)
    case Subscribes(target) => Subscribe(c, target)
    case Unsubscribes(sid) => Unsubscribe(c, sid)
    case UserCloses => Close(c)
  }

  /** The one thing that keeps a stream going: an unclosed socket, an armed timer or a check in flight. */
  function Tokens(c: Client): nat {
    |c.sockets| + (if c.retryDelay.Some? then 1 else 0) + c.checks
  }

  ghost predicate Alive(c: Client) {
    && 500.0 <= c.reconnectDelay <= 8000.0
    && (c.retryDelay.Some? ==> 500.0 <= c.retryDelay.value <= 8000.0 && !c.dead)
    && (forall x :: x in c.sockets ==> c.socket == Some(x))
    && (c.socket.Some? ==> c.socket.value < c.nextSocket)
    && (c.isOpen ==> c.socket.Some? && c.socket.value in c.sockets && c.everConnected && !c.dead)
    && (!c.dead ==> Tokens(c) == 1)
    && c.handlers == c.active && (forall sid :: sid in c.active ==> sid < c.nextSid)
  }

  lemma Singleton(s: set<nat>, x: nat)
    requires x in s && forall y :: y in s ==> y == x
    ensures |s| == 1 && s - {x} == {}
  {
    assert s == {x};
  }

  lemma CloseKeepsAlive(c: Client, socket: nat, now: int)
    requires Alive(c) && socket in c.sockets
    ensures Alive(OnClose(c, socket, now))
  {
    Singleton(c.sockets, socket);
    assert OnClose(c, socket, now).sockets == {};
  }

  lemma ConnectKeepsAlive(c: Client, now: int)
    requires Alive(c) && c.retryDelay.Some?
    ensures Alive(OnTimer(c, now))
  {
    assert c.sockets == {};
    assert OnTimer(c, now).sockets == {c.nextSocket};
  }

  lemma StepKeepsAlive(c: Client, e: Event)
    requires Alive(c) && Enabled(c, e)
    ensures Alive(Step(c, e))
  {
    match e
    case Closes(socket, now) => CloseKeepsAlive(c, socket, now);
    case Fires(now) => ConnectKeepsAlive(c, now);
    case Checked(result) =>
    case _ =>
  }

  ghost predicate IsRun(states: seq<Client>, events: seq<Event>) {
    && |states| == |events| + 1
    && (exists now :: states[0] == NewClient(now))
    && forall i :: 0 <= i < |events| ==> Moves(states[i], events[i], states[i + 1])
  }

  predicate Moves(c: Client, e: Event, d: Client) {
    Enabled(c, e) && d == Step(c, e)
  }

  /**
   Over every run: until it is dead the stream has exactly one unclosed socket, armed timer or liveness check, so it
   neither stalls nor doubles, and every armed delay is between 500 and 8000 ms.
   */
  lemma {:induction false} ConnectionToken(states: seq<Client>, events: seq<Event>, n: nat)
    requires IsRun(states, events) && n <= |events|
    ensures Alive(states[n])
  {
    hide Enabled, Step;
    if n == 0 {
      var now :| states[0] == NewClient(now);
      assert states[0].sockets == {0};
    } else {
      ConnectionToken(states, events, n - 1);
      assert Moves(states[n - 1], events[n - 1], states[n - 1 + 1]);
      StepKeepsAlive(states[n - 1], events[n - 1]);
    }
  }

  lemma DeadStep(c: Client, e: Event)
    requires Enabled(c, e) && c.dead
    ensures Step(c, e).dead && Step(c, e).nextSocket == c.nextSocket
  {
  }

  /** Once dead, a stream opens no further socket, whatever timers, checks and subscribers still do. */
  lemma {:induction false} DeadStaysDead(states: seq<Client>, events: seq<Event>, m: nat, n: nat)
    requires IsRun(states, events) && m <= n <= |events| && states[m].dead
    ensures states[n].dead && states[n].nextSocket == states[m].nextSocket
  {
    hide Enabled, Step;
    if m < n {
      DeadStaysDead(states, events, m, n - 1);
      assert Moves(states[n - 1], events[n - 1], states[n - 1 + 1]);
      DeadStep(states[n - 1], events[n - 1]);
    }
  }

  function ToThe(x: real, n: nat): (r: real)
    ensures x >= 1.0 ==> r >= 1.0
  {
    if n == 0 then 1.0 else ToThe(x, n - 1) * x
  }

  /** Half a second, longer by seven tenths every time, up to eight seconds. */
  function NthDelay(n: nat): real {
    var delay := 500.0 * ToThe(1.7, n);
    if delay <= 8000.0 then delay else 8000.0
  }

  lemma NextDelay(n: nat)
    ensures 500.0 <= NthDelay(n) <= NthDelay(n + 1) <= 8000.0
    ensures NthDelay(n + 1) == if NthDelay(n) * 1.7 <= 8000.0 then NthDelay(n) * 1.7 else 8000.0
  {
    var x := ToThe(1.7, n);
    assert 500.0 * (x * 1.7) == (500.0 * x) * 1.7;
  }

  /** Does the step arm the timer? */
  predicate Arms(c: Client, d: Client) {
    c.retryDelay.None? && d.retryDelay.Some?
  }

  /** How often the timer was armed in the first n steps, but after the last of them in which the socket opened. */
  function ArmedSinceOpen(states: seq<Client>, events: seq<Event>, n: nat): nat
    requires |states| == |events| + 1 && n <= |events|
  {
    if n == 0 || events[n - 1].Opens? then 0
    else ArmedSinceOpen(states, events, n - 1) + (if Arms(states[n - 1], states[n]) then 1 else 0)
  }

  lemma StepDelay(c: Client, e: Event, k: nat)
    requires Alive(c) && Enabled(c, e) && c.reconnectDelay == NthDelay(k)
    ensures Step(c, e).reconnectDelay ==
      if e.Opens? then NthDelay(0) else if Arms(c, Step(c, e)) then NthDelay(k + 1) else NthDelay(k)
    ensures Arms(c, Step(c, e)) ==> !e.Opens? && Step(c, e).retryDelay == Some(NthDelay(k))
  {
    hide NthDelay;
    NextDelay(k);
    FirstDelay();
  }

  lemma FirstDelay()
    ensures NthDelay(0) == 500.0
  {
  }

  /** The delay of the next attempt depends on the number of attempts since the last open alone. */
  lemma {:induction false} DelayOf(states: seq<Client>, events: seq<Event>, n: nat)
    requires IsRun(states, events) && n <= |events|
    ensures states[n].reconnectDelay == NthDelay(ArmedSinceOpen(states, events, n))
  {
    hide Enabled, Step, Alive, NthDelay;
    FirstDelay();
    if n > 0 {
      DelayOf(states, events, n - 1);
      ConnectionToken(states, events, n - 1);
      assert Moves(states[n - 1], events[n - 1], states[n - 1 + 1]);
      StepDelay(states[n - 1], events[n - 1], ArmedSinceOpen(states, events, n - 1));
    }
  }

  /**
   Over every run: the delay armed first after the beginning, or after an open, is 500 ms, and the k-th after that is
   500 ms times 1.7 to the power of k, but never more than 8 s.
   */
  lemma ArmedDelays(states: seq<Client>, events: seq<Event>, n: nat, k: nat)
    requires IsRun(states, events) && n < |events| && Arms(states[n], states[n + 1])
    requires k == ArmedSinceOpen(states, events, n)
    ensures var delay := 500.0 * ToThe(1.7, k);
      states[n + 1].retryDelay == Some(if delay <= 8000.0 then delay else 8000.0)
  {
    hide Enabled, Step, Alive;
    DelayOf(states, events, n);
    ConnectionToken(states, events, n);
    assert Moves(states[n], events[n], states[n + 1]);
    StepDelay(states[n], events[n], k);
  }

  /** When the last of the sockets of the first n steps was created; the first one is created at the start. */
  function DialedAt(events: seq<Event>, n: nat, start: int): int
    requires n <= |events|
  {
    if n == 0 then start else if events[n - 1].Fires? then events[n - 1].now else DialedAt(events, n - 1, start)
  }

  predicate NeverOpened(events: seq<Event>, n: nat)
    requires n <= |events|
  {
    forall i :: 0 <= i < n ==> !events[i].Opens?
  }

  /** Is the socket open: did it open, and neither close nor the user close the stream since? */
  predicate OpenAt(events: seq<Event>, n: nat)
    requires n <= |events|
  {
    n > 0 && (events[n - 1].Opens? || (!events[n - 1].Closes? && !events[n - 1].UserCloses? && OpenAt(events, n - 1)))
  }

  /** Did the user close the stream, or a check find that the cluster is gone? */
  predicate EndedAt(events: seq<Event>, n: nat)
    requires n <= |events|
  {
    exists i :: 0 <= i < n && (events[i].UserCloses? || events[i] == Checked(NotListed))
  }

  lemma StepFlags(c: Client, e: Event)
    requires Alive(c) && Enabled(c, e)
    ensures var d := Step(c, e);
      && d.connectStartedAt == (if e.Fires? then e.now else c.connectStartedAt)
      && (d.everConnected <==> c.everConnected || e.Opens?)
      && (d.isOpen <==> e.Opens? || (c.isOpen && !e.Closes? && !e.UserCloses?))
      && (d.dead <==> c.dead || e.UserCloses? || e == Checked(NotListed))
  {
  }

  /**
   What the stream remembers is what happened: when the socket was created, whether one ever opened, whether the
   current one is open, and whether the stream is dead, which only the user and a list without the cluster bring about.
   */
  lemma {:induction false} FlagsTellEvents(states: seq<Client>, events: seq<Event>, n: nat, start: int)
    requires IsRun(states, events) && states[0] == NewClient(start) && n <= |events|
    ensures states[n].connectStartedAt == DialedAt(events, n, start)
    ensures !states[n].everConnected <==> NeverOpened(events, n)
    ensures states[n].isOpen <==> OpenAt(events, n)
    ensures states[n].dead <==> EndedAt(events, n)
  {
    hide Enabled, Step, Alive;
    if n > 0 {
      FlagsTellEvents(states, events, n - 1, start);
      ConnectionToken(states, events, n - 1);
      assert Moves(states[n - 1], events[n - 1], states[n - 1 + 1]);
      StepFlags(states[n - 1], events[n - 1]);
    }
  }

  /**
   Over every run, when a socket of a live stream closes: the cluster is checked if and only if no socket has opened yet
   and this one was created less than two seconds ago, and otherwise the timer is armed.
   */
  lemma CheckedIff(states: seq<Client>, events: seq<Event>, n: nat, start: int)
    requires IsRun(states, events) && states[0] == NewClient(start)
    requires n < |events| && events[n].Closes? && !states[n].dead
    ensures var checked := NeverOpened(events, n) && events[n].now - DialedAt(events, n, start) < 2_000;
      states[n + 1].checks == (if checked then 1 else 0) && (states[n + 1].retryDelay.Some? <==> !checked)
  {
    hide DialedAt, NeverOpened;
    FlagsTellEvents(states, events, n, start);
    ConnectionToken(states, events, n);
    assert Moves(states[n], events[n], states[n + 1]);
    Singleton(states[n].sockets, events[n].socket);
  }

  // ---- what the client sends ----

  datatype ClientMsg = SubscribeMsg(sid: Sid, target: Target) | UnsubscribeMsg(sid: Sid)

  /** The sids of the subscribe messages, in order. */
  function SubSids(msgs: seq<ClientMsg>): seq<Sid> {
    if msgs == [] then []
    else
      var n := |msgs| - 1;
      SubSids(msgs[..n]) + (if msgs[n].SubscribeMsg? then [msgs[n].sid] else [])
  }

  /** One subscribe message for every active subscription, in some order, and nothing else. */
  ghost predicate Resends(msgs: seq<ClientMsg>, active: map<Sid, Target>) {
    && (forall i :: 0 <= i < |msgs| ==>
          msgs[i].SubscribeMsg? && msgs[i].sid in active && msgs[i].target == active[msgs[i].sid])
    && NoDup(SubSids(msgs))
    && (forall sid :: sid in active ==> sid in SubSids(msgs))
  }

  lemma SubSidsSnoc(msgs: seq<ClientMsg>, m: ClientMsg)
    ensures SubSids(msgs + [m]) == SubSids(msgs) + (if m.SubscribeMsg? then [m.sid] else [])
  {
    assert (msgs + [m])[..|msgs|] == msgs;
  }

  lemma NothingTwice()
    ensures NoDup(SubSids([]))
  {
  }

  // ---- the object ----

  class ClusterStream {
    var socket: Option<nat>
    var isOpen: bool
    var sockets: set<nat>
    var nextSocket: nat
    var retryDelay: Option<real>
    var reconnectDelay: real
    var checks: nat
    var connectStartedAt: int
    var everConnected: bool
    var dead: bool
    var nextSid: Sid
    var handlers: map<Sid, Target>
    var active: map<Sid, Target>

    function Contents(): Client
      reads this
    {
      Client(socket, isOpen, sockets, nextSocket, retryDelay, reconnectDelay, checks, connectStartedAt, everConnected,
             dead, nextSid, handlers, active)
    }

    constructor (now: int)
      ensures Contents() == NewClient(now)
    {
      isOpen, retryDelay, reconnectDelay, checks := false, None, FIRST_DELAY, 0;
      everConnected, dead, nextSid, handlers, active := false, false, 1, map[], map[];
      socket, sockets, nextSocket, connectStartedAt := Some(0), {0}, 1, now;
    }

    method OpenSocket(now: int)
      modifies this
      ensures Contents() == Connect(old(Contents()), now)
    {
      if dead {
        return;
      }
      retryDelay := None;
      connectStartedAt := now;
      socket, isOpen := Some(nextSocket), false;
      sockets, nextSocket := sockets + {nextSocket}, nextSocket + 1;
    }

    method Retry()
      modifies this`retryDelay, this`reconnectDelay
      ensures Contents() == ScheduleReconnect(old(Contents()))
    {
      if dead || retryDelay.Some? {
        return;
      }
      retryDelay := Some(Capped(reconnectDelay));
      reconnectDelay := Capped(reconnectDelay * 1.7);
    }

    /** The timer fires: the stream goes on with exactly one new socket. */
    method TimerFired(now: int)
      requires Alive(Contents()) && retryDelay.Some?
      modifies this
      ensures Alive(Contents()) && Contents() == OnTimer(old(Contents()), now)
      ensures retryDelay.None? && sockets == {nextSocket - 1} && socket == Some(nextSocket - 1)
    {
      ConnectKeepsAlive(Contents(), now);
      retryDelay := None;
      OpenSocket(now);
    }

    /** The open handler: every active subscription is sent again, once. */
    method SocketOpened() returns (msgs: seq<ClientMsg>)
      requires Alive(Contents()) && socket.Some? && socket.value in sockets && !dead
      modifies this`everConnected, this`reconnectDelay, this`isOpen
      ensures Alive(Contents()) && Contents() == OnOpen(old(Contents())) && Resends(msgs, active)
      ensures isOpen && everConnected && reconnectDelay == 500.0
    {
      everConnected, reconnectDelay, isOpen := true, FIRST_DELAY, true;
      msgs := Resend();
    }

    method Resend() returns (msgs: seq<ClientMsg>)
      ensures Resends(msgs, active)
    {
      hide NoDup;
      msgs := [];
      var todo := active.Keys;
      assert NoDup(SubSids(msgs)) by { NothingTwice(); }
      while todo != {}
        invariant todo <= active.Keys
        invariant forall i :: 0 <= i < |msgs| ==>
          msgs[i].SubscribeMsg? && msgs[i].sid in active && msgs[i].target == active[msgs[i].sid]
        invariant NoDup(SubSids(msgs))
        invariant forall sid :: sid in active ==> (sid in SubSids(msgs) <==> sid !in todo)
        decreases todo
      {
        var sid :| sid in todo;
        SubSidsSnoc(msgs, SubscribeMsg(sid, active[sid]));
        NoDupSnoc(SubSids(msgs), sid);
        msgs := msgs + [SubscribeMsg(sid, active[sid])];
        todo := todo - {sid};
      }
    }

    /**
     The close handler: a stream that is not dead goes on with exactly one liveness check, if it never connected and
     was closed at once, or else with exactly one armed timer.
     */
    method SocketClosed(closing: nat, now: int)
      requires Alive(Contents()) && closing in sockets
      modifies this
      ensures Alive(Contents()) && Contents() == OnClose(old(Contents()), closing, now)
      ensures sockets == {} && !isOpen && dead == old(dead)
      ensures !dead ==> checks + (if retryDelay.Some? then 1 else 0) == 1
      ensures !dead ==> (checks == 1 <==> !everConnected && now - connectStartedAt < 2_000)
    {
      CloseKeepsAlive(Contents(), closing, now);
      Singleton(sockets, closing);
      sockets := sockets - {closing};
      if socket == Some(closing) {
        isOpen := false;
      }
      if !everConnected && now - connectStartedAt < FAST_CLOSE_THRESHOLD_MS {
        checks := checks + 1;
        return;
      }
      Retry();
    }

    /**
     The answer of a liveness check: only a list without the cluster kills the stream, and a stream that dies tells
     every subscriber; any other answer arms the timer.
     */
    method CheckAnswered(result: CheckResult) returns (told: set<Sid>)
      requires Alive(Contents()) && checks > 0
      modifies this
      ensures Alive(Contents()) && Contents() == OnChecked(old(Contents()), result)
      ensures dead <==> old(dead) || result == NotListed
      ensures told == if dead && !old(dead) then active.Keys else {}
      ensures !dead ==> retryDelay.Some? && sockets == {} && checks == 0
    {
      StepKeepsAlive(Contents(), Checked(result));
      told := {};
      checks := checks - 1;
      if result == NotListed {
        if !dead {
          dead, retryDelay, told := true, None, handlers.Keys;
        }
        return;
      }
      Retry();
    }

    /**
     A new subscription: under a sid nobody had, next to all others. Its message goes out now if the socket is open;
     otherwise it is refused when the stream is dead, and left to the resending at the next open when it is not.
     */
    method AddSubscription(target: Target) returns (sid: Sid, msgs: seq<ClientMsg>, refused: bool)
      requires Alive(Contents())
      modifies this`nextSid, this`handlers, this`active
      ensures Alive(Contents()) && Contents() == Subscribe(old(Contents()), target)
      ensures sid !in old(active) && active == old(active)[sid := target] && handlers == active
      ensures isOpen ==> msgs == [SubscribeMsg(sid, target)] && !refused
      ensures !isOpen ==> msgs == [] && (refused <==> dead)
    {
      sid := nextSid;
      nextSid := nextSid + 1;
      handlers, active := handlers[sid := target], active[sid := target];
      refused := dead;
      msgs := if !dead && isOpen then [SubscribeMsg(sid, target)] else [];
    }

    /** The end of a subscription: its sid is forgotten for good, and the server hears of it if it can. */
    method DropSubscription(sid: Sid) returns (msgs: seq<ClientMsg>)
      requires Alive(Contents())
      modifies this`handlers, this`active
      ensures Alive(Contents()) && Contents() == Unsubscribe(old(Contents()), sid)
      ensures sid !in active && handlers == active && (sid in old(active) ==> sid < nextSid)
      ensures forall x :: x in old(active) && x != sid ==> x in active && active[x] == old(active)[x]
      ensures msgs == [] || (isOpen && msgs == [UnsubscribeMsg(sid)])
      ensures isOpen ==> msgs != []
    {
      handlers, active := handlers - {sid}, active - {sid};
      msgs := if isOpen then [UnsubscribeMsg(sid)] else [];
    }

    /** Closing the stream: no subscription and no timer is left, and no event opens another socket. */
    method Shutdown()
      requires Alive(Contents())
      modifies this
      ensures Alive(Contents()) && Contents() == Close(old(Contents()))
      ensures dead && active == map[] && retryDelay.None?
      ensures forall e :: Enabled(Contents(), e) ==> Step(Contents(), e).nextSocket == nextSocket
    {
      handlers, active := map[], map[];
      isOpen, retryDelay, dead := false, None, true;
      forall e | Enabled(Contents(), e)
        ensures Step(Contents(), e).nextSocket == nextSocket
      {
        DeadStep(Contents(), e);
      }
    }
  }
}
