/**
 The connection side of one log stream (frontend/src/lib/logStreams.ts): sockets, the retry timer and the
 counters that decide when to give up. Sockets and timers carry ids, so that an event of a socket the stream
 has already replaced can be told from an event of the current one; the source itself never looks at which
 socket an event came from.
 */
module LogConn {
  import opened Options

  const MAX_BLIND_RETRIES := 6
  const FAST_EMPTY_WINDOW_MS := 2_000
  const FAST_EMPTY_GIVEUP := 3
  const TRANSIENT_RETRY_MS := 2_000

  datatype StreamState = Connecting | Streaming | Waiting | Reconnecting | Ended | PodGone | Error

  /**
   `sockets` are the sockets the stream neither closed itself nor saw closing, `closing` those it closed itself
   and whose close event is still to come, `begun` those whose open event was delivered; `timers` are the armed
   timers with their delays. `ws` and `retryTimer` are the ones the stream remembers.
   */
  datatype Conn = Conn(
    state: StreamState,
    follow: bool,
    closed: bool,
    ws: Option<nat>,
    sockets: set<nat>,
    closing: set<nat>,
    begun: set<nat>,
    nextSocket: nat,
    retryTimer: Option<nat>,
    timers: map<nat, nat>,
    nextTimer: nat,
    blindRetries: nat,
    fastEmptyCloses: nat,
    connectedAt: int,
    appended: bool,
    gotData: bool,
    transientErr: bool)

  function NewConn(follow: bool): Conn {
    Conn(Connecting, follow, false, None, {}, {}, {}, 0, None, map[], 0, 0, 0, 0, false, false, false)
  }

  function DoubledTimes(n: nat): nat {
    if n == 0 then 1 else 2 * DoubledTimes(n - 1)
  }

  /** The delay before the next attempt, in milliseconds. */
  function Backoff(blindRetries: nat): nat {
    var shift := if blindRetries <= MAX_BLIND_RETRIES then blindRetries else MAX_BLIND_RETRIES;
    var delay := 250 * DoubledTimes(shift);
    if delay <= 8_000 then delay else 8_000
  }

  /** 250 ms, doubled for every empty connection, up to 8 s from the fifth on. */
  lemma BackoffTable(n: nat)
    ensures Backoff(n) ==
      match n case 0 => 250 case 1 => 500 case 2 => 1_000 case 3 => 2_000 case 4 => 4_000 case _ => 8_000
  {
    assert DoubledTimes(1) == 2 && DoubledTimes(2) == 4 && DoubledTimes(3) == 8;
    assert DoubledTimes(4) == 16 && DoubledTimes(5) == 32 && DoubledTimes(6) == 64;
  }

  function CloseSocket(c: Conn): Conn {
    c.(timers := if c.retryTimer.Some? then c.timers - {c.retryTimer.value} else c.timers,
       retryTimer := None,
       sockets := if c.ws.Some? then c.sockets - {c.ws.value} else c.sockets,
       closing := if c.ws.Some? then c.closing + {c.ws.value} else c.closing,
       ws := None)
  }

  function Connect(c: Conn): Conn {
    if c.closed then c
    else c.(state := if c.state == Reconnecting then Reconnecting else Connecting,
            gotData := false, transientErr := false, connectedAt := 0, appended := false,
            ws := Some(c.nextSocket), sockets := c.sockets + {c.nextSocket}, nextSocket := c.nextSocket + 1)
  }

  function ResetForReconnect(c: Conn): Conn {
    CloseSocket(c).(state := Connecting, gotData := false, transientErr := false,
                    blindRetries := 0, fastEmptyCloses := 0, connectedAt := 0, appended := false)
  }

  /** `reconnect`, and the connection side of a refetch. */
  function Reconnect(c: Conn): Conn {
    Connect(ResetForReconnect(c))
  }

  /** Opening a stream that is already pooled: one restored from storage, still without a connection, is resumed. */
  function Reopen(c: Conn): Conn {
    if c.follow && c.ws.None? && c.retryTimer.None? && c.state == Reconnecting then Reconnect(c) else c
  }

  /** The user closes the stream for good. */
  function Close(c: Conn): Conn {
    CloseSocket(c.(closed := true))
  }

  function Arm(c: Conn, delay: nat): Conn {
    c.(retryTimer := Some(c.nextTimer), timers := c.timers[c.nextTimer := delay], nextTimer := c.nextTimer + 1)
  }

  function ScheduleReconnect(c: Conn): Conn {
    if c.closed then c
    else if !c.follow && c.blindRetries >= MAX_BLIND_RETRIES then c.(state := Ended)
    else Arm(c.(state := Reconnecting), Backoff(c.blindRetries))
  }

  function OnOpen(c: Conn, socket: nat, now: int): Conn {
    c.(state := Streaming, connectedAt := now, begun := c.begun + {socket})
  }

  /** How the source classifies one inbound line before it looks at the buffer. */
  datatype LineKind = GoneNotice | TransientNotice | Plain

  /** One inbound line; `isNew` says whether the buffer accepts it. */
  function OnLine(c: Conn, kind: LineKind, isNew: bool): Conn {
    if !c.gotData && kind == GoneNotice then c.(state := PodGone)
    else if !c.gotData && kind == TransientNotice then c.(transientErr := true, state := Waiting)
    else if isNew then c.(gotData := true, appended := true, blindRetries := 0, fastEmptyCloses := 0)
    else c.(gotData := true)
  }

  /** Does the line reach the buffer at all? */
  predicate ReachesBuffer(c: Conn, kind: LineKind) {
    c.gotData || kind == Plain
  }

  /** The lines of a message in order. */
  function Feed(c: Conn, lines: seq<(LineKind, bool)>): Conn {
    if lines == [] then c
    else
      var n := |lines| - 1;
      OnLine(Feed(c, lines[..n]), lines[n].0, lines[n].1)
  }

  /** Does the message append a line? */
  predicate BringsNew(c: Conn, lines: seq<(LineKind, bool)>) {
    lines != [] &&
      var n := |lines| - 1;
      BringsNew(c, lines[..n]) || (ReachesBuffer(Feed(c, lines[..n]), lines[n].0) && lines[n].1)
  }

  function OnMessage(c: Conn, lines: seq<(LineKind, bool)>): Conn {
    if BringsNew(c, lines) then Feed(c, lines).(state := Streaming) else Feed(c, lines)
  }

  predicate FastEmptyClose(c: Conn, now: int) {
    !c.appended && c.connectedAt > 0 && now - c.connectedAt < FAST_EMPTY_WINDOW_MS
  }

  function FastAfterClose(c: Conn, now: int): nat {
    if FastEmptyClose(c, now) then c.fastEmptyCloses + 1 else if c.appended then 0 else c.fastEmptyCloses
  }

  function BlindAfterClose(c: Conn): nat {
    if c.appended then c.blindRetries else c.blindRetries + 1
  }

  /** The close handler once the closed, terminal and starting-container cases are out of the way. */
  function CountClose(c: Conn, now: int): Conn {
    var d := c.(fastEmptyCloses := FastAfterClose(c, now));
    if d.fastEmptyCloses >= FAST_EMPTY_GIVEUP then d.(state := Ended)
    else ScheduleReconnect(d.(blindRetries := BlindAfterClose(c)))
  }

  function OnClose(c: Conn, socket: nat, now: int): Conn {
    var d := c.(ws := None, sockets := c.sockets - {socket}, closing := c.closing - {socket});
    if d.closed || d.state == PodGone || d.state == Error then d
    else if !d.gotData && d.transientErr then Arm(d, TRANSIENT_RETRY_MS)
    else CountClose(d, now)
  }

  function OnTimer(c: Conn, timer: nat): Conn {
    Connect(c.(retryTimer := None, timers := c.timers - {timer}))
  }

  // ---- one socket per stream ----

  datatype Event =
    | Opens(socket: nat, now: int)
    | Message(socket: nat, lines: seq<(LineKind, bool)>)
    | Closes(socket: nat, now: int)
    | Fires(timer: nat)
    | UserReconnect
    | UserOpen
    | UserClose

  function Step(c: Conn, e: Event): Conn {
    match e
    case Opens(socket, now) => OnOpen(c, socket, now)
    case Message(_, lines) => OnMessage(c, lines)
    case Closes(socket, now) => OnClose(c, socket, now)
    case Fires(timer) => OnTimer(c, timer)
    case UserReconnect => Reconnect(c)
    case UserOpen => Reopen(c)
    case UserClose => Close(c)
  }

  /**
   What the browser may deliver: a socket the stream did not close opens, once, and sends after that, but every socket
   closes, be it long after the stream closed it. A closed stream has left the pool, so the user no longer reaches it.
   */
  predicate Possible(c: Conn, e: Event) {
    match e
    case Opens(socket, now) => socket in c.sockets && socket !in c.begun && now > 0
    case Message(socket, _) => socket in c.sockets && socket in c.begun
    case Closes(socket, _) => socket in c.sockets + c.closing
    case Fires(timer) => timer in c.timers
    case _ => !c.closed
  }

  /** Events of sockets come from the one the stream remembers. */
  predicate Current(c: Conn, e: Event) {
    Possible(c, e) && (e.Opens? || e.Message? || e.Closes? ==> c.ws == Some(e.socket))
  }

  function Run(c: Conn, events: seq<Event>): Conn
    decreases |events|
  {
    if events == [] then c else Run(Step(c, events[0]), events[1..])
  }

  predicate AllPossible(c: Conn, events: seq<Event>)
    decreases |events|
  {
    events == [] || (Possible(c, events[0]) && AllPossible(Step(c, events[0]), events[1..]))
  }

  predicate AllCurrent(c: Conn, events: seq<Event>)
    decreases |events|
  {
    events == [] || (Current(c, events[0]) && AllCurrent(Step(c, events[0]), events[1..]))
  }

  predicate Live(c: Conn) {
    !c.closed && c.state in {Connecting, Streaming, Waiting, Reconnecting}
  }

  /** Sockets and timers are exactly the remembered ones, never both, and a live stream has one of them. */
  ghost predicate OneToken(c: Conn) {
    && c.sockets == (if c.ws.Some? then {c.ws.value} else {})
    && c.timers.Keys == (if c.retryTimer.Some? then {c.retryTimer.value} else {})
    && !(c.ws.Some? && c.retryTimer.Some?)
    && (c.closed ==> c.ws.None? && c.retryTimer.None?)
    && (Live(c) ==> c.ws.Some? || c.retryTimer.Some?)
    && (c.ws.Some? ==> c.ws.value < c.nextSocket) && (c.retryTimer.Some? ==> c.retryTimer.value < c.nextTimer)
  }

  /** A following stream restored from storage: it counts as reconnecting before anything was opened or armed. */
  predicate Dormant(c: Conn) {
    c == NewConn(true).(state := Reconnecting)
  }

  /** Where a stream's life begins: the first connection of a new stream, or a state restored from storage. */
  ghost predicate Begins(c: Conn) {
    || (exists follow :: c == Connect(NewConn(follow)))
    || Dormant(c)
    || (c.state in {Ended, PodGone, Error} && c == NewConn(c.follow).(state := c.state))
  }

  lemma BeginsWithOneToken(c: Conn)
    requires Begins(c)
    ensures OneToken(c) <==> !Dormant(c)
  {
  }

  lemma ReconnectHasOneToken(c: Conn)
    requires OneToken(c) || Dormant(c)
    requires !c.closed
    ensures OneToken(Reconnect(c))
  {
  }

  /** A close event arms one more timer, unless the handler gives up; it leaves every other socket alone. */
  lemma CloseEffect(c: Conn, socket: nat, now: int)
    ensures var d := OnClose(c, socket, now);
      && d.sockets == c.sockets - {socket} && d.ws.None? && d.closed == c.closed
      && d.nextSocket == c.nextSocket && d.nextTimer >= c.nextTimer
      && (if GivesUp(c, now) then d.timers == c.timers && d.retryTimer == c.retryTimer
          else d.nextTimer == c.nextTimer + 1 && d.retryTimer == Some(c.nextTimer)
               && d.timers.Keys == c.timers.Keys + {c.nextTimer})
      && (GivesUp(c, now) ==> c.closed || d.state in {PodGone, Error, Ended})
  {
  }

  /** Will a close event heard now give up, or be ignored, instead of arming a timer? */
  predicate GivesUp(c: Conn, now: int) {
    || c.closed || c.state == PodGone || c.state == Error
    || ((c.gotData || !c.transientErr)
        && (FastAfterClose(c, now) >= FAST_EMPTY_GIVEUP
            || (!c.follow && BlindAfterClose(c) >= MAX_BLIND_RETRIES)))
  }

  lemma CurrentCloseKeepsOneToken(c: Conn, socket: nat, now: int)
    requires OneToken(c) && c.ws == Some(socket)
    ensures OneToken(OnClose(c, socket, now))
  {
    CloseEffect(c, socket, now);
  }

  lemma LineKeepsSockets(c: Conn, kind: LineKind, isNew: bool)
    ensures SameSockets(c, OnLine(c, kind, isNew))
  {
  }

  predicate SameSockets(c: Conn, d: Conn) {
    && d.ws == c.ws && d.sockets == c.sockets && d.closing == c.closing && d.begun == c.begun
    && d.nextSocket == c.nextSocket
    && d.timers == c.timers && d.retryTimer == c.retryTimer && d.nextTimer == c.nextTimer
    && d.closed == c.closed && d.follow == c.follow
  }

  lemma {:induction false} FeedKeepsSockets(c: Conn, lines: seq<(LineKind, bool)>)
    ensures SameSockets(c, Feed(c, lines))
  {
    hide OnLine;
    if lines != [] {
      var n := |lines| - 1;
      FeedKeepsSockets(c, lines[..n]);
      LineKeepsSockets(Feed(c, lines[..n]), lines[n].0, lines[n].1);
    }
  }

  lemma CurrentStepKeepsOneToken(c: Conn, e: Event)
    requires OneToken(c) && Current(c, e)
    ensures OneToken(Step(c, e))
  {
    match e
    case Closes(socket, now) => CurrentCloseKeepsOneToken(c, socket, now);
    case Message(_, lines) => FeedKeepsSockets(c, lines);
    case _ =>
  }

  /**
   While only the remembered socket is heard, a live stream has one open socket or one armed timer from its first
   event on: no stall, no double. Only a restored stream nobody has opened yet has neither.
   */
  lemma OneSocketPerStream(c: Conn, events: seq<Event>)
    requires Begins(c) && AllCurrent(c, events)
    ensures if Dormant(c) && events == [] then !OneToken(Run(c, events)) else OneToken(Run(c, events))
  {
    BeginsWithOneToken(c);
    if Dormant(c) && events != [] {
      var d := Step(c, events[0]);
      assert OneToken(d);
      CurrentRunKeepsOneToken(d, events[1..]);
    } else if !Dormant(c) {
      CurrentRunKeepsOneToken(c, events);
    }
  }

  lemma {:induction false} CurrentRunKeepsOneToken(c: Conn, events: seq<Event>)
    requires OneToken(c) && AllCurrent(c, events)
    ensures OneToken(Run(c, events))
    decreases |events|
  {
    if events != [] {
      var d := Step(c, events[0]);
      CurrentStepKeepsOneToken(c, events[0]);
      CurrentRunKeepsOneToken(d, events[1..]);
    }
  }

  // ---- close events of sockets the stream has replaced ----

  /** The close event of a replaced socket leaves the stream whole exactly when no socket and no timer is forgotten. */
  lemma StaleCloseIff(c: Conn, socket: nat, now: int)
    requires OneToken(c) && c.ws != Some(socket)
    ensures OneToken(OnClose(c, socket, now)) <==> c.ws.None? && (c.retryTimer.None? || GivesUp(c, now))
  {
    var d := OnClose(c, socket, now);
    CloseEffect(c, socket, now);
    if c.ws.Some? {
      assert c.ws.value in d.sockets;
    }
    if c.retryTimer.Some? && !GivesUp(c, now) {
      assert c.retryTimer.value in c.timers.Keys;
    }
  }

  /**
   A close event of a replaced socket while another is connected: that one stays open and is forgotten, so the
   next connection, by the user or by the timer this event armed, leaves two sockets open.
   */
  lemma StaleCloseOrphansSocket(c: Conn, socket: nat, now: int)
    requires OneToken(c) && c.ws.Some? && c.ws != Some(socket)
    ensures var d := OnClose(c, socket, now);
      && d.sockets == {c.ws.value} && d.ws.None?
      && |Reconnect(d).sockets| == 2
      && (d.retryTimer.Some? <==> !GivesUp(c, now))
      && (d.retryTimer.Some? ==> |OnTimer(d, d.retryTimer.value).sockets| == 2)
  {
    var d := OnClose(c, socket, now);
    CloseEffect(c, socket, now);
    assert d.nextSocket == c.nextSocket;
    assert Reconnect(d).sockets == {c.ws.value, c.nextSocket};
    if d.retryTimer.Some? {
      assert OnTimer(d, d.retryTimer.value).sockets == {c.ws.value, c.nextSocket};
    }
  }

  /** Is the event, if it is a close event, of the remembered socket, or heard when there is nothing to forget? */
  predicate Tame(c: Conn, e: Event) {
    e.Closes? && c.ws != Some(e.socket) ==> c.ws.None? && (c.retryTimer.None? || GivesUp(c, e.now))
  }

  predicate AllTame(c: Conn, events: seq<Event>)
    decreases |events|
  {
    events == [] || (Tame(c, events[0]) && AllTame(Step(c, events[0]), events[1..]))
  }

  ghost predicate AlwaysOneToken(c: Conn, events: seq<Event>)
    decreases |events|
  {
    OneToken(c) && (events == [] || AlwaysOneToken(Step(c, events[0]), events[1..]))
  }

  lemma PossibleStepKeepsOneTokenIff(c: Conn, e: Event)
    requires OneToken(c) && Possible(c, e)
    ensures OneToken(Step(c, e)) <==> Tame(c, e)
  {
    hide GivesUp;
    if e.Closes? && c.ws != Some(e.socket) {
      StaleCloseIff(c, e.socket, e.now);
    } else {
      CurrentStepKeepsOneToken(c, e);
    }
  }

  /**
   Over every run the browser can produce, late close events included: the stream has one socket or one timer
   throughout if and only if no close event of a replaced socket was heard while another socket was connected, or
   while a timer was armed and the handler did not give up.
   */
  lemma {:induction false} OneTokenThroughoutIff(c: Conn, events: seq<Event>)
    requires OneToken(c) && AllPossible(c, events)
    ensures AlwaysOneToken(c, events) <==> AllTame(c, events)
    decreases |events|
  {
    hide OneToken, Possible, Tame, Step;
    if events != [] {
      var d := Step(c, events[0]);
      PossibleStepKeepsOneTokenIff(c, events[0]);
      if OneToken(d) {
        OneTokenThroughoutIff(d, events[1..]);
      }
    }
  }

  /** A manual reconnect of a streaming pod, then the old socket's close event and the retry: two sockets stay open. */
  lemma ManualReconnectDoubles()
    ensures var events := [Opens(0, 10), UserReconnect, Closes(0, 5_000), Fires(0)];
      var c := Connect(NewConn(true));
      && AllPossible(c, events) && !AllTame(c, events)
      && Run(c, events).sockets == {1, 2} && Run(c, events).ws == Some(2) && !Run(c, events).closed
  {
  }
}
