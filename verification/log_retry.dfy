/**
 Retry accounting of a log stream over whole runs of its connection. What each connection amounted to is an
 outcome; the stream's counters, its verdict and its delays are then stated about the list of outcomes so far.
 */
module LogRetry {
  import opened Options
  import opened LogConn

  /** What a connection amounts to once it is closed; `Reset` stands for a manual reconnect. */
  datatype Outcome = Delivered | FastEmpty | SlowEmpty | Starting | Gone | Reset

  // ---- outcomes as the events tell them, whatever the stream remembers ----

  /** A line as the connection hears it: its kind, and whether the buffer accepts it. */
  type Heard = (LineKind, bool)

  /** The notices a connection begins with: its lines before the first line of output. */
  function Notices(lines: seq<Heard>): (r: seq<Heard>)
    ensures r <= lines && forall i :: 0 <= i < |r| ==> r[i].0 != Plain
  {
    if lines == [] || lines[0].0 == Plain then [] else [lines[0]] + Notices(lines[1..])
  }

  predicate EndsOn(notices: seq<Heard>, kind: LineKind) {
    notices != [] && notices[|notices| - 1].0 == kind
  }

  /** Was one of the lines of output new? */
  predicate BroughtNew(lines: seq<Heard>) {
    exists i :: |Notices(lines)| <= i < |lines| && lines[i].1
  }

  /** The lines that came over the socket. */
  function LinesOf(events: seq<Event>, socket: nat): seq<Heard> {
    if events == [] then []
    else
      var n := |events| - 1;
      LinesOf(events[..n], socket) +
      (if events[n].Message? && events[n].socket == socket then events[n].lines else [])
  }

  /** The socket opened less than two seconds ago. */
  predicate OpenedRecently(events: seq<Event>, socket: nat, now: int) {
    exists i :: 0 <= i < |events| && events[i].Opens? && events[i].socket == socket && now - events[i].now < 2_000
  }

  /**
   What a connection amounts to whose socket closes now. It is gone if its notices ended with the pod being gone and
   nothing new came after them, it only waited if it heard notices alone and the last was of a starting container;
   else it delivered if it brought a new line, and is a fast empty one if not and it opened less than two seconds ago.
   */
  function OutcomeOf(events: seq<Event>, socket: nat, now: int): Outcome {
    var lines := LinesOf(events, socket);
    var notices := Notices(lines);
    if EndsOn(notices, GoneNotice) && !BroughtNew(lines) then Gone
    else if EndsOn(notices, TransientNotice) && notices == lines then Starting
    else if BroughtNew(lines) then Delivered
    else if OpenedRecently(events, socket, now) then FastEmpty
    else SlowEmpty
  }

  /** What an event adds; opening a stream starts it over if it was restored and nothing has happened to it. */
  function OutcomesNow(events: seq<Event>, e: Event, restored: bool): seq<Outcome> {
    match e
    case Closes(socket, now) => [OutcomeOf(events, socket, now)]
    case UserReconnect => [Reset]
    case UserOpen => if restored && events == [] then [Reset] else []
    case _ => []
  }

  function Outcomes(events: seq<Event>, restored: bool): seq<Outcome> {
    if events == [] then []
    else
      var n := |events| - 1;
      Outcomes(events[..n], restored) + OutcomesNow(events[..n], events[n], restored)
  }

  // ---- the counters, the end and the delays in terms of the outcomes ----

  /** The outcomes after the last connection that delivered a new line and after the last manual reconnect. */
  function Recent(outcomes: seq<Outcome>): seq<Outcome> {
    if outcomes == [] then []
    else
      var n := |outcomes| - 1;
      if outcomes[n] == Delivered || outcomes[n] == Reset then [] else Recent(outcomes[..n]) + [outcomes[n]]
  }

  function FastEmpties(outcomes: seq<Outcome>): nat {
    multiset(Recent(outcomes))[FastEmpty]
  }

  function Empties(outcomes: seq<Outcome>): nat {
    multiset(Recent(outcomes))[FastEmpty] + multiset(Recent(outcomes))[SlowEmpty]
  }

  predicate Exhausted(follow: bool, outcomes: seq<Outcome>) {
    FastEmpties(outcomes) >= 3 || (!follow && Empties(outcomes) >= 6)
  }

  /** Did the last connection only wait for its container? */
  predicate AfterStarting(outcomes: seq<Outcome>) {
    outcomes != [] && outcomes[|outcomes| - 1] == Starting
  }

  /** The delay after the last of the outcomes, in milliseconds. */
  function DelayAfter(outcomes: seq<Outcome>): nat {
    if AfterStarting(outcomes) then 2_000
    else match Empties(outcomes)
         case 0 => 250
         case 1 => 500
         case 2 => 1_000
         case 3 => 2_000
         case 4 => 4_000
         case _ => 8_000
  }

  /** The counters, the end of the stream and the armed delay, all read off the outcomes. */
  ghost predicate Accounted(c: Conn, outcomes: seq<Outcome>) {
    && c.fastEmptyCloses == (if c.appended then 0 else FastEmpties(outcomes))
    && (c.fastEmptyCloses < 3 ==> c.blindRetries == if c.appended then 0 else Empties(outcomes))
    && (c.state == Ended <==> Exhausted(c.follow, outcomes))
    && (c.retryTimer.Some? ==> c.retryTimer.value in c.timers && c.timers[c.retryTimer.value] == DelayAfter(outcomes))
  }

  /** What else the accounting rests on. */
  ghost predicate Sound(c: Conn, outcomes: seq<Outcome>) {
    && (OneToken(c) || Dormant(c)) && c.state != Error
    && (c.state == Ended ==> c.ws.None? && c.retryTimer.None?)
    && (c.appended ==> c.gotData)
    && (c.retryTimer.Some? && c.appended ==> FastEmpties(outcomes) == Empties(outcomes) == 0)
  }

  // ---- what the stream remembers of its connection agrees with the events ----

  /** The stream's own verdict on a connection that closes now. */
  function Verdict(c: Conn, now: int): Outcome {
    if c.state == PodGone then Gone
    else if !c.gotData && c.transientErr then Starting
    else if c.appended then Delivered
    else if FastEmptyClose(c, now) then FastEmpty
    else SlowEmpty
  }

  function Recorded(c: Conn, e: Event): seq<Outcome> {
    match e
    case Closes(_, now) => [Verdict(c, now)]
    case UserReconnect => [Reset]
    case UserOpen => if Reopen(c) == c then [] else [Reset]
    case _ => []
  }

  lemma {:induction false} NoticesSnoc(lines: seq<Heard>, x: Heard)
    ensures Notices(lines + [x]) ==
      if Notices(lines) == lines && x.0 != Plain then lines + [x] else Notices(lines)
  {
    if lines == [] {
      assert [x][1..] == [];
    } else {
      assert (lines + [x])[1..] == lines[1..] + [x];
      NoticesSnoc(lines[1..], x);
    }
  }

  lemma BroughtNewSnoc(lines: seq<Heard>, x: Heard)
    ensures BroughtNew(lines + [x]) <==> BroughtNew(lines) || ((Notices(lines) != lines || x.0 == Plain) && x.1)
  {
    NoticesSnoc(lines, x);
    var all := lines + [x];
    if i :| |Notices(lines)| <= i < |lines| && lines[i].1 {
      assert all[i].1;
    }
    if BroughtNew(lines + [x]) {
      var i :| |Notices(all)| <= i < |all| && all[i].1;
      assert i < |lines| ==> all[i] == lines[i];
    }
    assert all[|lines|] == x;
  }

  lemma NewIsNoNotice(lines: seq<Heard>)
    ensures BroughtNew(lines) ==> Notices(lines) != lines
  {
  }

  /** What the flags say of the lines heard so far; `before` says that an earlier message brought a new one. */
  predicate Reflects(c: Conn, lines: seq<Heard>, before: bool) {
    var notices := Notices(lines);
    && (c.gotData <==> notices != lines)
    && (c.appended <==> BroughtNew(lines))
    && (c.transientErr ==> lines != [])
    && (notices == lines && EndsOn(notices, TransientNotice) ==> c.transientErr)
    && (c.state == PodGone <==> EndsOn(notices, GoneNotice) && !before)
    && (before ==> BroughtNew(lines))
  }

  lemma LineReflects(c: Conn, lines: seq<Heard>, x: Heard, before: bool)
    requires Reflects(c, lines, before)
    ensures Reflects(OnLine(c, x.0, x.1), lines + [x], before)
    ensures OnLine(c, x.0, x.1).appended == (c.appended || (ReachesBuffer(c, x.0) && x.1))
  {
    hide BroughtNew, Notices;
    NoticesSnoc(lines, x);
    BroughtNewSnoc(lines, x);
    NewIsNoNotice(lines);
    assert |lines + [x]| > |lines| >= |Notices(lines)|;
  }

  lemma {:induction false} FeedReflects(c: Conn, lines: seq<Heard>, more: seq<Heard>)
    requires Reflects(c, lines, c.appended)
    ensures Reflects(Feed(c, more), lines + more, c.appended)
    ensures Feed(c, more).appended == (c.appended || BringsNew(c, more))
    decreases |more|
  {
    hide Reflects, OnLine, ReachesBuffer;
    if more == [] {
      assert lines + more == lines;
    } else {
      var n := |more| - 1;
      FeedReflects(c, lines, more[..n]);
      LineReflects(Feed(c, more[..n]), lines + more[..n], more[n], c.appended);
      assert lines + more == lines + more[..n] + [more[n]];
    }
  }

  lemma MessageReflects(c: Conn, lines: seq<Heard>, more: seq<Heard>)
    requires Reflects(c, lines, c.appended)
    ensures var d := OnMessage(c, more); Reflects(d, lines + more, d.appended)
  {
    hide Feed, BringsNew, BroughtNew, Notices;
    FeedReflects(c, lines, more);
  }

  /** When the connection opened, if it did. */
  ghost predicate Dated(c: Conn, events: seq<Event>, socket: nat) {
    && (forall i :: 0 <= i < |events| && events[i].Opens? && events[i].socket == socket ==>
          events[i].now == c.connectedAt > 0)
    && (c.connectedAt > 0 ==> exists i :: 0 <= i < |events| && events[i].Opens? && events[i].socket == socket)
  }

  /** Every socket that opened or sent has been created and counts as begun. */
  ghost predicate Known(c: Conn, events: seq<Event>) {
    forall i :: 0 <= i < |events| && (events[i].Opens? || events[i].Message?) ==>
      events[i].socket < c.nextSocket && events[i].socket in c.begun
  }

  ghost predicate Remembers(c: Conn, events: seq<Event>, restored: bool) {
    && Known(c, events)
    && (if restored && events == [] then Dormant(c) else OneToken(c))
    && (c.ws.Some? ==>
          Reflects(c, LinesOf(events, c.ws.value), c.appended) && Dated(c, events, c.ws.value))
  }

  lemma VerdictIsOutcome(c: Conn, events: seq<Event>, restored: bool, e: Event)
    requires Remembers(c, events, restored) && Current(c, e)
    ensures Recorded(c, e) == OutcomesNow(events, e, restored)
  {
    hide BroughtNew, Notices, LinesOf, Known, OneToken, Reopen;
    OpenDoesNothing(c);
    if e.Closes? {
      NewIsNoNotice(LinesOf(events, e.socket));
      RecentlyOpened(c, events, e.socket, e.now);
    }
  }

  lemma RecentlyOpened(c: Conn, events: seq<Event>, socket: nat, now: int)
    requires Dated(c, events, socket)
    ensures OpenedRecently(events, socket, now) <==> c.connectedAt > 0 && now - c.connectedAt < FAST_EMPTY_WINDOW_MS
  {
    if c.connectedAt > 0 {
      var i :| 0 <= i < |events| && events[i].Opens? && events[i].socket == socket;
      assert events[i].now == c.connectedAt;
    }
  }

  lemma {:induction false} SilentSocket(events: seq<Event>, socket: nat)
    requires forall i :: 0 <= i < |events| ==> !(events[i].Message? && events[i].socket == socket)
    ensures LinesOf(events, socket) == []
  {
    if events != [] {
      SilentSocket(events[..|events| - 1], socket);
    }
  }

  /** A new connection, made because of e, remembers nothing of earlier ones. */
  lemma ConnectRemembers(c: Conn, d: Conn, events: seq<Event>, e: Event, restored: bool)
    requires Known(c, events) && !e.Opens? && !e.Message?
    requires d.nextSocket == c.nextSocket && d.begun == c.begun && OneToken(Connect(d)) && !d.closed
    ensures Remembers(Connect(d), events + [e], restored)
  {
    hide OneToken;
    KnownOther(c, d, events, e);
    SilentSocket(events + [e], c.nextSocket);
  }

  lemma KnownOther(c: Conn, d: Conn, events: seq<Event>, e: Event)
    requires Known(c, events) && !e.Opens? && !e.Message? && d.nextSocket == c.nextSocket && d.begun == c.begun
    ensures Known(d, events + [e])
  {
    forall i | 0 <= i < |events| + 1
      ensures i < |events| ==> (events + [e])[i] == events[i]
    {
    }
  }

  lemma LinesOfSnoc(events: seq<Event>, e: Event, socket: nat)
    ensures LinesOf(events + [e], socket) ==
      LinesOf(events, socket) + (if e.Message? && e.socket == socket then e.lines else [])
  {
    assert (events + [e])[..|events|] == events;
  }

  lemma KnownSnoc(c: Conn, e: Event, events: seq<Event>)
    requires Known(c, events) && Current(c, e) && (OneToken(c) || Dormant(c))
    ensures Known(Step(c, e), events + [e])
  {
    if e.Message? {
      FeedKeepsSockets(c, e.lines);
    }
    forall i | 0 <= i < |events| + 1 && ((events + [e])[i].Opens? || (events + [e])[i].Message?)
      ensures (events + [e])[i].socket < Step(c, e).nextSocket && (events + [e])[i].socket in Step(c, e).begun
    {
      assert i < |events| ==> (events + [e])[i] == events[i];
    }
  }

  lemma DatedSnoc(c: Conn, d: Conn, events: seq<Event>, e: Event, socket: nat)
    requires Dated(c, events, socket) && d.connectedAt == c.connectedAt && !(e.Opens? && e.socket == socket)
    ensures Dated(d, events + [e], socket)
  {
    var all := events + [e];
    forall i | 0 <= i < |all| && all[i].Opens? && all[i].socket == socket
      ensures all[i].now == d.connectedAt > 0
    {
      assert all[i] == events[i];
    }
    if d.connectedAt > 0 {
      var i :| 0 <= i < |events| && events[i].Opens? && events[i].socket == socket;
      assert all[i] == events[i];
    }
  }

  lemma OpensRemembers(c: Conn, events: seq<Event>, restored: bool, socket: nat, now: int)
    requires Remembers(c, events, restored) && Current(c, Opens(socket, now)) && OneToken(c)
    ensures Remembers(OnOpen(c, socket, now), events + [Opens(socket, now)], restored)
  {
    hide OneToken;
    var all := events + [Opens(socket, now)];
    KnownSnoc(c, Opens(socket, now), events);
    CurrentStepKeepsOneToken(c, Opens(socket, now));
    SilentSocket(events, socket);
    LinesOfSnoc(events, Opens(socket, now), socket);
    assert all[|events|] == Opens(socket, now);
  }

  lemma MessageRemembers(c: Conn, events: seq<Event>, restored: bool, socket: nat, lines: seq<Heard>)
    requires Remembers(c, events, restored) && Current(c, Message(socket, lines)) && OneToken(c)
    ensures Remembers(OnMessage(c, lines), events + [Message(socket, lines)], restored)
  {
    hide OneToken, Reflects, Dated, Feed, BringsNew;
    var e := Message(socket, lines);
    KnownSnoc(c, e, events);
    CurrentStepKeepsOneToken(c, e);
    LinesOfSnoc(events, e, socket);
    MessageReflects(c, LinesOf(events, socket), lines);
    FeedKeepsSockets(c, lines);
    FeedKeepsDate(c, lines);
    DatedSnoc(c, OnMessage(c, lines), events, e, socket);
  }

  lemma {:induction false} FeedKeepsDate(c: Conn, lines: seq<Heard>)
    ensures Feed(c, lines).connectedAt == c.connectedAt
  {
    if lines != [] {
      FeedKeepsDate(c, lines[..|lines| - 1]);
    }
  }

  /** Only a restored stream nobody has opened yet is resumed by opening it. */
  lemma OpenDoesNothing(c: Conn)
    ensures OneToken(c) && !c.closed ==> Reopen(c) == c
    ensures Dormant(c) ==> Reopen(c) != c
  {
  }

  lemma ArmedIsNotClosed(c: Conn, timer: nat)
    requires OneToken(c) && timer in c.timers
    ensures !c.closed
  {
    assert timer in c.timers.Keys;
  }

  lemma CloseHasOneToken(c: Conn)
    requires OneToken(c) || Dormant(c)
    ensures OneToken(Close(c))
  {
  }

  lemma SilentEvent(c: Conn, events: seq<Event>, restored: bool, e: Event)
    requires Remembers(c, events, restored) && OneToken(c) && e.UserOpen?
    ensures Remembers(c, events + [e], restored)
  {
    hide OneToken, Known, Reflects, Dated;
    KnownOther(c, c, events, e);
    assert |events + [e]| > 0;
    if c.ws.Some? {
      LinesOfSnoc(events, e, c.ws.value);
      assert LinesOf(events, c.ws.value) + [] == LinesOf(events, c.ws.value);
      DatedSnoc(c, c, events, e, c.ws.value);
    }
  }

  lemma StepRemembers(c: Conn, events: seq<Event>, restored: bool, e: Event)
    requires Remembers(c, events, restored) && Current(c, e)
    ensures Remembers(Step(c, e), events + [e], restored)
  {
    hide Reflects, Dated, Known, OnMessage, OnOpen, OnClose, OneToken, LinesOf;
    KnownSnoc(c, e, events);
    match e
    case Opens(socket, now) => OpensRemembers(c, events, restored, socket, now);
    case Message(socket, lines) => MessageRemembers(c, events, restored, socket, lines);
    case Closes(socket, now) =>
      CurrentCloseKeepsOneToken(c, socket, now);
      CloseEffect(c, socket, now);
    case Fires(timer) =>
      CurrentStepKeepsOneToken(c, e);
      ArmedIsNotClosed(c, timer);
      ConnectRemembers(c, c.(retryTimer := None, timers := c.timers - {timer}), events, e, restored);
    case UserReconnect =>
      ReconnectHasOneToken(c);
      ConnectRemembers(c, ResetForReconnect(c), events, e, restored);
    case UserOpen =>
      OpenDoesNothing(c);
      if OneToken(c) {
        SilentEvent(c, events, restored, e);
      } else {
        ReconnectHasOneToken(c);
        ConnectRemembers(c, ResetForReconnect(c), events, e, restored);
      }
    case UserClose => CloseHasOneToken(c);
  }

  // ---- one event ----

  lemma RecentSnoc(outcomes: seq<Outcome>, o: Outcome)
    ensures FastEmpties(outcomes + [o]) ==
      if o == Delivered || o == Reset then 0 else FastEmpties(outcomes) + (if o == FastEmpty then 1 else 0)
    ensures Empties(outcomes + [o]) ==
      if o == Delivered || o == Reset then 0
      else Empties(outcomes) + (if o == FastEmpty || o == SlowEmpty then 1 else 0)
  {
    assert (outcomes + [o])[..|outcomes|] == outcomes;
  }

  /** What a line does to the counters. */
  predicate Counts(c: Conn, d: Conn) {
    && (d.state == Ended ==> c.state == Ended) && (d.state == Error ==> c.state == Error)
    && (if d.appended == c.appended then d.blindRetries == c.blindRetries && d.fastEmptyCloses == c.fastEmptyCloses
        else d.appended && d.blindRetries == 0 && d.fastEmptyCloses == 0)
    && (d.appended ==> d.gotData)
  }

  lemma LineCounts(c: Conn, kind: LineKind, isNew: bool)
    requires c.appended ==> c.gotData && c.blindRetries == 0 && c.fastEmptyCloses == 0
    ensures Counts(c, OnLine(c, kind, isNew))
  {
  }

  lemma {:induction false} FeedCounts(c: Conn, lines: seq<(LineKind, bool)>)
    requires c.appended ==> c.gotData && c.blindRetries == 0 && c.fastEmptyCloses == 0
    ensures Counts(c, Feed(c, lines))
  {
    hide OnLine;
    if lines != [] {
      var n := |lines| - 1;
      FeedCounts(c, lines[..n]);
      LineCounts(Feed(c, lines[..n]), lines[n].0, lines[n].1);
    }
  }

  lemma MessageAccounts(c: Conn, socket: nat, lines: seq<(LineKind, bool)>, outcomes: seq<Outcome>)
    requires Accounted(c, outcomes) && Sound(c, outcomes) && Current(c, Message(socket, lines))
    ensures Accounted(OnMessage(c, lines), outcomes) && Sound(OnMessage(c, lines), outcomes)
  {
    hide Exhausted, DelayAfter, FastEmpties, Empties;
    CurrentStepKeepsOneToken(c, Message(socket, lines));
    FeedKeepsSockets(c, lines);
    assert c.appended ==> c.blindRetries == 0;
    FeedCounts(c, lines);
  }

  /** How the close handler turns a verdict into counters, state and delay. */
  lemma CloseByVerdict(c: Conn, socket: nat, now: int)
    requires OneToken(c) && c.ws == Some(socket) && c.state != Ended && c.state != Error
    requires c.appended ==> c.gotData && c.blindRetries == 0 && c.fastEmptyCloses == 0
    requires c.fastEmptyCloses < FAST_EMPTY_GIVEUP
    ensures var d, o := OnClose(c, socket, now), Verdict(c, now);
      && d.appended == c.appended && d.gotData == c.gotData && d.follow == c.follow && d.state != Error
      && d.fastEmptyCloses == c.fastEmptyCloses + (if o == FastEmpty then 1 else 0)
      && d.ws.None? && o != Reset && (o == Delivered ==> c.appended)
      && (o == FastEmpty || o == SlowEmpty ==> !c.appended)
      && (d.retryTimer.Some? ==> d.retryTimer.value in d.timers)
      && match o
         case Gone => d.state == PodGone && d.blindRetries == c.blindRetries && d.retryTimer.None?
         case Starting =>
           && d.state == c.state && d.blindRetries == c.blindRetries && !c.appended
           && d.retryTimer.Some? && d.timers[d.retryTimer.value] == TRANSIENT_RETRY_MS
         case _ =>
           if d.fastEmptyCloses >= FAST_EMPTY_GIVEUP then d.state == Ended && d.retryTimer.None?
           else d.blindRetries == c.blindRetries + (if o == Delivered then 0 else 1) && EndsOrArms(d)
  {
  }

  predicate EndsOrArms(c: Conn) {
    if !c.follow && c.blindRetries >= MAX_BLIND_RETRIES then c.state == Ended && c.retryTimer.None?
    else
      && c.state == Reconnecting && c.retryTimer.Some? && c.retryTimer.value in c.timers
      && c.timers[c.retryTimer.value] == Backoff(c.blindRetries)
  }

  lemma CloseAccounts(c: Conn, socket: nat, now: int, outcomes: seq<Outcome>)
    requires Accounted(c, outcomes) && Sound(c, outcomes) && c.ws == Some(socket)
    ensures var d := OnClose(c, socket, now);
      Accounted(d, outcomes + [Verdict(c, now)]) && Sound(d, outcomes + [Verdict(c, now)])
  {
    hide FastEmpties, Empties, OnClose, Verdict, Backoff;
    BackoffTable(OnClose(c, socket, now).blindRetries);
    CurrentCloseKeepsOneToken(c, socket, now);
    CloseByVerdict(c, socket, now);
    RecentSnoc(outcomes, Verdict(c, now));
  }

  lemma DialAccounts(c: Conn, timer: nat, outcomes: seq<Outcome>)
    requires Accounted(c, outcomes) && Sound(c, outcomes) && Current(c, Fires(timer))
    ensures Accounted(OnTimer(c, timer), outcomes) && Sound(OnTimer(c, timer), outcomes)
  {
    hide FastEmpties, Empties, DelayAfter;
    CurrentStepKeepsOneToken(c, Fires(timer));
  }

  lemma ReconnectAccounts(c: Conn, outcomes: seq<Outcome>)
    requires !c.closed && (OneToken(c) || Dormant(c))
    ensures Accounted(Reconnect(c), outcomes + [Reset]) && Sound(Reconnect(c), outcomes + [Reset])
  {
    hide FastEmpties, Empties, DelayAfter;
    ReconnectHasOneToken(c);
    RecentSnoc(outcomes, Reset);
  }

  lemma OtherAccounts(c: Conn, e: Event, outcomes: seq<Outcome>)
    requires Accounted(c, outcomes) && Sound(c, outcomes) && Current(c, e) && (e.Opens? || e.UserClose?)
    ensures Accounted(Step(c, e), outcomes) && Sound(Step(c, e), outcomes)
  {
    hide FastEmpties, Empties, DelayAfter;
    if OneToken(c) {
      CurrentStepKeepsOneToken(c, e);
    }
  }

  lemma StepAccounts(c: Conn, e: Event, outcomes: seq<Outcome>)
    requires Accounted(c, outcomes) && Sound(c, outcomes) && Current(c, e)
    ensures Accounted(Step(c, e), outcomes + Recorded(c, e)) && Sound(Step(c, e), outcomes + Recorded(c, e))
  {
    hide Accounted, Verdict, OnClose, OnTimer, OnMessage, Reconnect;
    assert outcomes + [] == outcomes;
    match e
    case Message(socket, lines) => MessageAccounts(c, socket, lines, outcomes);
    case Closes(socket, now) => CloseAccounts(c, socket, now, outcomes);
    case Fires(timer) => DialAccounts(c, timer, outcomes);
    case UserReconnect => ReconnectAccounts(c, outcomes);
    case UserOpen => ReconnectAccounts(c, outcomes);
    case _ => OtherAccounts(c, e, outcomes);
  }

  // ---- whole runs ----

  lemma OutcomesSnoc(events: seq<Event>, e: Event, restored: bool)
    ensures Outcomes(events + [e], restored) == Outcomes(events, restored) + OutcomesNow(events, e, restored)
  {
    assert (events + [e])[..|events|] == events;
  }

  lemma {:induction false} RunAccounts(c: Conn, before: seq<Event>, events: seq<Event>, restored: bool)
    requires Remembers(c, before, restored) && AllCurrent(c, events)
    requires Accounted(c, Outcomes(before, restored)) && Sound(c, Outcomes(before, restored))
    ensures Accounted(Run(c, events), Outcomes(before + events, restored))
    decreases |events|
  {
    hide Remembers, Accounted, Sound, Current, Step, Recorded, OutcomesNow, Outcomes;
    if events == [] {
      assert before + [] == before;
    } else {
      var e := events[0];
      StepAccounts(c, e, Outcomes(before, restored));
      VerdictIsOutcome(c, before, restored, e);
      OutcomesSnoc(before, e, restored);
      StepRemembers(c, before, restored, e);
      RunAccounts(Step(c, e), before + [e], events[1..], restored);
      assert before + events == before + [e] + events[1..];
    }
  }

  /**
   Where the counters start from nothing: a new stream's first connection, a manual reconnect or refetch, or a
   restored stream that has not been opened.
   */
  datatype Start = NewStream(follow: bool) | Reconnected(before: Conn) | Restored

  ghost predicate Sensible(start: Start) {
    start.Reconnected? ==> !start.before.closed && (OneToken(start.before) || Dormant(start.before))
  }

  function First(start: Start): Conn {
    match start
    case NewStream(follow) => Connect(NewConn(follow))
    case Reconnected(before) => Reconnect(before)
    case Restored => NewConn(true).(state := Reconnecting)
  }

  lemma StartAccounts(start: Start)
    requires Sensible(start)
    ensures Accounted(First(start), []) && Sound(First(start), []) && Remembers(First(start), [], start.Restored?)
  {
    match start
    case NewStream(follow) =>
    case Reconnected(before) =>
      ReconnectAccounts(before, []);
      ReconnectHasOneToken(before);
    case Restored =>
  }

  /**
   Over every run of a stream, with the outcomes read off the events: `fastEmptyCloses` and `blindRetries` count the
   empty connections since the last one that delivered and the last manual reconnect; the stream has ended if and only
   if three of those were fast, or six of them were empty on a stream that does not follow; and an armed timer has the
   delay of that count.
   */
  lemma RetryAccounting(start: Start, events: seq<Event>)
    requires Sensible(start) && AllCurrent(First(start), events)
    ensures Accounted(Run(First(start), events), Outcomes(events, start.Restored?))
  {
    StartAccounts(start);
    RunAccounts(First(start), [], events, start.Restored?);
    assert [] + events == events;
  }

  /** Every armed timer, remembered or not. */
  predicate DelaysBounded(c: Conn) {
    forall t :: t in c.timers ==> 250 <= c.timers[t] <= 8_000
  }

  lemma ScheduleKeepsBounds(c: Conn)
    requires DelaysBounded(c)
    ensures DelaysBounded(ScheduleReconnect(c))
  {
    hide Backoff;
    BackoffTable(c.blindRetries);
  }

  lemma StepKeepsBounds(c: Conn, e: Event)
    requires DelaysBounded(c)
    ensures DelaysBounded(Step(c, e))
  {
    match e
    case Message(_, lines) => FeedKeepsSockets(c, lines);
    case Closes(socket, now) =>
      var d := c.(ws := None, sockets := c.sockets - {socket}, closing := c.closing - {socket});
      ScheduleKeepsBounds(d.(fastEmptyCloses := FastAfterClose(d, now), blindRetries := BlindAfterClose(d)));
    case _ =>
  }

  lemma {:induction false} RunKeepsBounds(c: Conn, events: seq<Event>)
    requires DelaysBounded(c)
    ensures DelaysBounded(Run(c, events))
    decreases |events|
  {
    hide Step, DelaysBounded;
    if events != [] {
      StepKeepsBounds(c, events[0]);
      RunKeepsBounds(Step(c, events[0]), events[1..]);
    }
  }

  /**
   In every run from a stream's beginning, late close events of replaced sockets included, every armed timer has a
   delay between 250 ms and 8 s, the timers the stream no longer remembers among them.
   */
  lemma DelayBounds(c: Conn, events: seq<Event>)
    requires Begins(c)
    ensures DelaysBounded(Run(c, events))
  {
    RunKeepsBounds(c, events);
  }

  lemma {:induction false} RunConcat(c: Conn, a: seq<Event>, b: seq<Event>)
    ensures AllCurrent(c, a + b) ==> AllCurrent(c, a)
    decreases |a|
  {
    hide Step, Current;
    if a != [] {
      RunConcat(Step(c, a[0]), a[1..], b);
      assert (a + b)[1..] == a[1..] + b;
    }
  }

  lemma {:induction false} OutcomesExtend(a: seq<Event>, b: seq<Event>, restored: bool)
    ensures Outcomes(a, restored) <= Outcomes(a + b, restored)
    decreases |b|
  {
    if b == [] {
      assert a + b == a;
    } else {
      var n := |b| - 1;
      OutcomesExtend(a, b[..n], restored);
      OutcomesSnoc(a + b[..n], b[n], restored);
      assert a + b == a + b[..n] + [b[n]];
    }
  }

  predicate Quiet(outcomes: seq<Outcome>) {
    Delivered !in outcomes && Reset !in outcomes
  }

  function CountEmpty(outcomes: seq<Outcome>): nat {
    multiset(outcomes)[FastEmpty] + multiset(outcomes)[SlowEmpty]
  }

  lemma {:induction false} EmptiesOfTail(outcomes: seq<Outcome>, tail: seq<Outcome>)
    requires Quiet(tail)
    ensures Empties(outcomes + tail) == Empties(outcomes) + CountEmpty(tail)
    decreases |tail|
  {
    hide Empties, FastEmpties;
    if tail == [] {
      assert outcomes + tail == outcomes;
    } else {
      var n := |tail| - 1;
      EmptiesOfTail(outcomes, tail[..n]);
      RecentSnoc(outcomes + tail[..n], tail[n]);
      assert tail == tail[..n] + [tail[n]];
      assert outcomes + tail == outcomes + tail[..n] + [tail[n]];
    }
  }

  /**
   Two points of a run, c1 and later c2, with their outcomes h1 and h2, and no delivery and no manual reconnect in
   between.
   */
  ghost predicate Stretch(start: Start, before: seq<Event>, between: seq<Event>, c1: Conn, h1: seq<Outcome>,
                          c2: Conn, h2: seq<Outcome>) {
    && Sensible(start) && AllCurrent(First(start), before + between)
    && c1 == Run(First(start), before) && h1 == Outcomes(before, start.Restored?)
    && c2 == Run(First(start), before + between) && h2 == Outcomes(before + between, start.Restored?)
    && |h1| <= |h2| && Quiet(h2[|h1|..])
  }

  lemma StretchAccounts(start: Start, before: seq<Event>, between: seq<Event>, c1: Conn, h1: seq<Outcome>,
                        c2: Conn, h2: seq<Outcome>)
    requires Stretch(start, before, between, c1, h1, c2, h2)
    ensures Accounted(c1, h1) && Accounted(c2, h2) && c2.follow == First(start).follow
    ensures h1 <= h2 && Empties(h2) == Empties(h1) + CountEmpty(h2[|h1|..])
  {
    hide Sensible, First, Empties, FastEmpties, Outcomes, AllCurrent, Run, Accounted;
    var c := First(start);
    RunConcat(c, before, between);
    RetryAccounting(start, before);
    RetryAccounting(start, before + between);
    OutcomesExtend(before, between, start.Restored?);
    EmptiesOfTail(h1, h2[|h1|..]);
    assert h2 == h1 + h2[|h1|..];
    RunKeepsFollow(c, before + between);
  }

  /** Between two deliveries, and without a manual reconnect, the backoff delay never decreases. */
  lemma DelayNeverDecreases(start: Start, before: seq<Event>, between: seq<Event>, c1: Conn, h1: seq<Outcome>,
                            c2: Conn, h2: seq<Outcome>)
    requires Stretch(start, before, between, c1, h1, c2, h2)
    requires c1.retryTimer.Some? && c2.retryTimer.Some? && !AfterStarting(h1) && !AfterStarting(h2)
    ensures c1.retryTimer.value in c1.timers && c2.retryTimer.value in c2.timers
    ensures c1.timers[c1.retryTimer.value] <= c2.timers[c2.retryTimer.value]
  {
    hide Stretch, Empties, Exhausted, FastEmpties;
    StretchAccounts(start, before, between, c1, h1, c2, h2);
  }

  /**
   A stream that does not follow ends within six empty connections: once a stretch without a delivery or a manual
   reconnect has seen six, however many connections in between only waited for their container.
   */
  lemma SixEmptyConnectionsEnd(start: Start, before: seq<Event>, between: seq<Event>, c1: Conn, h1: seq<Outcome>,
                               c2: Conn, h2: seq<Outcome>)
    requires Stretch(start, before, between, c1, h1, c2, h2)
    requires !First(start).follow && |h1| <= |h2| && CountEmpty(h2[|h1|..]) >= 6
    ensures c2.state == Ended
  {
    hide Stretch, Empties, FastEmpties, CountEmpty;
    StretchAccounts(start, before, between, c1, h1, c2, h2);
  }

  lemma StepKeepsFollow(c: Conn, e: Event)
    ensures Step(c, e).follow == c.follow
  {
    if e.Message? {
      FeedKeepsSockets(c, e.lines);
    }
  }

  lemma {:induction false} RunKeepsFollow(c: Conn, events: seq<Event>)
    ensures Run(c, events).follow == c.follow
    decreases |events|
  {
    hide Step;
    if events != [] {
      StepKeepsFollow(c, events[0]);
      RunKeepsFollow(Step(c, events[0]), events[1..]);
    }
  }
}
