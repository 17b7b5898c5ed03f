/**
 One pooled log stream (frontend/src/lib/logStreams.ts): the ring is an array that is updated in place, the rest
 is fields. Every operation is proved against its counterpart on values in `LogRing` and `LogConn`.
 */
module LogStreams {
  import opened Options
  import opened Sequences
  import opened LogText
  import opened LogRing
  import opened LogConn

  /** What a ring of |b| slots holds, oldest first, when the next line goes to slot `head`. */
  function RingOf(b: seq<string>, head: nat, size: nat): seq<string>
    requires head <= |b| && size <= |b|
  {
    if size < |b| then b[..size] else b[head..] + b[..head]
  }

  predicate RingShape(b: seq<string>, head: nat, size: nat) {
    head < |b| && size <= |b| && (size < |b| ==> head == size)
  }

  lemma NextSlot(head: nat, cap: nat)
    requires head < cap
    ensures (head + 1) % cap == if head + 1 == cap then 0 else head + 1
  {
  }

  /** Writing at `head` and advancing it appends the line and drops the oldest one from a full ring. */
  lemma RingPush(b: seq<string>, head: nat, size: nat, line: string)
    requires RingShape(b, head, size)
    ensures var next := (head + 1) % |b|;
      var grown := if size < |b| then size + 1 else size;
      && RingShape(b[head := line], next, grown)
      && RingOf(b[head := line], next, grown) == LastN(RingOf(b, head, size) + [line], |b|)
  {
    NextSlot(head, |b|);
    var next := (head + 1) % |b|;
    var c := b[head := line];
    if size + 1 < |b| {
      assert c[..size + 1] == b[..size] + [line];
    } else if size < |b| {
      assert c == b[..size] + [line];
      assert c[0..] + c[..0] == c;
    } else if head + 1 < |b| {
      assert c[next..] + c[..next] == (b[head..] + b[..head] + [line])[1..];
    } else {
      assert c[0..] + c[..0] == (b[head..] + b[..head] + [line])[1..];
    }
  }

  lemma LastNTwice<T>(s: seq<T>, n: nat, x: T, m: nat)
    requires n <= |s| && n <= m
    ensures LastN(LastN(s, n) + [x], m) == LastN(s + [x], if n < m then n + 1 else n)
  {
  }

  /** The array holds the end of the history. */
  ghost predicate RingHolds(b: seq<string>, head: nat, size: nat, history: seq<string>) {
    && RingShape(b, head, size)
    && size <= |history|
    && RingOf(b, head, size) == LastN(history, size)
  }

  lemma RingPushHolds(b: seq<string>, head: nat, size: nat, history: seq<string>, line: string)
    requires RingHolds(b, head, size, history)
    ensures head < |b|
    ensures RingHolds(b[head := line], (head + 1) % |b|, if size < |b| then size + 1 else size, history + [line])
  {
    hide RingOf, LastN;
    RingPush(b, head, size, line);
    LastNTwice(history, size, line, |b|);
  }

  /** What a connection asks the server for: everything from a timestamp on, inclusive, or the last lines. */
  datatype Resume = Since(timestamp: string) | Tail(lines: Request)

  function ResumePoint(lastLineAt: Option<string>, follow: bool, since: Option<string>, tail: Request): Resume {
    if follow && lastLineAt.Some? && lastLineAt.value != "" then Since(lastLineAt.value)
    else if since.Some? && since.value != "" then Since(since.value)
    else Tail(tail)
  }

  /** Without a remembered line the start the user chose decides, or else the tail. */
  predicate FromOptions(from: Resume, since: Option<string>, tail: Request) {
    match from
    case Since(t) => since == Some(t) && t != ""
    case Tail(lines) => lines == tail && (since.None? || since.value == "")
  }

  /** One inbound line: its text and how the source's patterns classify it. */
  datatype Inbound = Inbound(text: string, kind: LineKind)

  /** The stream as a value. `appended` is the local flag of the message handler. */
  datatype View = View(log: Log, conn: Conn, appended: bool)

  function ReceiveLine(v: View, l: Inbound): View {
    if l.text == "" then v
    else if ReachesBuffer(v.conn, l.kind) && Accepts(v.log, l.text) then
      View(Push(v.log, l.text), OnLine(v.conn, l.kind, true), true)
    else v.(conn := OnLine(v.conn, l.kind, false))
  }

  function ReceiveAll(v: View, ls: seq<Inbound>): View {
    if ls == [] then v else ReceiveLine(ReceiveAll(v, ls[..|ls| - 1]), ls[|ls| - 1])
  }

  /** The message handler: the lines in order, then one state change if any was new. */
  function Receive(v: View, ls: seq<Inbound>): View {
    var w := ReceiveAll(v.(appended := false), ls);
    if w.appended then w.(conn := w.conn.(state := Streaming)) else w
  }

  /** What the connection sees of a message: the kind of each line, and whether the buffer accepts it. */
  function Heard(v: View, ls: seq<Inbound>): seq<(LineKind, bool)> {
    if ls == [] then []
    else
      var n := |ls| - 1;
      var l := ls[n];
      Heard(v, ls[..n]) + if l.text == "" then [] else [(l.kind, Accepts(ReceiveAll(v, ls[..n]).log, l.text))]
  }

  lemma HeardLine(v: View, l: Inbound)
    requires l.text != ""
    ensures var isNew, w := Accepts(v.log, l.text), ReceiveLine(v, l);
      && w.conn == OnLine(v.conn, l.kind, isNew)
      && w.appended == (v.appended || (ReachesBuffer(v.conn, l.kind) && isNew))
  {
  }

  lemma FeedSnoc(c: Conn, lines: seq<(LineKind, bool)>, x: (LineKind, bool))
    ensures Feed(c, lines + [x]) == OnLine(Feed(c, lines), x.0, x.1)
    ensures BringsNew(c, lines + [x]) == (BringsNew(c, lines) || (ReachesBuffer(Feed(c, lines), x.0) && x.1))
  {
    assert (lines + [x])[..|lines|] == lines;
  }

  lemma {:induction false} ReceiveAllIsFeed(v: View, ls: seq<Inbound>)
    ensures ReceiveAll(v, ls).conn == Feed(v.conn, Heard(v, ls))
    ensures ReceiveAll(v, ls).appended == (v.appended || BringsNew(v.conn, Heard(v, ls)))
  {
    hide ReceiveLine, OnLine, Accepts, ReachesBuffer;
    if ls != [] {
      var n := |ls| - 1;
      var w, l := ReceiveAll(v, ls[..n]), ls[n];
      ReceiveAllIsFeed(v, ls[..n]);
      if l.text == "" {
        assert ReceiveLine(w, l) == w by { EmptyLine(w, l); }
        assert Heard(v, ls) == Heard(v, ls[..n]);
      } else {
        HeardLine(w, l);
        FeedSnoc(v.conn, Heard(v, ls[..n]), (l.kind, Accepts(w.log, l.text)));
      }
    }
  }

  lemma EmptyLine(v: View, l: Inbound)
    requires l.text == ""
    ensures ReceiveLine(v, l) == v
  {
  }

  /** The message handler is a message event of the connection. */
  lemma ReceiveIsMessage(v: View, ls: seq<Inbound>)
    requires !v.appended
    ensures Receive(v, ls).conn == LogConn.OnMessage(v.conn, Heard(v, ls))
  {
    hide ReceiveAll, Feed, BringsNew, Heard;
    ReceiveAllIsFeed(v, ls);
    assert v.(appended := false) == v;
  }

  /** No timestamp is the empty text. */
  ghost predicate TimesAreTexts(clock: Clock) {
    forall line :: clock(line) != Some("")
  }

  lemma TimestampsAreTexts()
    ensures TimesAreTexts(LogLineTimestamp)
  {
    forall line
      ensures LogLineTimestamp(line) != Some("")
    {
      if LogLineTimestamp(line) == Some("") {
        FoundFraction(line, "", FractionEnd(line, 19));
      }
    }
  }

  class LogStream {
    /** How the stream reads timestamps; the constructor sets it to `LogLineTimestamp`. */
    const clock: Clock
    var bufferCap: Cap
    var buf: array<string>
    var head: nat
    var size: nat
    var totalAppended: nat
    var seenLineKeys: set<string>
    var seenLineQueue: seq<string>
    var lastLineAt: Option<string>
    var conn: Conn
    var optsTail: Request
    var optsSince: Option<string>
    ghost var history: seq<string>

    ghost function Contents(): Log
      reads this
    {
      Log(clock, bufferCap, history, size, seenLineQueue, lastLineAt)
    }

    ghost predicate ValidRing()
      reads `bufferCap, `buf, `head, `size, `totalAppended, `history, buf
    {
      && buf.Length == bufferCap
      && RingHolds(buf[..], head, size, history)
      && totalAppended == |history|
    }

    ghost predicate Valid()
      reads this, buf
    {
      && ValidRing()
      && seenLineKeys == Elements(seenLineQueue)
      && Coupled(Contents())
      && TimesAreTexts(clock)
    }

    constructor (tail: Request, follow: bool, since: Option<string>)
      ensures Valid() && Contents() == Empty(LogLineTimestamp, ClampBufferCap(tail)) && conn == NewConn(follow)
      ensures optsTail == tail && optsSince == since
    {
      clock := LogLineTimestamp;
      var cap := ClampBufferCap(tail);
      bufferCap := cap;
      buf := new string[cap](_ => "");
      head, size, totalAppended := 0, 0, 0;
      seenLineKeys, seenLineQueue, lastLineAt := {}, [], None;
      conn := NewConn(follow);
      optsTail, optsSince := tail, since;
      history := [];
      new;
      hide RingHolds, Coupled, TimesAreTexts, LogLineTimestamp, ClampBufferCap;
      TimestampsAreTexts();
      EmptyRingHolds(buf[..], []);
      EmptyIsCoupled(clock, bufferCap);
      assert Contents() == Empty(clock, bufferCap) && ValidRing();
    }

    method ReadBuf() returns (lines: seq<string>)
      requires ValidRing()
      ensures lines == Contents().Lines()
    {
      assert buf[..][..size] == buf[0..size];
      if size < bufferCap {
        lines := CopyOut(buf, 0, size);
      } else {
        assert buf[..][head..] == buf[head..bufferCap] && buf[..][..head] == buf[0..head];
        var older := CopyOut(buf, head, bufferCap);
        var newer := CopyOut(buf, 0, head);
        lines := older + newer;
      }
    }

    /** The displayed lines with the number of the first: they are the end of the stream's whole history. */
    method GetLinesWithSeq() returns (lines: seq<string>, firstSeq: int)
      requires ValidRing()
      ensures 1 <= firstSeq <= |history| + 1 && lines == history[firstSeq - 1..]
    {
      hide RingHolds;
      RingBounds(buf[..], head, size, history);
      lines := ReadBuf();
      firstSeq := totalAppended - size + 1;
    }

    method PushLine(line: string) returns (accepted: bool)
      requires Valid()
      modifies this, buf
      ensures Valid() && buf == old(buf) && conn == old(conn)
      ensures accepted == Accepts(old(Contents()), line)
      ensures Contents() == Push(old(Contents()), line)
    {
      PushCases(Contents(), line);
      hide Coupled, ValidRing, RingHolds, LastN, IsSuffix, NoDup, TimesAreTexts, Push, Accepts, Elements;
      PushKeepsCoupling(Contents(), line);
      CoupledQueue(Contents());
      KeyIsKnown(seenLineQueue, line);
      if clock(line).Some? && line in seenLineKeys {
        return false;
      }
      Take(line);
      return true;
    }

    /** `pushLine` for a line that is not a duplicate. */
    method Take(line: string)
      requires ValidRing() && seenLineKeys == Elements(seenLineQueue) && NoDup(seenLineQueue)
      requires clock(line).Some? ==> line !in seenLineQueue
      modifies this`head, this`size, this`totalAppended, this`history, this`lastLineAt, buf
      modifies this`seenLineKeys, this`seenLineQueue
      ensures ValidRing() && seenLineKeys == Elements(seenLineQueue)
      ensures history == old(history) + [line]
      ensures size == if old(size) < bufferCap then old(size) + 1 else old(size)
      ensures lastLineAt == if clock(line).Some? then clock(line) else old(lastLineAt)
      ensures seenLineQueue ==
        if clock(line).Some? then LastN(old(seenLineQueue) + [line], bufferCap) else old(seenLineQueue)
    {
      hide ValidRing, RingHolds, LastN, NoDup, Elements;
      var ts := clock(line);
      Append(line);
      if ts.Some? {
        lastLineAt := ts;
        Remember(line);
      }
    }

    /** The ring side of `pushLine`. */
    method Append(line: string)
      requires ValidRing()
      modifies this`head, this`size, this`totalAppended, this`history, buf
      ensures ValidRing()
      ensures history == old(history) + [line]
      ensures size == if old(size) < bufferCap then old(size) + 1 else old(size)
    {
      hide RingHolds;
      ghost var before := buf[..];
      RingPushHolds(before, head, size, history, line);
      buf[head] := line;
      assert buf[..] == before[head := line];
      head := (head + 1) % bufferCap;
      if size < bufferCap {
        size := size + 1;
      }
      totalAppended := totalAppended + 1;
      history := history + [line];
    }

    method Remember(key: string)
      requires seenLineKeys == Elements(seenLineQueue) && NoDup(seenLineQueue) && key !in seenLineQueue
      modifies this`seenLineKeys, this`seenLineQueue
      ensures seenLineKeys == Elements(seenLineQueue)
      ensures seenLineQueue == LastN(old(seenLineQueue) + [key], bufferCap)
    {
      NoDupSnoc(seenLineQueue, key);
      seenLineKeys := seenLineKeys + {key};
      seenLineQueue := seenLineQueue + [key];
      TrimSeen();
    }

    method ClearLines()
      requires Valid()
      modifies this, buf
      ensures Valid() && buf == old(buf) && conn == old(conn) && optsTail == old(optsTail)
      ensures Contents() == Clear(old(Contents()))
      ensures size == 0 && seenLineKeys == {} && seenLineQueue == [] && lastLineAt == None
      ensures bufferCap == old(bufferCap) && totalAppended == old(totalAppended) && history == old(history)
    {
      hide Coupled, RingHolds;
      ClearKeepsCoupling(Contents());
      RingBounds(buf[..], head, size, history);
      head, size := 0, 0;
      seenLineKeys, seenLineQueue, lastLineAt := {}, [], None;
      for i := 0 to buf.Length
        modifies buf
      {
        buf[i] := "";
      }
      EmptyRingHolds(buf[..], history);
    }

    /** `setBufferCap` in trim mode: the ring is laid out anew and the newest lines survive. */
    method SetBufferCap(cap: Request)
      requires Valid()
      modifies this
      ensures Valid() && conn == old(conn) && optsTail == old(optsTail)
      ensures Contents() == Resize(old(Contents()), ClampBufferCap(cap)) && bufferCap == ClampBufferCap(cap)
    {
      hide Coupled, RingHolds, LastN, NoDup, ClampBufferCap;
      var next := ClampBufferCap(cap);
      ResizeKeepsCoupling(Contents(), next);
      CoupledQueue(Contents());
      if next == bufferCap {
        return;
      }
      Relayout(next);
      TrimSeen();
    }

    /** Copies the newest lines that fit into a new array of `next` slots. */
    method Relayout(next: Cap)
      requires ValidRing()
      modifies this`buf, this`size, this`head, this`bufferCap
      ensures ValidRing() && bufferCap == next
      ensures size == if old(size) <= next then old(size) else next
    {
      hide RingHolds, LastN;
      RingBounds(buf[..], head, size, history);
      var lines := ReadBuf();
      var keep := LastN(lines, next);
      var resized := CopyIn(keep, next);
      WrapHead(|keep|, next);
      FreshRingHolds(resized[..], keep, history, size, |keep| % next);
      buf, bufferCap, size, head := resized, next, |keep|, |keep| % next;
    }

    /** `setBufferCap` in refetch mode: an empty ring, and a new connection that asks the server for its tail. */
    method RefetchBuffer(cap: Request, serverTail: Option<Request>) returns (from: Resume)
      requires Valid()
      modifies this
      ensures Valid() && conn == Reconnect(old(conn))
      ensures Contents() == Refetch(old(Contents()), ClampBufferCap(cap))
      ensures OneToken(old(conn)) && !conn.closed ==> OneToken(conn)
      ensures bufferCap == ClampBufferCap(cap) && size == 0 && totalAppended == old(totalAppended)
      ensures seenLineQueue == [] && lastLineAt == None
      ensures FromOptions(from, optsSince, optsTail) && optsSince == old(optsSince)
      ensures optsTail == Finite(ClampBufferCap(if serverTail.Some? then serverTail.value else cap) as real)
    {
      hide Coupled, RingHolds, ClampBufferCap, Connect, ResetForReconnect, ResumePoint, Elements;
      optsTail := Finite(ClampBufferCap(if serverTail.Some? then serverTail.value else cap) as real);
      DropRing(ClampBufferCap(cap));
      ResetIsUnconnected(conn);
      conn := ResetForReconnect(conn);
      from := OpenSocket();
    }

    /** `reconnect`: the buffer stays, the connection starts over. */
    method ReconnectNow() returns (from: Resume)
      requires Valid()
      modifies this`conn
      ensures Valid() && Contents() == old(Contents()) && conn == Reconnect(old(conn))
      ensures (OneToken(old(conn)) || Dormant(old(conn))) && !conn.closed ==> OneToken(conn)
      ensures conn.follow && seenLineQueue != [] ==> from == Since(NewestTime(clock, seenLineQueue))
      ensures !conn.follow || seenLineQueue == [] ==> FromOptions(from, optsSince, optsTail)
    {
      hide Coupled, RingHolds, Connect, ResetForReconnect, ResumePoint, Elements, OneToken;
      ResetIsUnconnected(conn);
      conn := ResetForReconnect(conn);
      from := OpenSocket();
    }

    /** `open` of a stream that is already pooled: the ring may grow but not shrink, a dormant stream connects. */
    method OpenAgain(tail: Request) returns (from: Option<Resume>)
      requires Valid() && !conn.closed
      modifies this
      ensures Valid() && conn == Reopen(old(conn)) && optsTail == old(optsTail)
      ensures bufferCap >= old(bufferCap) && bufferCap >= ClampBufferCap(tail)
      ensures Contents() == Resize(old(Contents()), bufferCap) && Contents().Lines() == old(Contents()).Lines()
      ensures OneToken(old(conn)) || Dormant(old(conn)) ==> OneToken(conn)
      ensures from.Some? <==> old(conn).follow && old(conn).ws == None && old(conn).retryTimer == None
                              && old(conn).state == Reconnecting
      ensures from.Some? && seenLineQueue != [] ==> from.value == Since(NewestTime(clock, seenLineQueue))
      ensures from.Some? && seenLineQueue == [] ==> FromOptions(from.value, optsSince, optsTail)
    {
      hide Coupled, RingHolds, Reconnect, Elements, OneToken, ClampBufferCap;
      GrowingKeepsLines(Contents(), ClampBufferCap(tail));
      from := None;
      if ClampBufferCap(tail) > bufferCap {
        SetBufferCap(tail);
      }
      if conn.follow && conn.ws.None? && conn.retryTimer.None? && conn.state == Reconnecting {
        ResetIsUnconnected(conn);
        var asked := ReconnectNow();
        from := Some(asked);
      }
    }

    /** `close`: the stream leaves the pool; neither a socket nor a timer of its own stays behind. */
    method CloseForGood()
      modifies this`conn
      ensures conn == Close(old(conn))
      ensures OneToken(old(conn)) ==> OneToken(conn) && conn.sockets == {} && conn.timers == map[]
    {
      conn := CloseSocket(conn.(closed := true));
    }

    /** The retry timer fires. */
    method RetryFired(timer: nat) returns (from: Resume)
      requires Valid()
      modifies this`conn
      ensures Valid() && Contents() == old(Contents()) && conn == OnTimer(old(conn), timer)
      ensures OneToken(old(conn)) && timer in old(conn).timers ==> OneToken(conn)
      ensures conn.follow && seenLineQueue != [] ==> from == Since(NewestTime(clock, seenLineQueue))
      ensures !conn.follow || seenLineQueue == [] ==> FromOptions(from, optsSince, optsTail)
    {
      hide Coupled, RingHolds, Connect, ResumePoint, Elements;
      FiredIsUnconnected(conn, timer);
      conn := conn.(retryTimer := None, timers := conn.timers - {timer});
      from := OpenSocket();
    }

    /** Replaces the ring by an empty one of `next` slots and forgets the keys; line numbers go on. */
    method DropRing(next: Cap)
      requires Valid()
      modifies this`bufferCap, this`buf, this`head, this`size, this`seenLineKeys, this`seenLineQueue, this`lastLineAt
      ensures Valid() && Contents() == Refetch(old(Contents()), next)
    {
      hide Coupled, RingHolds;
      RefetchKeepsCoupling(Contents(), next);
      bufferCap := next;
      buf := new string[next](_ => "");
      EmptyRingHolds(buf[..], history);
      head, size := 0, 0;
      seenLineKeys, seenLineQueue, lastLineAt := {}, [], None;
    }

    /**
     `connect`: opens a socket, unless the stream was closed. A following stream that remembers a timestamped line
     asks for everything from the newest one's time on; otherwise the chosen start or the tail decides.
     */
    method OpenSocket() returns (from: Resume)
      requires Valid()
      modifies this`conn
      ensures Valid() && conn == Connect(old(conn))
      ensures Unconnected(old(conn)) && !conn.closed ==> OneToken(conn)
      ensures conn.follow && seenLineQueue != [] ==> from == Since(NewestTime(clock, seenLineQueue))
      ensures !conn.follow || seenLineQueue == [] ==> FromOptions(from, optsSince, optsTail)
      ensures from == ResumePoint(lastLineAt, conn.follow, optsSince, optsTail)
    {
      NewestIsLast(Contents());
      ConnectHasOneToken(conn);
      AsksFromNewest(Contents(), conn.follow, optsSince, optsTail);
      hide RingHolds, Coupled, OneToken, Unconnected, NewestTime, ResumePoint, Elements;
      from := ResumePoint(lastLineAt, conn.follow, optsSince, optsTail);
      Dial();
    }

    /** The connection side of `connect`. */
    method Dial()
      modifies this`conn
      ensures conn == Connect(old(conn))
    {
      if conn.closed {
        return;
      }
      if conn.state != Reconnecting {
        conn := conn.(state := Connecting);
      }
      conn := conn.(gotData := false, transientErr := false, connectedAt := 0, appended := false);
      conn := conn.(ws := Some(conn.nextSocket), sockets := conn.sockets + {conn.nextSocket},
                    nextSocket := conn.nextSocket + 1);
    }

    /** The open handler: a close event within the next two seconds, before any new line, counts as fast and empty. */
    method OnSocketOpened(socket: nat, now: int)
      modifies this`conn
      ensures conn == OnOpen(old(conn), socket, now)
      ensures now > 0 && !conn.appended ==> forall later :: FastEmptyClose(conn, later) <==> later < now + 2_000
    {
      conn := conn.(state := Streaming, connectedAt := now, begun := conn.begun + {socket});
    }

    /** The message handler. */
    method OnMessage(ls: seq<Inbound>)
      requires Valid()
      modifies this, buf
      ensures Valid() && buf == old(buf)
      ensures ViewIs(Receive(View(old(Contents()), old(conn), false), ls))
      ensures conn == LogConn.OnMessage(old(conn), Heard(View(old(Contents()), old(conn), false), ls))
    {
      hide Coupled, RingHolds, Push, OnLine, Accepts;
      var appended := false;
      for i := 0 to |ls|
        invariant Valid() && buf == old(buf)
        invariant View(Contents(), conn, appended) == ReceiveAll(View(old(Contents()), old(conn), false), ls[..i])
      {
        assert ls[..i + 1][..i] == ls[..i];
        var isNew := OneLine(ls[i]);
        appended := appended || isNew;
      }
      assert ls[..|ls|] == ls;
      ReceiveIsMessage(View(old(Contents()), old(conn), false), ls);
      if appended {
        conn := conn.(state := Streaming);
      }
    }

    ghost predicate ViewIs(v: View)
      reads this
    {
      Contents() == v.log && conn == v.conn
    }

    /** One line of a message: a notice, a duplicate, or a new line of the ring. */
    method OneLine(l: Inbound) returns (isNew: bool)
      requires Valid()
      modifies this, buf
      ensures Valid() && buf == old(buf)
      ensures View(Contents(), conn, isNew) == ReceiveLine(View(old(Contents()), old(conn), false), l)
    {
      hide Coupled, RingHolds, Push, Accepts;
      isNew := false;
      if l.text == "" {
        return;
      }
      if !conn.gotData && l.kind == GoneNotice {
        conn := conn.(state := PodGone);
        return;
      }
      if !conn.gotData && l.kind == TransientNotice {
        conn := conn.(transientErr := true, state := Waiting);
        return;
      }
      conn := conn.(gotData := true);
      if !Accepts(Contents(), l.text) {
        RejectedPush(Contents(), l.text);
      }
      isNew := PushLine(l.text);
      if isNew {
        conn := conn.(appended := true, blindRetries := 0, fastEmptyCloses := 0);
      }
    }

    /**
     The close handler; it does not look at which socket closed, so one socket or timer is left only if the close
     is the current socket's, or nothing else is there to forget.
     */
    method OnSocketClosed(socket: nat, now: int)
      modifies this`conn
      ensures conn == OnClose(old(conn), socket, now)
      ensures OneToken(old(conn)) ==> (OneToken(conn) <==> Tame(old(conn), Closes(socket, now)))
    {
      ghost var before := conn;
      if OneToken(before) {
        CloseIsTame(before, socket, now);
      }
      hide OneToken, Tame;
      conn := conn.(ws := None, sockets := conn.sockets - {socket}, closing := conn.closing - {socket});
      if conn.closed || conn.state == PodGone || conn.state == Error {
        return;
      }
      if !conn.gotData && conn.transientErr {
        conn := Arm(conn, TRANSIENT_RETRY_MS);
        return;
      }
      if FastEmptyClose(conn, now) {
        conn := conn.(fastEmptyCloses := conn.fastEmptyCloses + 1);
      } else if conn.appended {
        conn := conn.(fastEmptyCloses := 0);
      }
      if conn.fastEmptyCloses >= FAST_EMPTY_GIVEUP {
        conn := conn.(state := Ended);
        return;
      }
      if !conn.appended {
        conn := conn.(blindRetries := conn.blindRetries + 1);
      }
      Reschedule();
    }

    /** `scheduleReconnect`: ends an exhausted stream that does not follow, otherwise arms the backoff timer. */
    method Reschedule()
      modifies this`conn
      ensures conn == ScheduleReconnect(old(conn))
    {
      if conn.closed {
        return;
      }
      if !conn.follow && conn.blindRetries >= MAX_BLIND_RETRIES {
        conn := conn.(state := Ended);
        return;
      }
      var delay := Backoff(conn.blindRetries);
      conn := conn.(state := Reconnecting);
      conn := Arm(conn, delay);
    }

    /** Drops the oldest keys until as many as the ring may hold are left. */
    method TrimSeen()
      requires seenLineKeys == Elements(seenLineQueue) && NoDup(seenLineQueue)
      modifies this`seenLineKeys, this`seenLineQueue
      ensures seenLineKeys == Elements(seenLineQueue)
      ensures seenLineQueue == LastN(old(seenLineQueue), bufferCap)
    {
      hide Elements, NoDup, IsSuffix, LastN;
      SuffixOfItself(seenLineQueue);
      while |seenLineQueue| > bufferCap
        invariant seenLineKeys == Elements(seenLineQueue) && NoDup(seenLineQueue)
        invariant IsSuffix(seenLineQueue, old(seenLineQueue))
        invariant |seenLineQueue| >= |LastN(old(seenLineQueue), bufferCap)|
      {
        FirstIsGone(seenLineQueue);
        TailIsSuffix(seenLineQueue, old(seenLineQueue));
        var oldest := seenLineQueue[0];
        seenLineQueue := seenLineQueue[1..];
        seenLineKeys := seenLineKeys - {oldest};
      }
      SuffixIsLastN(seenLineQueue, old(seenLineQueue), bufferCap);
    }
  }

  lemma SuffixOfItself(s: seq<string>)
    ensures IsSuffix(s, s)
  {
  }

  lemma TailIsSuffix(a: seq<string>, b: seq<string>)
    requires IsSuffix(a, b) && a != []
    ensures IsSuffix(a[1..], b)
  {
  }

  lemma SuffixIsLastN(a: seq<string>, b: seq<string>, n: nat)
    requires IsSuffix(a, b) && |LastN(b, n)| <= |a| <= n
    ensures a == LastN(b, n)
  {
  }

  /** Neither a socket nor a timer. */
  predicate Unconnected(c: Conn) {
    c.ws.None? && c.retryTimer.None? && c.sockets == {} && c.timers == map[]
  }

  lemma ResetIsUnconnected(c: Conn)
    ensures OneToken(c) || Dormant(c) ==> Unconnected(ResetForReconnect(c))
    ensures ResetForReconnect(c).closed == c.closed && ResetForReconnect(c).follow == c.follow
    ensures Reconnect(c) == Connect(ResetForReconnect(c))
    ensures Reconnect(c).closed == c.closed
  {
  }

  lemma KeyIsKnown(queue: seq<string>, key: string)
    ensures key in Elements(queue) <==> key in queue
  {
  }

  lemma PushCases(g: Log, line: string)
    ensures Accepts(g, line) <==> !(g.clock(line).Some? && line in g.queue)
    ensures !Accepts(g, line) ==> Push(g, line) == g
    ensures var h := g.(history := g.history + [line], size := if g.size < g.cap then g.size + 1 else g.size);
      Accepts(g, line) ==>
        Push(g, line) ==
          if g.clock(line).Some? then h.(queue := LastN(g.queue + [line], g.cap), last := g.clock(line)) else h
  {
  }

  lemma GrowingKeepsLines(g: Log, next: Cap)
    requires Coupled(g)
    ensures Resize(g, g.cap) == g
    ensures next > g.cap ==> Resize(g, next).Lines() == g.Lines()
  {
  }

  lemma FiredIsUnconnected(c: Conn, timer: nat)
    ensures OneToken(c) && timer in c.timers ==>
      Unconnected(c.(retryTimer := None, timers := c.timers - {timer})) && !c.closed
    ensures OnTimer(c, timer).closed == c.closed
  {
    if OneToken(c) && timer in c.timers {
      assert timer in c.timers.Keys;
      assert (c.timers - {timer}).Keys == {};
    }
  }

  lemma CloseIsTame(c: Conn, socket: nat, now: int)
    requires OneToken(c)
    ensures OneToken(OnClose(c, socket, now)) <==> Tame(c, Closes(socket, now))
  {
    if c.ws == Some(socket) {
      CurrentCloseKeepsOneToken(c, socket, now);
    } else {
      StaleCloseIff(c, socket, now);
    }
  }

  /** The time of the newest remembered line. */
  function NewestTime(clock: Clock, queue: seq<string>): string
    requires queue != []
  {
    var t := clock(queue[|queue| - 1]);
    if t.Some? then t.value else ""
  }

  lemma NewestIsLast(g: Log)
    requires Coupled(g) && TimesAreTexts(g.clock)
    ensures g.last == (if g.queue == [] then None else Some(NewestTime(g.clock, g.queue))) && g.last != Some("")
  {
    hide NoDup, IsSuffix;
    if g.queue != [] {
      assert IsStamped(g.clock, g.queue[|g.queue| - 1]);
    }
  }

  lemma AsksFromNewest(g: Log, follow: bool, since: Option<string>, tail: Request)
    requires g.last == (if g.queue == [] then None else Some(NewestTime(g.clock, g.queue))) && g.last != Some("")
    ensures follow && g.queue != [] ==> ResumePoint(g.last, follow, since, tail) == Since(NewestTime(g.clock, g.queue))
    ensures !follow || g.queue == [] ==>
      FromOptions(ResumePoint(g.last, follow, since, tail), since, tail)
  {
  }

  lemma ConnectHasOneToken(c: Conn)
    ensures Unconnected(c) && !c.closed ==> OneToken(Connect(c))
  {
  }

  lemma LastNOfLastN<T>(s: seq<T>, n: nat, m: nat)
    requires n <= |s|
    ensures LastN(LastN(s, n), m) == LastN(s, |LastN(LastN(s, n), m)|)
    ensures |LastN(LastN(s, n), m)| <= m
  {
  }

  lemma WrapHead(n: nat, cap: nat)
    requires n <= cap && cap > 0
    ensures 0 <= n % cap
    ensures n % cap == if n == cap then 0 else n
  {
  }

  /** A ring laid out from slot 0, after a resize. */
  lemma FreshRingHolds(b: seq<string>, keep: seq<string>, history: seq<string>, size: nat, head: nat)
    requires b != [] && size <= |history| && keep == LastN(LastN(history, size), |b|) && b[..|keep|] == keep
    requires head == if |keep| == |b| then 0 else |keep|
    ensures RingHolds(b, head, |keep|, history)
  {
    hide LastN;
    LastNOfLastN(history, size, |b|);
    if |keep| == |b| {
      assert b[0..] + b[..0] == keep;
    }
  }

  lemma RingBounds(b: seq<string>, head: nat, size: nat, history: seq<string>)
    requires RingHolds(b, head, size, history)
    ensures size <= |b| && size <= |history| && b != []
  {
  }

  lemma EmptyRingHolds(b: seq<string>, history: seq<string>)
    requires b != []
    ensures RingHolds(b, 0, 0, history)
  {
  }

  lemma EmptyIsCoupled(clock: Clock, cap: Cap)
    ensures Coupled(Empty(clock, cap)) && Elements(Empty(clock, cap).queue) == {}
  {
  }

  lemma CoupledQueue(g: Log)
    requires Coupled(g)
    ensures NoDup(g.queue)
  {
  }

  /** Shifting a duplicate-free queue removes exactly its first element. */
  lemma FirstIsGone(queue: seq<string>)
    requires queue != [] && NoDup(queue)
    ensures NoDup(queue[1..]) && Elements(queue[1..]) == Elements(queue) - {queue[0]}
  {
    NoDupDrop(queue, 1);
    forall x | x in queue[1..]
      ensures x != queue[0]
    {
      var j :| 1 <= j < |queue| && queue[j] == x;
      NoDupAt(queue, 0, j);
    }
    assert queue == [queue[0]] + queue[1..];
  }

  /** A new array of n slots that starts with the given lines. */
  method CopyIn(lines: seq<string>, n: nat) returns (a: array<string>)
    requires |lines| <= n
    ensures fresh(a) && a.Length == n && a[..][..|lines|] == lines
  {
    a := new string[n](_ => "");
    for i := 0 to |lines|
      invariant a[..i] == lines[..i]
    {
      a[i] := lines[i];
    }
    assert a[..][..|lines|] == a[..|lines|];
  }

  method CopyOut(a: array<string>, lo: nat, hi: nat) returns (out: seq<string>)
    requires lo <= hi <= a.Length
    ensures out == a[lo..hi]
  {
    out := [];
    for i := lo to hi
      invariant out == a[lo..i]
    {
      out := out + [a[i]];
    }
  }
}
