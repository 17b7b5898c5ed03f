/**
 The buffer of one log stream as a value: what frontend/src/lib/logStreams.ts keeps in `buf`, `size`,
 `totalAppended`, `seenLineQueue` and `lastLineAt`. The whole sequence of lines ever appended stands for the
 counter `totalAppended`, and the ring is its last `size` lines.
 */
module LogRing {
  import opened Options
  import opened Sequences

  const ABSOLUTE_MAX_LINES := 20_000
  const DEFAULT_BUFFER_CAP := 500

  /** A ring size after clamping. */
  type Cap = n: nat | 1 <= n <= ABSOLUTE_MAX_LINES witness 1

  /** How a stream reads the timestamp of a line; `LogText.LogLineTimestamp` is the one in use. */
  type Clock = string -> Option<string>

  predicate IsStamped(clock: Clock, line: string) {
    clock(line).Some?
  }

  /** The lines that carry a timestamp, in order. */
  function Stamped(clock: Clock, s: seq<string>): (r: seq<string>)
    ensures |r| <= |s|
    ensures forall x :: x in r ==> x in s && IsStamped(clock, x)
  {
    if s == [] then []
    else
      var rest := Stamped(clock, s[..|s| - 1]);
      if IsStamped(clock, s[|s| - 1]) then rest + [s[|s| - 1]] else rest
  }

  lemma {:induction false} StampedConcat(clock: Clock, a: seq<string>, b: seq<string>)
    ensures Stamped(clock, a + b) == Stamped(clock, a) + Stamped(clock, b)
  {
    if b == [] {
      assert a + b == a;
    } else {
      assert (a + b)[..|a + b| - 1] == a + b[..|b| - 1];
      StampedConcat(clock, a, b[..|b| - 1]);
    }
  }

  lemma {:induction false} StampedMember(clock: Clock, s: seq<string>, x: string)
    requires x in s && IsStamped(clock, x)
    ensures x in Stamped(clock, s)
  {
    if x != s[|s| - 1] {
      StampedMember(clock, s[..|s| - 1], x);
    }
  }

  datatype Log =
    Log(clock: Clock, cap: Cap, history: seq<string>, size: nat, queue: seq<string>, last: Option<string>) {

    /** The lines in the ring, oldest first. */
    function Lines(): (r: seq<string>)
      ensures |r| <= size
    {
      LastN(history, size)
    }

    /** The stream-monotonic number (from 1) of the oldest line in the ring. */
    function FirstSeq(): int {
      |history| - size + 1
    }
  }

  /** A requested number of lines; the caller may pass nothing, NaN or an infinity. */
  datatype Request = Unspecified | NotFinite | Finite(value: real)

  function ClampBufferCap(n: Request): (cap: Cap)
    ensures n.Finite? && 1.0 <= n.value <= 20_000.0 ==> cap as real <= n.value < cap as real + 1.0
    ensures n.Finite? && 0.0 < n.value < 1.0 ==> cap == 1
    ensures n.Finite? && n.value > 20_000.0 ==> cap == 20_000
    ensures !n.Finite? || n.value <= 0.0 ==> cap == 500
  {
    if !n.Finite? || n.value <= 0.0 then DEFAULT_BUFFER_CAP
    else
      var whole := n.value.Floor;
      var atLeastOne := if whole < 1 then 1 else whole;
      if atLeastOne > ABSOLUTE_MAX_LINES then ABSOLUTE_MAX_LINES else atLeastOne
  }

  function Empty(clock: Clock, cap: Cap): Log {
    Log(clock, cap, [], 0, [], None)
  }

  predicate Accepts(g: Log, line: string) {
    !(IsStamped(g.clock, line) && line in g.queue)
  }

  /** `pushLine`: a line whose key is still remembered is dropped, any other line is appended. */
  function Push(g: Log, line: string): Log {
    if !Accepts(g, line) then g
    else
      var h := g.(history := g.history + [line], size := if g.size < g.cap then g.size + 1 else g.size);
      if IsStamped(g.clock, line) then h.(queue := LastN(g.queue + [line], g.cap), last := g.clock(line)) else h
  }

  function PushAll(g: Log, lines: seq<string>): Log
    decreases |lines|
  {
    if lines == [] then g else PushAll(Push(g, lines[0]), lines[1..])
  }

  /** `setBufferCap` in trim mode. */
  function Resize(g: Log, next: Cap): Log {
    if next == g.cap then g
    else g.(cap := next, size := if g.size <= next then g.size else next, queue := LastN(g.queue, next))
  }

  /** `clearLines`. */
  function Clear(g: Log): Log {
    g.(size := 0, queue := [], last := None)
  }

  /** The buffer side of `setBufferCap` in refetch mode. */
  function Refetch(g: Log, next: Cap): Log {
    Clear(g).(cap := next)
  }

  // ---- the invariant that ties ring, de-duplication queue and last timestamp together ----

  /** The remembered keys: distinct timestamped lines, at most `cap`, the newest of which dates the stream. */
  ghost predicate QueueOk(clock: Clock, queue: seq<string>, cap: nat, last: Option<string>) {
    && |queue| <= cap
    && NoDup(queue)
    && (forall i :: 0 <= i < |queue| ==> IsStamped(clock, queue[i]))
    && last == (if queue == [] then None else clock(queue[|queue| - 1]))
  }

  ghost predicate Coupled(g: Log) {
    && g.size <= g.cap && g.size <= |g.history|
    && QueueOk(g.clock, g.queue, g.cap, g.last)
    && IsSuffix(Stamped(g.clock, g.Lines()), g.queue)
  }

  lemma TrimmedQueue(clock: Clock, queue: seq<string>, cap: nat, next: nat, last: Option<string>)
    requires QueueOk(clock, queue, cap, last) && 1 <= next
    ensures QueueOk(clock, LastN(queue, next), next, last)
  {
    if |queue| > next {
      NoDupDrop(queue, |queue| - next);
    }
  }

  lemma PushedQueue(clock: Clock, queue: seq<string>, cap: nat, last: Option<string>, line: string)
    requires QueueOk(clock, queue, cap, last) && IsStamped(clock, line) && line !in queue
    ensures QueueOk(clock, queue + [line], cap + 1, clock(line))
  {
    NoDupSnoc(queue, line);
  }

  lemma StampedOfSuffix(clock: Clock, a: seq<string>, b: seq<string>)
    requires IsSuffix(a, b)
    ensures IsSuffix(Stamped(clock, a), Stamped(clock, b))
  {
    var rest := b[..|b| - |a|];
    assert b == rest + a;
    StampedConcat(clock, rest, a);
  }

  lemma StampedSnoc(clock: Clock, a: seq<string>, line: string)
    ensures Stamped(clock, a + [line]) == Stamped(clock, a) + (if IsStamped(clock, line) then [line] else [])
  {
    assert (a + [line])[..|a + [line]| - 1] == a;
  }

  /** A key list is trimmed from the front, so its newest `cap` keys still end with the ring's. */
  lemma TrimKeepsRing(ring: seq<string>, queue: seq<string>, cap: nat)
    requires IsSuffix(ring, queue) && |ring| <= cap
    ensures IsSuffix(ring, LastN(queue, cap))
  {
    ShorterSuffix(ring, LastN(queue, cap), queue);
  }

  lemma PushedLines(history: seq<string>, size: nat, next: nat, line: string)
    requires size <= |history| && next <= size + 1
    ensures IsSuffix(LastN(history + [line], next), LastN(history, size) + [line])
  {
    SuffixSnoc(LastN(history, size), history, line);
    ShorterSuffix(LastN(history + [line], next), LastN(history, size) + [line], history + [line]);
  }

  /** What appending one line to the history does to the ring's timestamped lines. */
  lemma PushedStamped(clock: Clock, history: seq<string>, size: nat, next: nat, line: string, queue: seq<string>)
    requires size <= |history| && next <= size + 1
    requires IsSuffix(Stamped(clock, LastN(history, size)), queue)
    ensures IsSuffix(Stamped(clock, LastN(history + [line], next)),
                     if IsStamped(clock, line) then queue + [line] else queue)
  {
    var before, after := LastN(history, size), LastN(history + [line], next);
    PushedLines(history, size, next, line);
    StampedOfSuffix(clock, after, before + [line]);
    StampedSnoc(clock, before, line);
    if IsStamped(clock, line) {
      SuffixSnoc(Stamped(clock, before), queue, line);
      SuffixTransitive(Stamped(clock, after), Stamped(clock, before) + [line], queue + [line]);
    } else {
      assert Stamped(clock, before) + [] == Stamped(clock, before);
      SuffixTransitive(Stamped(clock, after), Stamped(clock, before), queue);
    }
  }

  lemma PushStampedKeepsQueue(clock: Clock, queue: seq<string>, cap: Cap, last: Option<string>, line: string)
    requires QueueOk(clock, queue, cap, last) && IsStamped(clock, line) && line !in queue
    ensures QueueOk(clock, LastN(queue + [line], cap), cap, clock(line))
  {
    PushedQueue(clock, queue, cap, last, line);
    TrimmedQueue(clock, queue + [line], cap + 1, cap, clock(line));
  }

  lemma PushStampedKeepsCoupling(g: Log, line: string)
    requires Coupled(g) && IsStamped(g.clock, line) && line !in g.queue
    ensures Coupled(Push(g, line))
  {
    var h := Push(g, line);
    PushedStamped(g.clock, g.history, g.size, h.size, line, g.queue);
    TrimKeepsRing(Stamped(g.clock, h.Lines()), g.queue + [line], g.cap);
    PushStampedKeepsQueue(g.clock, g.queue, g.cap, g.last, line);
  }

  lemma PushPlainKeepsCoupling(g: Log, line: string)
    requires Coupled(g) && !IsStamped(g.clock, line)
    ensures Coupled(Push(g, line))
  {
    PushedStamped(g.clock, g.history, g.size, Push(g, line).size, line, g.queue);
  }

  lemma PushKeepsCoupling(g: Log, line: string)
    requires Coupled(g)
    ensures Coupled(Push(g, line))
  {
    if !IsStamped(g.clock, line) {
      PushPlainKeepsCoupling(g, line);
    } else if line !in g.queue {
      PushStampedKeepsCoupling(g, line);
    }
  }

  lemma ResizedLines(g: Log, next: Cap)
    requires g.size <= |g.history|
    ensures Resize(g, next).Lines() == if next == g.cap then g.Lines() else LastN(g.Lines(), next)
  {
  }

  lemma ResizeKeepsCoupling(g: Log, next: Cap)
    requires Coupled(g)
    ensures Coupled(Resize(g, next))
  {
    if next != g.cap {
      var kept := LastN(g.Lines(), next);
      ResizedLines(g, next);
      TrimmedQueue(g.clock, g.queue, g.cap, next, g.last);
      StampedOfSuffix(g.clock, kept, g.Lines());
      SuffixTransitive(Stamped(g.clock, kept), Stamped(g.clock, g.Lines()), g.queue);
      TrimKeepsRing(Stamped(g.clock, kept), g.queue, next);
    }
  }

  lemma ClearKeepsCoupling(g: Log)
    requires Coupled(g)
    ensures Coupled(Clear(g)) && Clear(g).Lines() == []
  {
  }

  lemma RefetchKeepsCoupling(g: Log, next: Cap)
    requires Coupled(g)
    ensures Coupled(Refetch(g, next)) && Refetch(g, next).Lines() == []
  {
  }

  lemma RejectedPush(g: Log, line: string)
    requires !Accepts(g, line)
    ensures Push(g, line) == g
  {
  }

  // ---- all reachable states ----

  datatype LogOp = PushOp(line: string) | ResizeOp(cap: Cap) | ClearOp | RefetchOp(cap: Cap)

  function Apply(g: Log, op: LogOp): Log {
    match op
    case PushOp(line) => Push(g, line)
    case ResizeOp(c) => Resize(g, c)
    case ClearOp => Clear(g)
    case RefetchOp(c) => Refetch(g, c)
  }

  function Run(g: Log, ops: seq<LogOp>): Log
    decreases |ops|
  {
    if ops == [] then g else Run(Apply(g, ops[0]), ops[1..])
  }

  lemma ApplyKeepsCoupling(g: Log, op: LogOp)
    requires Coupled(g)
    ensures Coupled(Apply(g, op))
  {
    match op
    case PushOp(line) => PushKeepsCoupling(g, line);
    case ResizeOp(c) => ResizeKeepsCoupling(g, c);
    case ClearOp =>
    case RefetchOp(c) =>
  }

  /** Ring, key queue and last timestamp stay coupled through every sequence of operations. */
  lemma {:induction false} RunKeepsCoupling(g: Log, ops: seq<LogOp>)
    requires Coupled(g)
    ensures Coupled(Run(g, ops))
    decreases |ops|
  {
    if ops != [] {
      var h := Apply(g, ops[0]);
      ApplyKeepsCoupling(g, ops[0]);
      RunKeepsCoupling(h, ops[1..]);
    }
  }

  lemma {:induction false} RunExtendsHistory(g: Log, ops: seq<LogOp>)
    ensures Run(g, ops).clock == g.clock && g.history <= Run(g, ops).history
    decreases |ops|
  {
    if ops != [] {
      RunExtendsHistory(Apply(g, ops[0]), ops[1..]);
    }
  }

  lemma {:induction false} DistinctWhenStamped(clock: Clock, s: seq<string>, i: nat, j: nat)
    requires NoDup(Stamped(clock, s)) && i < j < |s| && IsStamped(clock, s[i])
    ensures s[i] != s[j]
  {
    var n := |s| - 1;
    var earlier := Stamped(clock, s[..n]);
    assert IsStamped(clock, s[n]) ==> Stamped(clock, s)[..|Stamped(clock, s)| - 1] == earlier;
    if j < n {
      DistinctWhenStamped(clock, s[..n], i, j);
    } else {
      assert s[..n][i] == s[i];
      StampedMember(clock, s[..n], s[i]);
    }
  }

  lemma CoupledAfter(clock: Clock, cap: Cap, ops: seq<LogOp>)
    ensures Coupled(Run(Empty(clock, cap), ops)) && Run(Empty(clock, cap), ops).clock == clock
  {
    RunKeepsCoupling(Empty(clock, cap), ops);
    RunExtendsHistory(Empty(clock, cap), ops);
  }

  /** From a new stream on, no reachable ring holds one timestamped line twice. */
  lemma NoStampedLineTwice(clock: Clock, cap: Cap, ops: seq<LogOp>, lines: seq<string>, i: nat, j: nat)
    requires lines == Run(Empty(clock, cap), ops).Lines()
    requires i < j < |lines| && IsStamped(clock, lines[i])
    ensures lines[i] != lines[j]
  {
    var g := Run(Empty(clock, cap), ops);
    CoupledAfter(clock, cap, ops);
    NoDupDrop(g.queue, |g.queue| - |Stamped(clock, lines)|);
    DistinctWhenStamped(clock, lines, i, j);
  }

  /** The ring holds no more lines than were ever appended. */
  predicate Fits(g: Log) {
    g.size <= |g.history|
  }

  lemma {:induction false} RunKeepsFit(g: Log, ops: seq<LogOp>)
    requires Fits(g)
    ensures Fits(Run(g, ops))
    decreases |ops|
  {
    if ops != [] {
      RunKeepsFit(Apply(g, ops[0]), ops[1..]);
    }
  }

  /** Line i of the ring is the line of the history with number `FirstSeq() + i`. */
  lemma NumberedLine(g: Log, i: nat)
    requires Fits(g) && i < g.size
    ensures |g.Lines()| == g.size && g.Lines()[i] == g.history[g.FirstSeq() + i - 1]
  {
  }

  /** A line keeps its number for as long as the ring shows it, and no number is given to two lines. */
  lemma NumbersAreStable(g: Log, ops: seq<LogOp>, h: Log, i: nat, j: nat)
    requires Fits(g) && h == Run(g, ops)
    requires i < |g.Lines()| && j < |h.Lines()| && g.FirstSeq() + i == h.FirstSeq() + j
    ensures g.Lines()[i] == h.Lines()[j]
  {
    RunKeepsFit(g, ops);
    RunExtendsHistory(g, ops);
    NumberedLine(g, i);
    NumberedLine(h, j);
  }
}
