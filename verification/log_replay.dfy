/**
 What a stream keeps of a server's log when its connection is cut and resumed. A resumed connection asks for
 everything from the last seen timestamp on, inclusive (`sinceTime`), so the server sends some lines again.
 */
module LogReplay {
  import opened Options
  import opened Sequences
  import opened LogRing
  import opened LogText

  /** A server's log: distinct timestamped lines whose times do not decrease. `when` orders the timestamps. */
  ghost predicate ServerLog(clock: Clock, when: string -> int, served: seq<string>) {
    && NoDup(served)
    && (forall i :: 0 <= i < |served| ==> IsStamped(clock, served[i]))
    && (forall i :: 0 < i < |served| ==> At(clock, when, served, i - 1) <= At(clock, when, served, i))
  }

  function At(clock: Clock, when: string -> int, served: seq<string>, i: int): int
    requires 0 <= i < |served|
  {
    if IsStamped(clock, served[i]) then when(clock(served[i]).value) else 0
  }

  /** Where a connection that resumes from the time of line pos - 1 starts: the first line that is not older. */
  function ResumeIndex(clock: Clock, when: string -> int, served: seq<string>, pos: nat): (cut: nat)
    requires 0 < pos <= |served|
    ensures cut < pos
    ensures forall i :: cut <= i < pos ==> At(clock, when, served, i) >= At(clock, when, served, pos - 1)
  {
    FirstNotOlder(clock, when, served, pos, pos - 1)
  }

  function FirstNotOlder(clock: Clock, when: string -> int, served: seq<string>, pos: nat, from: nat): (cut: nat)
    requires from < pos <= |served|
    requires forall i :: from <= i < pos ==> At(clock, when, served, i) >= At(clock, when, served, pos - 1)
    ensures cut <= from
    ensures cut > 0 ==> At(clock, when, served, cut - 1) < At(clock, when, served, pos - 1)
    ensures forall i :: cut <= i < pos ==> At(clock, when, served, i) >= At(clock, when, served, pos - 1)
    decreases from
  {
    if from == 0 || At(clock, when, served, from - 1) < At(clock, when, served, pos - 1) then from
    else FirstNotOlder(clock, when, served, pos, from - 1)
  }

  /** Nothing before the resume index is requested: every earlier line is strictly older. */
  lemma {:induction false} EarlierIsOlder(clock: Clock, when: string -> int, served: seq<string>, pos: nat, i: nat)
    requires ServerLog(clock, when, served) && 0 < pos <= |served|
    requires i < ResumeIndex(clock, when, served, pos)
    ensures At(clock, when, served, i) < At(clock, when, served, pos - 1)
    decreases ResumeIndex(clock, when, served, pos) - i
  {
    if i + 1 < ResumeIndex(clock, when, served, pos) {
      EarlierIsOlder(clock, when, served, pos, i + 1);
      assert At(clock, when, served, i + 1 - 1) <= At(clock, when, served, i + 1);
    }
  }

  /** The stream has appended exactly the lines base .. pos of the server's log, each once and in order. */
  ghost predicate Tracks(g: Log, prior: seq<string>, served: seq<string>, base: nat, pos: nat) {
    && base <= pos <= |served|
    && g.history == prior + served[base..pos]
    && g.queue == LastN(served[base..pos], g.cap)
    && g.last == (if pos == base then None else g.clock(served[pos - 1]))
  }

  lemma SliceMember(served: seq<string>, a: nat, b: nat, i: nat)
    requires NoDup(served) && a <= b <= |served| && i < |served|
    ensures served[i] in served[a..b] <==> a <= i < b
  {
    hide NoDup;
    if a <= i < b {
      assert served[a..b][i - a] == served[i];
    } else {
      forall k | 0 <= k < b - a
        ensures served[a..b][k] != served[i]
      {
        NoDupAt(served, if i < a + k then i else a + k, if i < a + k then a + k else i);
      }
    }
  }

  lemma QueueSlice(g: Log, prior: seq<string>, served: seq<string>, base: nat, pos: nat)
    requires Tracks(g, prior, served, base, pos)
    ensures |g.queue| <= pos && g.queue == served[pos - |g.queue|..pos]
  {
  }

  lemma TrackedKey(g: Log, prior: seq<string>, served: seq<string>, base: nat, pos: nat, i: nat)
    requires Tracks(g, prior, served, base, pos) && NoDup(served) && i < |served|
    ensures served[i] in g.queue <==> pos - |g.queue| <= i < pos
  {
    hide Tracks, NoDup;
    QueueSlice(g, prior, served, base, pos);
    assert pos <= |served| by { TrackedBounds(g, prior, served, base, pos); }
    SliceMember(served, pos - |g.queue|, pos, i);
  }

  lemma TrackedBounds(g: Log, prior: seq<string>, served: seq<string>, base: nat, pos: nat)
    requires Tracks(g, prior, served, base, pos)
    ensures base <= pos <= |served|
  {
  }

  lemma TrimmedTwice(s: seq<string>, cap: Cap, x: string)
    ensures LastN(LastN(s, cap) + [x], cap) == LastN(s + [x], cap)
  {
  }

  lemma FreshPush(g: Log, prior: seq<string>, done: seq<string>, x: string)
    requires g.history == prior + done && g.queue == LastN(done, g.cap)
    requires IsStamped(g.clock, x) && x !in g.queue
    ensures var h := Push(g, x);
      && h.history == prior + (done + [x]) && h.queue == LastN(done + [x], g.cap) && h.last == g.clock(x)
      && h.clock == g.clock && h.cap == g.cap
  {
    hide LastN;
    TrimmedTwice(done, g.cap, x);
    assert prior + (done + [x]) == prior + done + [x];
  }

  lemma FreshLine(g: Log, prior: seq<string>, served: seq<string>, base: nat, pos: nat)
    requires Tracks(g, prior, served, base, pos) && NoDup(served) && pos < |served| && IsStamped(g.clock, served[pos])
    ensures Tracks(Push(g, served[pos]), prior, served, base, pos + 1)
  {
    hide NoDup, LastN, Push;
    TrackedKey(g, prior, served, base, pos, pos);
    FreshPush(g, prior, served[base..pos], served[pos]);
    SliceSnoc(served, base, pos);
  }

  lemma PushKeepsClock(g: Log, x: string)
    ensures Push(g, x).clock == g.clock && Push(g, x).cap == g.cap
  {
  }

  lemma {:induction false} FreshLines(g: Log, prior: seq<string>, served: seq<string>, base: nat, pos: nat, until: nat)
    requires Tracks(g, prior, served, base, pos) && NoDup(served) && pos <= until <= |served|
    requires forall i :: pos <= i < until ==> IsStamped(g.clock, served[i])
    ensures Tracks(PushAll(g, served[pos..until]), prior, served, base, until)
    decreases until - pos
  {
    hide Tracks, NoDup, Push, IsSuffix;
    if pos < until {
      FreshLine(g, prior, served, base, pos);
      PushKeepsClock(g, served[pos]);
      var h := Push(g, served[pos]);
      FreshLines(h, prior, served, base, pos + 1, until);
      assert served[pos..until][1..] == served[pos + 1..until];
    }
  }

  lemma {:induction false} KnownLines(g: Log, lines: seq<string>)
    requires forall i :: 0 <= i < |lines| ==> !Accepts(g, lines[i])
    ensures PushAll(g, lines) == g
    decreases |lines|
  {
    if lines != [] {
      KnownLines(g, lines[1..]);
    }
  }

  lemma {:induction false} PushAllGrows(g: Log, lines: seq<string>)
    ensures |PushAll(g, lines).history| >= |g.history|
    decreases |lines|
  {
    if lines != [] {
      PushAllGrows(Push(g, lines[0]), lines[1..]);
    }
  }

  lemma {:induction false} PushAllConcat(g: Log, a: seq<string>, b: seq<string>)
    ensures PushAll(g, a + b) == PushAll(PushAll(g, a), b)
    decreases |a|
  {
    if a == [] {
      assert a + b == b;
    } else {
      PushAllConcat(Push(g, a[0]), a[1..], b);
      assert (a + b)[1..] == a[1..] + b;
    }
  }

  /** A replayed overlap changes nothing if and only if the seen-queue reaches back to where the replay starts. */
  lemma ReplayIsSilentIff(g: Log, prior: seq<string>, served: seq<string>, base: nat, pos: nat, cut: nat)
    requires Tracks(g, prior, served, base, pos) && NoDup(served) && cut < pos
    requires forall i :: 0 <= i < |served| ==> IsStamped(g.clock, served[i])
    ensures PushAll(g, served[cut..pos]) == g <==> pos - cut <= |g.queue|
  {
    var replay := served[cut..pos];
    if pos - cut <= |g.queue| {
      PartialReplay(g, prior, served, base, pos, cut, pos);
    } else {
      TrackedKey(g, prior, served, base, pos, cut);
      PushAllGrows(Push(g, served[cut]), replay[1..]);
    }
  }

  /** One resumed connection: it sends the lines from the resume index on and is cut before line `until`. */
  function Resumed(when: string -> int, g: Log, served: seq<string>, pos: nat, until: nat): Log
    requires 0 < pos <= |served| && ResumeIndex(g.clock, when, served, pos) <= until <= |served|
  {
    PushAll(g, served[ResumeIndex(g.clock, when, served, pos)..until])
  }

  lemma PartialReplay(g: Log, prior: seq<string>, served: seq<string>, base: nat, pos: nat, cut: nat, until: nat)
    requires Tracks(g, prior, served, base, pos) && NoDup(served) && cut <= until <= pos
    requires forall i :: 0 <= i < |served| ==> IsStamped(g.clock, served[i])
    requires pos - cut <= |g.queue|
    ensures PushAll(g, served[cut..until]) == g
  {
    hide Tracks, NoDup;
    TrackedBounds(g, prior, served, base, pos);
    var replay := served[cut..until];
    forall k | 0 <= k < |replay|
      ensures !Accepts(g, replay[k])
    {
      TrackedKey(g, prior, served, base, pos, cut + k);
    }
    KnownLines(g, replay);
  }

  lemma WholeReplay(g: Log, prior: seq<string>, served: seq<string>, base: nat, pos: nat, cut: nat, until: nat)
    requires Tracks(g, prior, served, base, pos) && NoDup(served) && cut < pos < until <= |served|
    requires forall i :: 0 <= i < |served| ==> IsStamped(g.clock, served[i])
    requires pos - cut <= |g.queue|
    ensures Tracks(PushAll(g, served[cut..until]), prior, served, base, until)
  {
    hide Tracks, NoDup, Push;
    PartialReplay(g, prior, served, base, pos, cut, pos);
    PushAllConcat(g, served[cut..pos], served[pos..until]);
    assert served[cut..until] == served[cut..pos] + served[pos..until];
    FreshLines(g, prior, served, base, pos, until);
  }

  /**
   The stream can tell apart what a connection resumed at `pos` and cut before line `until` repeats: nothing is
   repeated, or the repeated group of lines starts no earlier than the stream did and fits into its ring.
   */
  predicate Covered(clock: Clock, when: string -> int, served: seq<string>, base: nat, cap: Cap, pos: nat, until: nat) {
    && 0 < pos <= |served|
    && var cut := ResumeIndex(clock, when, served, pos);
       until <= cut || (base <= cut && pos - cut <= cap)
  }

  /** Line c stands where only line pos could, so the history is not the server's log from `base` on. */
  predicate Strayed(g: Log, prior: seq<string>, served: seq<string>, base: nat, pos: nat, c: nat) {
    && c < pos <= |served| && base <= pos
    && |prior| + pos - base < |g.history| && g.history[|prior| + pos - base] == served[c]
  }

  lemma StrayedNeverTracks(g: Log, prior: seq<string>, served: seq<string>, base: nat, pos: nat, c: nat, q: nat)
    requires Strayed(g, prior, served, base, pos, c) && NoDup(served)
    ensures !Tracks(g, prior, served, base, q)
  {
    hide NoDup;
    if Tracks(g, prior, served, base, q) {
      assert pos < q && g.history[|prior| + pos - base] == served[pos];
      NoDupAt(served, c, pos);
    }
  }

  lemma QueueLength(g: Log, prior: seq<string>, served: seq<string>, base: nat, pos: nat)
    requires Tracks(g, prior, served, base, pos)
    ensures |g.queue| == if pos - base <= g.cap then pos - base else g.cap
    ensures |g.history| == |prior| + pos - base
  {
  }

  lemma {:induction false} PushAllExtends(g: Log, lines: seq<string>)
    ensures g.history <= PushAll(g, lines).history
    decreases |lines|
  {
    if lines != [] {
      PushAllExtends(Push(g, lines[0]), lines[1..]);
    }
  }

  lemma CoveredTracks(when: string -> int, g: Log, prior: seq<string>, served: seq<string>,
                      base: nat, pos: nat, until: nat)
    requires Tracks(g, prior, served, base, pos) && ServerLog(g.clock, when, served) && base < pos
    requires Covered(g.clock, when, served, base, g.cap, pos, until)
    requires ResumeIndex(g.clock, when, served, pos) <= until <= |served|
    ensures Tracks(Resumed(when, g, served, pos, until), prior, served, base, if until <= pos then pos else until)
  {
    hide NoDup, PushAll, Tracks, ResumeIndex;
    ServedLines(g.clock, when, served);
    QueueLength(g, prior, served, base, pos);
    TrackedBounds(g, prior, served, base, pos);
    var cut := ResumeIndex(g.clock, when, served, pos);
    if until == cut {
      assert served[cut..until] == [];
      assert PushAll(g, []) == g by { PushNothing(g); }
    } else if until <= pos {
      PartialReplay(g, prior, served, base, pos, cut, until);
    } else {
      WholeReplay(g, prior, served, base, pos, cut, until);
    }
  }

  lemma PushNothing(g: Log)
    ensures PushAll(g, []) == g
  {
  }

  lemma UncoveredStrays(when: string -> int, g: Log, prior: seq<string>, served: seq<string>,
                        base: nat, pos: nat, until: nat)
    requires Tracks(g, prior, served, base, pos) && ServerLog(g.clock, when, served) && base < pos
    requires !Covered(g.clock, when, served, base, g.cap, pos, until)
    requires ResumeIndex(g.clock, when, served, pos) <= until <= |served|
    ensures Strayed(Resumed(when, g, served, pos, until), prior, served, base, pos,
                    ResumeIndex(g.clock, when, served, pos))
  {
    hide NoDup, Tracks, ResumeIndex;
    ServedLines(g.clock, when, served);
    QueueLength(g, prior, served, base, pos);
    TrackedBounds(g, prior, served, base, pos);
    var cut := ResumeIndex(g.clock, when, served, pos);
    TrackedKey(g, prior, served, base, pos, cut);
    var lines, h := served[cut..until], Push(g, served[cut]);
    assert lines[0] == served[cut];
    assert h.history == g.history + [served[cut]];
    PushAllExtends(h, lines[1..]);
  }

  /**
   A stream that resumes asks for everything from its last timestamp on, inclusive. That is exactly the server's
   log from the resume index on, so `Resumed` is what such a connection delivers.
   */
  lemma AskedFromResumeIndex(when: string -> int, g: Log, prior: seq<string>, served: seq<string>,
                             base: nat, pos: nat, i: nat)
    requires Tracks(g, prior, served, base, pos) && ServerLog(g.clock, when, served) && base < pos && i < |served|
    ensures g.last.Some?
    ensures ResumeIndex(g.clock, when, served, pos) <= i <==> when(g.last.value) <= At(g.clock, when, served, i)
  {
    hide NoDup, FirstNotOlder;
    if i < ResumeIndex(g.clock, when, served, pos) {
      EarlierIsOlder(g.clock, when, served, pos, i);
    } else if pos <= i {
      TimesGrow(g.clock, when, served, pos - 1, i);
    }
  }

  lemma {:induction false} TimesGrow(clock: Clock, when: string -> int, served: seq<string>, i: nat, j: nat)
    requires ServerLog(clock, when, served) && i <= j < |served|
    ensures At(clock, when, served, i) <= At(clock, when, served, j)
    decreases j - i
  {
    if i < j {
      TimesGrow(clock, when, served, i, j - 1);
      assert At(clock, when, served, j - 1) <= At(clock, when, served, j);
    }
  }

  // ---- any number of reconnects ----

  function Furthest(cuts: seq<nat>): nat {
    if cuts == [] then 0
    else
      var rest := Furthest(cuts[..|cuts| - 1]);
      if cuts[|cuts| - 1] <= rest then rest else cuts[|cuts| - 1]
  }

  /**
   `states[k]` is the buffer after connection k. The first connection starts at line `base`; each later one
   resumes from the last line its predecessors delivered; connection k is cut before line `cuts[k]`.
   */
  ghost predicate Sessions(when: string -> int, g: Log, served: seq<string>,
                           base: nat, cuts: seq<nat>, states: seq<Log>) {
    && cuts != [] && |states| == |cuts|
    && base < cuts[0] <= |served| && states[0] == PushAll(g, served[base..cuts[0]])
    && forall k :: 0 < k < |cuts| ==> Resumes(when, states[k - 1], served, Furthest(cuts[..k]), cuts[k], states[k])
  }

  ghost predicate Resumes(when: string -> int, g: Log, served: seq<string>, pos: nat, until: nat, h: Log) {
    && 0 < pos <= |served|
    && ResumeIndex(g.clock, when, served, pos) <= until <= |served|
    && h == Resumed(when, g, served, pos, until)
  }

  lemma {:induction false} PushAllKeeps(g: Log, lines: seq<string>)
    ensures PushAll(g, lines).clock == g.clock && PushAll(g, lines).cap == g.cap
    decreases |lines|
  {
    if lines != [] {
      PushAllKeeps(Push(g, lines[0]), lines[1..]);
    }
  }

  lemma ServedLines(clock: Clock, when: string -> int, served: seq<string>)
    requires ServerLog(clock, when, served)
    ensures NoDup(served) && forall i :: 0 <= i < |served| ==> IsStamped(clock, served[i])
  {
  }

  lemma NothingTracked(g: Log, served: seq<string>, base: nat)
    requires g.queue == [] && g.last.None? && base <= |served|
    ensures Tracks(g, g.history, served, base, base)
  {
    assert g.history + served[base..base] == g.history;
  }

  /** Every reconnect up to the n-th connection is covered. */
  ghost predicate AllCovered(clock: Clock, when: string -> int, served: seq<string>, base: nat, cap: Cap,
                             cuts: seq<nat>, n: nat)
    requires n <= |cuts|
  {
    forall k :: 0 < k < n ==> Covered(clock, when, served, base, cap, Furthest(cuts[..k]), cuts[k])
  }

  ghost predicate SomewhereStrayed(g: Log, prior: seq<string>, served: seq<string>, base: nat) {
    exists pos: nat, c: nat :: Strayed(g, prior, served, base, pos, c)
  }

  lemma StrayedStays(g: Log, h: Log, prior: seq<string>, served: seq<string>, base: nat)
    requires SomewhereStrayed(g, prior, served, base) && g.history <= h.history
    ensures SomewhereStrayed(h, prior, served, base)
  {
    var pos: nat, c: nat :| Strayed(g, prior, served, base, pos, c);
    assert Strayed(h, prior, served, base, pos, c);
  }

  lemma FurthestSnoc(cuts: seq<nat>, n: nat)
    requires 0 < n <= |cuts|
    ensures Furthest(cuts[..n]) ==
      if cuts[n - 1] <= Furthest(cuts[..n - 1]) then Furthest(cuts[..n - 1]) else cuts[n - 1]
  {
    assert cuts[..n][..n - 1] == cuts[..n - 1];
  }

  lemma {:induction false} TracksOrStrays(when: string -> int, g: Log, served: seq<string>, base: nat, cuts: seq<nat>,
                                          states: seq<Log>, n: nat)
    requires ServerLog(g.clock, when, served) && g.queue == [] && g.last.None?
    requires Sessions(when, g, served, base, cuts, states) && 0 < n <= |cuts|
    ensures states[n - 1].clock == g.clock && states[n - 1].cap == g.cap && base < Furthest(cuts[..n])
    ensures if AllCovered(g.clock, when, served, base, g.cap, cuts, n)
            then Tracks(states[n - 1], g.history, served, base, Furthest(cuts[..n]))
            else SomewhereStrayed(states[n - 1], g.history, served, base)
  {
    hide ServerLog, Covered, Tracks, PushAll, SomewhereStrayed, Furthest;
    FurthestSnoc(cuts, n);
    if n == 1 {
      NothingTracked(g, served, base);
      ServedLines(g.clock, when, served);
      FreshLines(g, g.history, served, base, base, cuts[0]);
      PushAllKeeps(g, served[base..cuts[0]]);
      assert Furthest(cuts[..1]) == cuts[0] by { FirstFurthest(cuts); }
    } else {
      TracksOrStrays(when, g, served, base, cuts, states, n - 1);
      var h, pos, until := states[n - 2], Furthest(cuts[..n - 1]), cuts[n - 1];
      assert Resumes(when, states[n - 1 - 1], served, pos, until, states[n - 1]);
      NextSession(when, g, served, base, cuts, states, n);
    }
  }

  lemma FirstFurthest(cuts: seq<nat>)
    requires cuts != []
    ensures Furthest(cuts[..1]) == cuts[0]
  {
    assert cuts[..1][..0] == [];
  }

  lemma NextSession(when: string -> int, g: Log, served: seq<string>, base: nat, cuts: seq<nat>,
                    states: seq<Log>, n: nat)
    requires ServerLog(g.clock, when, served) && 1 < n <= |cuts| == |states|
    requires base < Furthest(cuts[..n - 1])
    requires Resumes(when, states[n - 2], served, Furthest(cuts[..n - 1]), cuts[n - 1], states[n - 1])
    requires states[n - 2].clock == g.clock && states[n - 2].cap == g.cap
    requires if AllCovered(g.clock, when, served, base, g.cap, cuts, n - 1)
             then Tracks(states[n - 2], g.history, served, base, Furthest(cuts[..n - 1]))
             else SomewhereStrayed(states[n - 2], g.history, served, base)
    ensures states[n - 1].clock == g.clock && states[n - 1].cap == g.cap
    ensures if AllCovered(g.clock, when, served, base, g.cap, cuts, n)
            then Tracks(states[n - 1], g.history, served, base, Furthest(cuts[..n]))
            else SomewhereStrayed(states[n - 1], g.history, served, base)
  {
    hide ServerLog, Covered, Tracks, PushAll, SomewhereStrayed, Furthest, Strayed;
    var h, pos, until := states[n - 2], Furthest(cuts[..n - 1]), cuts[n - 1];
    FurthestSnoc(cuts, n);
    PushAllKeeps(h, served[ResumeIndex(h.clock, when, served, pos)..until]);
    PushAllExtends(h, served[ResumeIndex(h.clock, when, served, pos)..until]);
    AllCoveredSnoc(g.clock, when, served, base, g.cap, cuts, n);
    if !AllCovered(g.clock, when, served, base, g.cap, cuts, n - 1) {
      StrayedStays(h, states[n - 1], g.history, served, base);
    } else if Covered(g.clock, when, served, base, g.cap, pos, until) {
      CoveredTracks(when, h, g.history, served, base, pos, until);
    } else {
      UncoveredStrays(when, h, g.history, served, base, pos, until);
      StraysSomewhere(states[n - 1], g.history, served, base, pos, ResumeIndex(h.clock, when, served, pos));
    }
  }

  lemma StraysSomewhere(g: Log, prior: seq<string>, served: seq<string>, base: nat, pos: nat, c: nat)
    requires Strayed(g, prior, served, base, pos, c)
    ensures SomewhereStrayed(g, prior, served, base)
  {
  }

  lemma AllCoveredSnoc(clock: Clock, when: string -> int, served: seq<string>, base: nat, cap: Cap,
                       cuts: seq<nat>, n: nat)
    requires 1 < n <= |cuts|
    ensures AllCovered(clock, when, served, base, cap, cuts, n)
      <==> AllCovered(clock, when, served, base, cap, cuts, n - 1)
           && Covered(clock, when, served, base, cap, Furthest(cuts[..n - 1]), cuts[n - 1])
  {
    hide Covered, Furthest;
  }

  /**
   Exactly once: however often the connection is cut and wherever, the stream has appended the server's lines from
   `base` to the furthest one sent, each once and in order, if and only if every reconnect repeated nothing, or
   repeated a group of lines of one timestamp that starts no earlier than `base` and is no longer than the ring.
   */
  lemma ExactlyOnceIff(when: string -> int, g: Log, served: seq<string>, base: nat, cuts: seq<nat>,
                       states: seq<Log>, n: nat)
    requires ServerLog(g.clock, when, served) && g.queue == [] && g.last.None?
    requires Sessions(when, g, served, base, cuts, states) && 0 < n <= |cuts|
    ensures Tracks(states[n - 1], g.history, served, base, Furthest(cuts[..n]))
      <==> AllCovered(g.clock, when, served, base, g.cap, cuts, n)
  {
    hide Covered, Tracks, Strayed, AllCovered, Furthest;
    TracksOrStrays(when, g, served, base, cuts, states, n);
    ServedLines(g.clock, when, served);
    if !AllCovered(g.clock, when, served, base, g.cap, cuts, n) {
      var pos: nat, c: nat :| Strayed(states[n - 1], g.history, served, base, pos, c);
      StrayedNeverTracks(states[n - 1], g.history, served, base, pos, c, Furthest(cuts[..n]));
    }
  }

  // ---- where it fails ----

  const MIDNIGHT := "2024-01-01T00:00:00Z"

  /** A log line that starts with that timestamp. */
  function AtMidnight(text: string): string {
    MIDNIGHT + " " + text
  }

  lemma MidnightIsTimestamp()
    ensures InLanguage(MIDNIGHT)
  {
    var s := MIDNIGHT;
    assert s[4] == s[7] == '-' && s[10] == 'T' && s[13] == s[16] == ':' && s[19] == 'Z' && |s| == 20;
    assert forall i :: 0 <= i < 19 && i != 4 && i != 7 && i != 10 && i != 13 && i != 16 ==> '0' <= s[i] <= '9';
    forall i | 0 <= i < 19 && i != 4 && i != 7 && i != 10 && i != 13 && i != 16
      ensures IsDecimal(s[i])
    {
      DecimalIff(s[i]);
    }
    assert HasZoneAt(s, 19);
  }

  lemma MidnightLine(text: string)
    ensures LogLineTimestamp(AtMidnight(text)) == Some(MIDNIGHT)
  {
    hide InLanguage, LogLineTimestamp;
    MidnightIsTimestamp();
    var line := AtMidnight(text);
    assert line[|MIDNIGHT|] == ' ' && MIDNIGHT < line;
    TimestampIffGrammar(line, MIDNIGHT);
  }

  lemma PushIntoOne(clock: Clock, history: seq<string>, size: nat, queue: seq<string>, last: Option<string>, x: string)
    requires |queue| <= 1 && x !in queue && size <= 1 && clock(x).Some?
    ensures Push(Log(clock, 1, history, size, queue, last), x) == Log(clock, 1, history + [x], 1, [x], clock(x))
  {
  }

  lemma PushTwo(g: Log, x: string, y: string)
    ensures PushAll(g, [x, y]) == Push(Push(g, x), y)
  {
    assert [x, y][1..] == [y] && [y][1..] == [];
    assert PushAll(Push(Push(g, x), y), []) == Push(Push(g, x), y);
  }

  /** A ring of one after two more lines. */
  function RingOfOne(clock: Clock, history: seq<string>, y: string): Log {
    Log(clock, 1, history, 1, [y], clock(y))
  }

  lemma PushBoth(g: Log, x: string, y: string)
    requires g.cap == 1 && |g.queue| <= 1 && x !in g.queue && g.size <= 1 && x != y
    requires g.clock(x).Some? && g.clock(y).Some?
    ensures PushAll(g, [x, y]) == RingOfOne(g.clock, g.history + [x, y], y)
  {
    hide Push;
    PushTwo(g, x, y);
    PushIntoOne(g.clock, g.history, g.size, g.queue, g.last, x);
    PushIntoOne(g.clock, g.history + [x], 1, [x], g.clock(x), y);
    assert g.history + [x] + [y] == g.history + [x, y];
  }

  lemma TwoLineServer(clock: Clock, when: string -> int, x: string, y: string)
    requires x != y && clock(x).Some? && clock(x) == clock(y)
    ensures ServerLog(clock, when, [x, y]) && ResumeIndex(clock, when, [x, y], 2) == 0
  {
    assert [x, y][..1] == [x] && [x][..0] == [];
    assert NoDup([x]);
    assert At(clock, when, [x, y], 0) == At(clock, when, [x, y], 1);
  }

  /**
   A new stream with a ring of one, and a server with any two lines of one timestamp: the first connection appends
   both, and the first reconnect appends both again.
   */
  lemma SharedTimestampRepeats(clock: Clock, when: string -> int, x: string, y: string)
    requires x != y && clock(x).Some? && clock(x) == clock(y)
    ensures var first := RingOfOne(clock, [x, y], y);
      var second := RingOfOne(clock, [x, y, x, y], y);
      Sessions(when, Empty(clock, 1), [x, y], 0, [2, 2], [first, second])
  {
    hide PushAll, ServerLog, FirstNotOlder;
    TwoLineServer(clock, when, x, y);
    assert [x, y][0..2] == [x, y] && [] + [x, y] == [x, y] && [x, y] + [x, y] == [x, y, x, y];
    var first, second := RingOfOne(clock, [x, y], y), RingOfOne(clock, [x, y, x, y], y);
    PushBoth(Empty(clock, 1), x, y);
    PushBoth(first, x, y);
    assert [2, 2][..1] == [2] && [2][..0] == [] && Furthest([2]) == 2;
    assert Resumes(when, first, [x, y], 2, 2, second);
  }

  /**
   Any ring of two or more, and a first connection that starts between two lines of one timestamp, as the tail of a
   log may: the first reconnect appends the older line after the newer one.
   */
  lemma SplitGroupSwaps(clock: Clock, when: string -> int, cap: Cap, x: string, y: string)
    requires x != y && clock(x).Some? && clock(x) == clock(y) && cap >= 2
    ensures var first := Log(clock, cap, [y], 1, [y], clock(y));
      var second := Log(clock, cap, [y, x], 2, [y, x], clock(x));
      && Sessions(when, Empty(clock, cap), [x, y], 1, [2, 2], [first, second])
      && !AllCovered(clock, when, [x, y], 1, cap, [2, 2], 2)
  {
    hide ServerLog, FirstNotOlder, PushAll;
    TwoLineServer(clock, when, x, y);
    var first, second := Log(clock, cap, [y], 1, [y], clock(y)), Log(clock, cap, [y, x], 2, [y, x], clock(x));
    assert [x, y][1..2] == [y] && [x, y][0..2] == [x, y];
    PushOnly(Empty(clock, cap), y);
    SwapPushes(clock, cap, x, y);
    PushTwo(first, x, y);
    assert [2, 2][..1] == [2] && [2][..0] == [] && Furthest([2]) == 2;
    assert Resumes(when, first, [x, y], 2, 2, second);
    assert !Covered(clock, when, [x, y], 1, cap, Furthest([2, 2][..1]), [2, 2][1]);
  }

  lemma PushOnly(g: Log, x: string)
    ensures PushAll(g, [x]) == Push(g, x)
  {
    assert PushAll(Push(g, x), []) == Push(g, x);
  }

  lemma SwapPushes(clock: Clock, cap: Cap, x: string, y: string)
    requires x != y && clock(x).Some? && clock(x) == clock(y) && cap >= 2
    ensures Push(Empty(clock, cap), y) == Log(clock, cap, [y], 1, [y], clock(y))
    ensures Push(Push(Log(clock, cap, [y], 1, [y], clock(y)), x), y) == Log(clock, cap, [y, x], 2, [y, x], clock(x))
  {
    assert [] + [y] == [y] && [y] + [x] == [y, x];
  }

  /** Such lines under the pattern in use. */
  lemma RepeatedAtMidnight(when: string -> int)
    ensures var x, y := AtMidnight("a"), AtMidnight("b");
      var first, second := RingOfOne(LogLineTimestamp, [x, y], y), RingOfOne(LogLineTimestamp, [x, y, x, y], y);
      Sessions(when, Empty(LogLineTimestamp, 1), [x, y], 0, [2, 2], [first, second])
  {
    hide LogLineTimestamp, Sessions, RingOfOne;
    var x, y := AtMidnight("a"), AtMidnight("b");
    MidnightLine("a");
    MidnightLine("b");
    assert x[|x| - 1] == 'a' && y[|y| - 1] == 'b';
    SharedTimestampRepeats(LogLineTimestamp, when, x, y);
  }
}
