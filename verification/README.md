# K8s-view: a verified model

K8s-view shows Kubernetes clusters in a browser. A Go server keeps shared informers per cluster and streams their
deltas over one WebSocket; a TypeScript client merges them into tables, follows pod logs, and keeps its tabs and pins
in the URL and in storage. This project models the parts whose correctness spans several functions or a whole run,
and proves it with Dafny 4.11 (`dafny verify dfyconfig.toml`).

| file | component |
|---|---|
| `log_text.dfy`, `log_ring.dfy`, `log_stream.dfy` | one log stream: timestamps, the ring as a value with its invariant, the object with its array |
| `log_replay.dfy`, `log_persist.dfy` | resuming a cut connection; saving and restoring a stream |
| `log_conn.dfy`, `log_retry.dfy` | sockets, timers and the retry accounting of a log stream |
| `replica.dfy`, `pipeline.dfy`, `pipeline_order.dfy` | the client's copy of a resource list; the delta pipeline from informer store to copy, and what travels through it |
| `informers.dfy`, `broadcast.dfy`, `stream_mux.dfy` | the shared informers of a cluster; sending to subscribers; the server's table of streams |
| `cluster_stream.dfy`, `reconciliation.dfy` | the client's connection; client and server agreeing on subscriptions |
| `json_text.dfy`, `json_parse.dfy`, `log_row.dfy`, `log_row_expansion.dfy`, `log_row_layout.dfy`, `log_row_render.dfy` | JSON texts and `JSON.parse`; pretty-printed log bodies, what expanding them finds and how they are laid out |
| `percent.dfy`, `bottom_pane.dfy` | percent-encoding; the tab list in the URL |
| `names.dfy`, `cluster_manager.dfy`, `kubeconfig.dfy`, `restart.dfy` | cluster names; the manager; removing a context from a file; what a restart brings back |
| `favourites.dfy`, `events_index.dfy` | pinned resources; warning badges |
| `options.dfy`, `sequences.dfy` | shared definitions |

Objects the source updates in place are classes, or step systems where several parties interleave. A class method is
proved equal to a function on the object's value, and the lemmas about all runs are stated for those functions. A step
system has one step per critical section, event or message, so its runs are all interleavings.

Where the code and its own comments differ, the model follows the code:

- `reorder` is described as moving an entry to index `to`; a downward move lands one slot short
  (`Favourites.LandsAtTargetIff`).
- `blindRetries` is described as ending every stream after six empty attempts; only a stream that does not follow ends
  that way (`LogRetry.RetryAccounting`).
- `hydrateAll` is described as restoring frozen streams; a following stream comes back reconnecting, even one that had
  ended (`LogPersist.RestoredStates`).
- A full channel is described as healed on reconnect; the next delta of the same object already repairs it
  (`Pipeline.NextDeltaRepairs`).
- `REBUILD_TTL_MS` is described as the interval at which events leave their window; a tick may keep the cached index,
  so one twice as old can be on display (`EventsIndex.OlderThanInterval`).

Claims the code does not meet are stated with the exact condition under which it does, and an input or run that fails
stands beside each:

| condition | failing input or run |
|---|---|
| `LogReplay.ReplayIsSilentIff`, `LogReplay.ExactlyOnceIff` | `LogReplay.RepeatedAtMidnight`, `LogReplay.SplitGroupSwaps` |
| `LogConn.OneTokenThroughoutIff` | `LogConn.ManualReconnectDoubles` |
| `Pipeline.SnapshotRightIff`, `Pipeline.DropWrongIff` | `Pipeline.GapLosesDelta`, `Pipeline.FullChannelLoses` |
| `Informers.OrphanedIff` | `Informers.OrphanedSubscriber`, `Informers.OrphanedByCreator` |
| `Broadcasts.StillToSend` | internal/clusters/informers.go:331-351 | in every interleaving a broadcast has still to send to exactly the channels it copied and has not sent to |
| `Broadcasts.SendPanicsIff` | `Broadcasts.BroadcastPanics` |
| `StreamMux.UnsubscribeCloses` | internal/api/stream.go:222-231 | over every run an unsubscribe closes its sid's stream and takes the sid out of the table; every other stream stays open under its sid |
| `StreamMux.InstallReplaces` | internal/api/stream.go:206-211 | a stream put into the table stays open, the one it replaces is closed, no other sid is touched |
| `StreamMux.AllClosedIff` | `StreamMux.ShutdownLeaks` |
| `LogRow.PrettyRoundTrip` | `LogRow.OverflowIsNotJson` |
| `BottomPane.RefRoundTrip`, `BottomPane.ActiveTabKeptIff` | `BottomPane.ParsedButNotPrintable`, `BottomPane.ActiveTabMoves` |
| `ClusterManager.CurrentEmptyIff` | `ClusterManager.NamelessDefault` |
| `Restarts.StaysRemovedIff` | `Restarts.RenamedComesBack` |
| `KubeconfigFile.ReferencesKeptIff` | `KubeconfigFile.NamelessEntryIsLost` |
| `Favourites.LandsAtTargetIff`, `Favourites.ToggleTwiceIff` | every downward move; `Favourites.FullListLosesOne` |

## Model

| member | source | states |
|---|---|---|
| `LogText.TimestampIffGrammar` | frontend/src/lib/logStreams.ts:477-483 | a line's timestamp is t if and only if t is the prefix before whitespace that belongs to the pattern's language |
| `LogRing.ClampBufferCap` | frontend/src/lib/logStreams.ts:347-350 | requested sizes are floored into 1..20000; absent, non-finite and non-positive ones become 500 |
| `LogRing.PushKeepsCoupling` | frontend/src/lib/logStreams.ts:455-475 | appending a line keeps the ring's timestamped lines a suffix of the duplicate-free, bounded key queue, whose newest key dates the stream |
| `LogRing.ResizeKeepsCoupling` | frontend/src/lib/logStreams.ts:328-345 | growing and shrinking keep that coupling |
| `LogRing.RunKeepsCoupling` | frontend/src/lib/logStreams.ts:261-345 | every sequence of pushes, resizes, clears and refetches keeps it |
| `LogRing.NoStampedLineTwice` | frontend/src/lib/logStreams.ts:455-475 | no reachable ring holds one timestamped line twice |
| `LogRing.NumbersAreStable` | frontend/src/lib/logStreams.ts:251-275 | two lines displayed at any two times under one number are the same line, through wraparound, resizes, clears and refetches |
| `LogStreams.RingPush` | frontend/src/lib/logStreams.ts:460-464 | writing at `head` and advancing it modulo the cap appends the line and drops the oldest one of a full ring |
| `LogStreams.LogStream.constructor` | frontend/src/lib/logStreams.ts:378-415 | a new stream is empty with the clamped cap |
| `LogStreams.LogStream.ReadBuf` | frontend/src/lib/logStreams.ts:485-498 | reading the array in ring order gives the end of the history |
| `LogStreams.LogStream.GetLinesWithSeq` | frontend/src/lib/logStreams.ts:255-259 | the displayed lines are the history from line number `firstSeq` on |
| `LogStreams.LogStream.PushLine` | frontend/src/lib/logStreams.ts:455-475 | the object does what `Push` says and reports whether the line was new |
| `LogStreams.LogStream.ClearLines` | frontend/src/lib/logStreams.ts:261-275 | ring, keys and last timestamp are emptied, the size of the ring stays and line numbers go on |
| `LogStreams.LogStream.SetBufferCap` | frontend/src/lib/logStreams.ts:328-345 | the new array holds the newest lines that fit, and the keys are trimmed alike |
| `LogStreams.LogStream.RefetchBuffer` | frontend/src/lib/logStreams.ts:299-328 | an empty ring of the new, clamped size without remembered lines, reset counters, and a request from the chosen start or for the server's tail |
| `LogStreams.LogStream.OpenSocket` | frontend/src/lib/logStreams.ts:545-574 | a stream without socket and timer has exactly one socket afterwards; a following stream that remembers a timestamped line asks from the newest such line on, any other from its chosen start or tail |
| `LogStreams.LogStream.ReconnectNow` | frontend/src/lib/logStreams.ts:211-226 | a manual reconnect keeps the buffer, asks from the newest remembered line or else the chosen start or tail, and leaves one socket and no timer, from any state with one token and from a restored one |
| `LogStreams.LogStream.OpenAgain` | frontend/src/lib/logStreams.ts:187-205 | opening a pooled stream never shrinks its ring, keeps its lines, and connects it if it was restored and is dormant |
| `LogStreams.LogStream.CloseForGood` | frontend/src/lib/logStreams.ts:361-367 | closing leaves neither a socket nor a timer of the stream |
| `LogStreams.LogStream.RetryFired` | frontend/src/lib/logStreams.ts:539-542 | the armed timer turns into exactly one socket |
| `LogStreams.LogStream.OnSocketOpened` | frontend/src/lib/logStreams.ts:576-580 | the opening is dated, so that a close within two seconds and without a new line counts as fast and empty |
| `LogStreams.LogStream.OnMessage` | frontend/src/lib/logStreams.ts:593-642 | a message's lines are handled in order: notices only before data, duplicates ignored, new lines appended and counters reset |
| `LogStreams.ReceiveIsMessage` | frontend/src/lib/logStreams.ts:593-642 | with the buffer left aside, handling a message is one message event of the connection whose runs are accounted for below |
| `LogStreams.LogStream.OnSocketClosed` | frontend/src/lib/logStreams.ts:644-685 | a stream with one socket or timer still has exactly one, or has given up, after a close event if and only if the event is the current socket's or nothing was there to forget |
| `LogReplay.ReplayIsSilentIff` | frontend/src/lib/logStreams.ts:455-475 | a replayed overlap changes nothing if and only if the key queue reaches back to where the replay starts |
| `LogReplay.ExactlyOnceIff` | frontend/src/lib/logStreams.ts:562-568 | over any number of connections cut anywhere, the server's lines are appended once each and in order, if and only if every reconnect repeats nothing, or repeats a group of lines of one timestamp that starts no earlier than the stream did and is no longer than the ring |
| `LogReplay.AskedFromResumeIndex` | frontend/src/lib/logStreams.ts:562-568 | asking from the last timestamp on, inclusive, is asking for exactly the lines the replay model sends |
| `LogReplay.SharedTimestampRepeats` | frontend/src/lib/logStreams.ts:562-568 | a new stream with a ring of one and any two lines of one timestamp: the first reconnect appends both again |
| `LogReplay.SplitGroupSwaps` | frontend/src/lib/logStreams.ts:562-573 | a ring of any size from two on and a tail that starts between two lines of one timestamp: the first reconnect appends the older line after the newer one |
| `LogReplay.RepeatedAtMidnight` | frontend/src/lib/logStreams.ts:477-483 | two such lines in the pattern's own form, and that run |
| `LogPersist.Hydrate` | frontend/src/lib/logStreams.ts:770-793 | restoring pushes the saved lines one by one into a new stream |
| `LogPersist.PersistHydrateRoundTrip` | frontend/src/lib/logStreams.ts:736-793 | a reload keeps the last min(2000, clamped tail) lines of every reachable ring; de-duplication loses none |
| `LogPersist.RestoredStates` | frontend/src/lib/logStreams.ts:744-786 | the state a stream has after saving and restoring, for every state before; the reconnecting ones have neither socket nor timer until opened, and then one socket |
| `LogConn.BackoffTable` | frontend/src/lib/logStreams.ts:533-535 | the delay doubles from 250 ms and stays at 8 s from the fifth empty connection on |
| `LogConn.OneSocketPerStream` | frontend/src/lib/logStreams.ts:500-693 | from creation or restoring on, while only the current socket is heard, a live stream has one socket or one timer, never both and never none, except a restored stream nobody has opened |
| `LogConn.StaleCloseIff` | frontend/src/lib/logStreams.ts:644-685 | the close event of a replaced socket keeps one socket or timer if and only if no socket is connected and no timer is armed that the handler would double |
| `LogConn.StaleCloseOrphansSocket` | frontend/src/lib/logStreams.ts:644-685 | heard while another socket is connected, it leaves that one open and forgotten, and the next connection makes two |
| `LogConn.OneTokenThroughoutIff` | frontend/src/lib/logStreams.ts:500-693 | over every run with late close events: one socket or timer throughout if and only if no such event occurs |
| `LogConn.ManualReconnectDoubles` | frontend/src/lib/logStreams.ts:211-226 | a run of a manual reconnect that ends with two open sockets |
| `LogRetry.RetryAccounting` | frontend/src/lib/logStreams.ts:576-685 | over every run from creation, a manual reconnect, a refetch or a restore, while only the current socket is heard, with every connection judged by its events alone (its open, the kinds and novelty of its lines, its close): both counters equal the empty connections since the last delivery or manual reset, the stream has ended if and only if three of them closed within two seconds of opening, or six on a stream that does not follow, and an armed timer has the delay of that count |
| `LogRetry.DelayBounds` | frontend/src/lib/logStreams.ts:525-543 | over every run, late close events included, every armed timer, remembered or not, has a delay within 250..8000 ms |
| `LogRetry.DelayNeverDecreases` | frontend/src/lib/logStreams.ts:533-535 | at any two points of a run in which only the current socket is heard, without a delivery or manual reset between them, the armed backoff delay has not shrunk |
| `LogRetry.SixEmptyConnectionsEnd` | frontend/src/lib/logStreams.ts:527-532 | a stream that does not follow, and of which only the current socket is heard, has ended once a stretch without a delivery or manual reset has seen six empty connections, waiting ones not counted |
| `Replica.ResourceCollection.ApplyFrame` | frontend/src/lib/useResourceList.ts:73-115 | one frame's effect on the item map and on the uid sets of the sources |
| `Replica.ResourceCollection.Fail` | frontend/src/lib/useResourceList.ts:117-126 | an error is shown next to the items, which stay |
| `Replica.FrameAt` | frontend/src/lib/useResourceList.ts:73-115 | a frame changes what its own source shows, and every item stays in exactly the set of its own source |
| `Replica.SourceDependsOnItself` | frontend/src/lib/useResourceList.ts:238-249 | after any run, what a source shows is the fold of its own frames |
| `Replica.InterleavingConfluence` | frontend/src/lib/useResourceList.ts:238-249 | two interleavings of the same per-source sequences leave the same items |
| `Replica.SnapshotHeals` | frontend/src/lib/useResourceList.ts:74-91 | a snapshot makes its source exact whatever came or was lost before |
| `Pipeline.ReplayedSuffixIsSilent` | internal/clusters/informers.go:231-246 | replaying deltas that a snapshot already contains changes nothing |
| `Pipeline.InFlightReachesStore` | internal/clusters/informers.go:331-351 | in every state of every run, applying socket, queue, channel and unbroadcast deltas to the copy gives the informer's store at exactly the uids that are not lost |
| `Pipeline.NothingLostWithoutMisses` | internal/clusters/informers.go:231-246 | nothing is lost while channels have room, no uncovered delta is broadcast between reading and queueing a snapshot, and separate lists agree with the informer |
| `PipelineOrder.HandledInOrder` | internal/clusters/informers.go:331-351 | over every run the k-th delta a source's handler takes is the k-th its informer saw |
| `PipelineOrder.FramesConserved` | internal/api/stream.go:233-300 | over every run the frames a subscriber's channel accepted are the frames applied to the client's copy followed by those still in socket, queue and channel: none lost, doubled or overtaken, and channel and queue stay within 256 and 1024 |
| `Pipeline.EndToEndReplica` | internal/api/stream.go:233-300 | when all queues are empty, the client shows of an object what its informer's store holds if and only if the object is not lost, and nothing else |
| `Pipeline.SnapshotRightIff` | internal/clusters/informers.go:231-319 | in every run, when a snapshot is queued, from the informer's store or from a separate list before it synced: the client will be right about an object if and only if the snapshot agrees with the store about it by then, or a delta of it is still to be broadcast |
| `Pipeline.DropWrongIff` | internal/clusters/informers.go:344-350 | in every run a broadcast makes a client that is right about an object wrong if and only if a full channel drops the delta, the delta changes what the client is going to show, and no later one of the object is pending |
| `Pipeline.WrongIff` | internal/clusters/informers.go:331-351 | in every run, while a connection lasts, the client is wrong about an object if and only if it was wrong at the start or such a drop happened since, and the informer has seen no delta of the object after that |
| `Pipeline.RightUntilLost` | internal/clusters/informers.go:331-351 | a client that is right about an object stays right until such a drop or the end of the connection |
| `Pipeline.GapLosesDelta` | internal/clusters/informers.go:231-246 | for either kind of snapshot, a run that ends with the client showing an old object |
| `Pipeline.FullChannelLoses` | internal/clusters/informers.go:344-350 | a run that fills the channel and loses the next delta |
| `Pipeline.NextDeltaRepairs` | internal/clusters/informers.go:344-350 | in every run the next delta the informer sees of an object makes the client right about it, whatever was lost before |
| `Informers.KeyIsInjective` | internal/clusters/informers.go:93-95 | resources and namespaces with one key are the same |
| `Informers.OneLiveInformer` | internal/clusters/informers.go:162-229 | in every interleaving no two uncancelled informers watch one resource and namespace |
| `Informers.StopSparesOthers` | internal/clusters/informers.go:353-374 | a late stop of one entry touches no other entry |
| `Informers.OrphanedIff` | internal/clusters/informers.go:162-383 | in every interleaving an entry is cancelled and has subscribers if and only if some step cancelled it (a delayed stop, the creator's failed snapshot, or the end of everything) and some subscriber attached for good |
| `Informers.StopLeavesOnlyLateComers` | internal/clusters/informers.go:358-368 | when it was a delayed stop, every subscriber left behind attached after each check that had found the entry empty before that stop, the stop's own included |
| `Informers.OrphanedSubscriber` | internal/clusters/informers.go:358-368 | a run in which a subscriber comes back between the check and the cancellation |
| `Informers.OrphanedByCreator` | internal/clusters/informers.go:231-237 | a run in which the creator's failed snapshot cancels the informer under another subscriber |
| `Informers.InformerStore.FindOrCreate` | internal/clusters/informers.go:162-229 | the first critical section of a subscription finds or creates the live entry of its key |
| `Informers.InformerStore.AttachChannel` | internal/clusters/informers.go:239-243 | the last one attaches a new channel, to an entry that may have been cancelled since |
| `Informers.InformerStore.GiveUp` | internal/clusters/informers.go:231-237 | after a failed snapshot the creator's entry is cancelled and no other, a later subscriber's stays |
| `Informers.InformerStore.RemoveEntry` | internal/clusters/informers.go:322-329 | the entry is cancelled afterwards and no other is |
| `Informers.InformerStore.CloseStream` | internal/clusters/informers.go:254-263 | one subscriber leaves, and emptiness is reported |
| `Informers.InformerStore.StopEverything` | internal/clusters/informers.go:376-383 | every entry is cancelled and the map is empty |
| `Broadcasts.SendPanicsIff` | internal/clusters/informers.go:254-263 | in every interleaving a broadcast sends on a closed channel if and only if the channel was closed after the broadcast had copied the list of channels |
| `Broadcasts.BroadcastPanics` | internal/clusters/informers.go:331-351 | a run in which the only subscriber leaves in between |
| `StreamMux.RunConserves` | internal/api/stream.go:178-231 | over every run each open stream is under exactly one sid, in the reader's hands, or leaked |
| `StreamMux.AllClosedIff` | internal/api/stream.go:334-345 | after a shutdown every opened stream is closed if and only if none was put into the table afterwards |
| `StreamMux.ShutdownLeaks` | internal/api/stream.go:206-211 | a run in which the connection shuts down while the reader opens a stream, which stays open |
| `ClusterStreams.ConnectionToken` | frontend/src/lib/stream.ts:81-187 | until dead, a connection has exactly one unclosed socket, armed timer or liveness check, and every delay is in 500..8000 ms |
| `ClusterStreams.DeadStaysDead` | frontend/src/lib/stream.ts:163-187 | once dead, no further socket is opened |
| `ClusterStreams.ArmedDelays` | frontend/src/lib/stream.ts:178-187 | over every run the k-th delay armed since the beginning or the last open is 500 ms times 1.7 to the power of k, at most 8 s, k from 0 |
| `ClusterStreams.FlagsTellEvents` | frontend/src/lib/stream.ts:81-187 | over every run, when the socket was created, whether one ever opened, whether the current one is open and whether the stream is dead are what the events say; only the user and a list without the cluster end it |
| `ClusterStreams.CheckedIff` | frontend/src/lib/stream.ts:81-114 | over every run, a closing socket of a live stream is answered by a liveness check if and only if none has opened yet and this one was created less than two seconds ago, and by an armed timer otherwise |
| `ClusterStreams.ClusterStream.SocketOpened` | frontend/src/lib/stream.ts:92-100 | on open every active subscription is sent exactly once |
| `ClusterStreams.ClusterStream.TimerFired` | frontend/src/lib/stream.ts:178-187 | the armed timer turns into exactly one new socket |
| `ClusterStreams.ClusterStream.SocketClosed` | frontend/src/lib/stream.ts:101-114 | after a close a live stream has exactly one liveness check, if it never connected and was closed at once, or else exactly one timer |
| `ClusterStreams.ClusterStream.CheckAnswered` | frontend/src/lib/stream.ts:141-176 | only a list without the cluster kills the stream; exactly when it dies every subscriber is told, and a stream that lives has its timer armed |
| `ClusterStreams.ClusterStream.AddSubscription` | frontend/src/lib/stream.ts:189-200 | the sid is one nobody had, the other subscriptions stay; the message goes out on an open socket, and a dead stream refuses |
| `ClusterStreams.ClusterStream.DropSubscription` | frontend/src/lib/stream.ts:201-211 | the sid goes, is not handed out again, and all other subscriptions stay |
| `ClusterStreams.ClusterStream.Shutdown` | frontend/src/lib/stream.ts:213-221 | no subscription and no timer is left, and no later event opens a socket |
| `Reconciliation.SubscriptionsReconcile` | frontend/src/lib/stream.ts:189-211 | over every run, while the socket is open, the server's table after the pending messages is `active` without the rejected sids, and no sid is subscribed twice on a connection |
| `Reconciliation.FramesReachTheirHandler` | frontend/src/lib/stream.ts:118-128 | a frame that reaches a handler belongs to that handler's resource and namespace, error frames and frames that drain after an unsubscribe included |
| `Reconciliation.ServerAnswers` | internal/api/stream.go:178-231 | over every run a handled subscription is in the table and served if it was accepted, else answered by one error frame if there is room; an unsubscribe empties its sid; no other sid changes |
| `Reconciliation.NothingOutlivesConnection` | internal/api/stream.go:334-345 | over every run, while the client waits for its socket to open, no message, stream or frame of an earlier connection is left |
| `JsonText.EscapedLength` | frontend/src/components/LogRow.tsx:189-191 | in a displayed string a unit takes two units if it has a short escape, six if it is another control character or a broken surrogate, and is itself otherwise |
| `JsonText.EscapedFirst` | frontend/src/components/LogRow.tsx:189-191 | a surrogate pair is shown as itself, any other unit on its own |
| `JsonText.QuoteRoundTrip` | frontend/src/components/LogRow.tsx:189-191 | a stringified string reads back as itself, lone surrogates included |
| `JsonText.IndexIff` | frontend/src/components/LogRow.tsx:154-166 | the keys an object lists first are the numerals of the numbers below 4294967295 |
| `JsonParse.NumberIff` | frontend/src/components/LogRow.tsx:110-123 | a lexeme is taken for a number if and only if it is an optional minus sign, digits without a leading zero, an optional fraction and an optional power of ten (RFC 8259, section 6) |
| `JsonParse.ParsedIsNormal` | frontend/src/components/LogRow.tsx:110-123 | every parsed value lists object keys in JavaScript's order and carries printed numbers |
| `LogRow.TrimmedBoth` | frontend/src/components/LogRow.tsx:111 | trimming takes white space away at both ends, all of it and nothing else |
| `LogRow.TakenIff` | frontend/src/components/LogRow.tsx:110-123 | a body is taken for JSON if and only if, trimmed, it parses as an object or an array; the look at its ends turns nothing away |
| `LogRow.ParsePretty` | frontend/src/components/LogRow.tsx:138-182 | the text of a value at any depth reads back as the value with its embedded payloads expanded, or fails if a number is infinite |
| `LogRow.PrettyRoundTrip` | frontend/src/components/LogRow.tsx:311-315 | for every JSON body the displayed text parses to the expanded value if and only if no number overflows |
| `LogRow.OverflowIsNotJson` | frontend/src/components/LogRow.tsx:138-182 | the display of a one-number array whose number overflows is not a JSON text |
| `LogRow.LargeLexeme` | frontend/src/components/LogRow.tsx:110-123 | `1e999` is such a number, and some reading of numbers meets the assumption made about them |
| `LogRow.ExpandIsComplete` | frontend/src/components/LogRow.tsx:169-180 | expanding what is shown finds nothing left to expand |
| `LogRowExpansion.ExpandAt` | frontend/src/components/LogRow.tsx:169-180 | wherever a value is nested, at any depth: above depth 8 a string that is the text of an object or array is replaced by that value, expanded; every other string, key and scalar stays |
| `LogRowExpansion.NothingHidden` | frontend/src/components/LogRow.tsx:169-180 | no string of an expanded value above depth 8 is, trimmed, the text of an object or array |
| `LogRowLayout.BodyIsLaidOut` | frontend/src/components/LogRow.tsx:133-182 | every displayed JSON body has one item or bracket a line, each line indented by two spaces for every open bracket, a space after every colon and nowhere else outside strings, and closes every bracket it opens |
| `LogRowRender.JsonRow.RenderJson` | frontend/src/components/LogRow.tsx:138-182 | without its colours the appended output is the pretty text, every token has the colour of its kind and white space none, and the spans stay numbered consecutively; the recursion ends |
| `LogRowRender.RenderBody` | frontend/src/components/LogRow.tsx:311-315 | a row's span keys are distinct and its text is the pretty text of the body |
| `Percent.DecodeEncode` | frontend/src/components/BottomPane.tsx:128-177 | decoding undoes encoding for every string |
| `Percent.EncodedChar` | frontend/src/components/BottomPane.tsx:128-151 | letters, digits and nine marks stay, everything else becomes escapes |
| `Percent.EncodeIsInjective` | frontend/src/components/BottomPane.tsx:128-151 | different strings have different encodings |
| `Percent.EncodedWithout` | frontend/src/components/BottomPane.tsx:128-151 | encodings contain neither separator |
| `BottomPane.RefRoundTrip` | frontend/src/components/BottomPane.tsx:51-151 | a printed reference reads back in canonical form if it survives, and not at all otherwise, for every reference |
| `BottomPane.CanonicalFields` | frontend/src/components/BottomPane.tsx:128-151 | the canonical form, field by field: every text as it was, an empty optional one missing |
| `BottomPane.CanonicalResource` | frontend/src/components/BottomPane.tsx:51-151 | what becomes of a resource of any number of parts: the first three are kept, a template hint writes the core group as nothing, an editor reference as `core` and a missing part as `undefined` |
| `BottomPane.ParsedIsComplete` | frontend/src/components/BottomPane.tsx:51-126 | whatever text is read as a reference begins with its action's name and has what the action needs |
| `BottomPane.TabListRoundTrip` | frontend/src/components/BottomPane.tsx:153-169 | a printed list reads back as its survivors in canonical form, in order, for every list |
| `BottomPane.RefsEqualIffSameCanonical` | frontend/src/components/BottomPane.tsx:171-173 | `refsEqual` is equality of canonical forms |
| `BottomPane.ParsedButNotPrintable` | frontend/src/components/BottomPane.tsx:112-126 | a legacy reference that is read and cannot be printed |
| `BottomPane.CloseTab` | frontend/src/components/BottomPane.tsx:246-250 | the remaining tabs and the active index after closing one |
| `BottomPane.ActiveTabKeptIff` | frontend/src/components/BottomPane.tsx:246-250 | closing another tab of any list keeps the active one if and only if that tab stood behind it, the active one was last, or the next tab is the same again |
| `BottomPane.ActiveTabMoves` | frontend/src/components/BottomPane.tsx:246-250 | closing the first of three tabs with the middle one active shows the last |
| `BottomPane.AddTab` | frontend/src/components/BottomPane.tsx:254-263 | the first equal tab of any list is focused, else the tab is appended and focused; distinct tabs stay distinct |
| `Names.FreshName` | internal/clusters/import.go:215-223 | the unbounded suffix search ends with the first unused variant |
| `Names.DigitsStandFor` | internal/clusters/import.go:215-223 | the suffix is the decimal numeral of the try, without a leading zero |
| `Names.FreshNameIsUnique` | internal/clusters/import.go:215-223 | that variant is determined |
| `ClusterManager.AddedAreNew` | internal/clusters/import.go:214-249 | added names are new, distinct, and one per usable context |
| `ClusterManager.Manager.InsideCluster` | internal/clusters/manager.go:70-86 | inside a cluster the manager starts with that cluster as its only one and its default |
| `ClusterManager.Manager.constructor` | internal/clusters/manager.go:88-160 | otherwise it starts from the host's usable contexts, imports the files one by one, and its default is the configured, the file's or the first cluster |
| `ClusterManager.Manager.ForIdentity` | internal/clusters/manager.go:440-477 | an identity's manager starts from nothing, imports its files and the adopted ones one by one, and its default is its first cluster |
| `ClusterManager.Manager.AddContexts` | internal/clusters/import.go:183-261 | usable contexts become clusters under fresh names, nothing present changes, a merged file is skipped, the first addition becomes the default of a manager without one, and a default stays a cluster |
| `ClusterManager.Manager.LoadImported` | internal/clusters/import.go:85-119 | the files are imported one after the other; loading them again changes nothing |
| `ClusterManager.LoadsAddClusters` | internal/clusters/import.go:85-119 | importing files adds a cluster of its own for each usable context of each file not merged before, keeps all others, and adds no more |
| `ClusterManager.CleanedFile` | internal/clusters/import.go:299-351 | the first file with the context goes, and its path is forgotten, if and only if that is its only context; otherwise it stays without it; all other files stay in order |
| `ClusterManager.NothingToClean` | internal/clusters/import.go:299-322 | without such a file nothing is cleaned up |
| `ClusterManager.CleanedKeepsOthers` | internal/clusters/import.go:274-351 | cleaning up after a cluster leaves every other context of every file where and as it was, and adds none |
| `ClusterManager.Manager.ImportKubeconfig` | internal/clusters/import.go:136-175 | an inline import adds fresh clusters, and loading the file it was written to adds nothing again |
| `ClusterManager.Manager.Remove` | internal/clusters/manager.go:340-377 | exactly that cluster goes and the manager stays valid, the default changes only if it was that cluster, and the first file with its context is cleaned up; inside a cluster it is refused |
| `ClusterManager.Manager.CleanUp` | internal/clusters/import.go:274-351 | the first file that has the context is unlinked and forgotten, or stripped; no other file changes |
| `ClusterManager.Manager.SetCurrent` | internal/clusters/manager.go:411-419 | only a known cluster becomes the default |
| `ClusterManager.RunsKeepValid` | internal/clusters/manager.go:40-44 | over every sequence of imports, selections and removals the order is strictly ascending with exactly the cluster names, and the default is one of them as long as there is one |
| `ClusterManager.CurrentEmptyIff` | internal/clusters/manager.go:340-361 | over every such sequence the default is empty exactly when there are no clusters, if and only if no operation picks the cluster with the empty name: by selecting it, by importing it into an empty manager, or by removing the default beside it |
| `ClusterManager.NamelessIsImported` | internal/clusters/import.go:214-223 | a cluster gets the empty name only from a usable context of that name |
| `ClusterManager.NamelessDefault` | internal/clusters/import.go:255-260 | a run in which an empty manager imports such a context |
| `Restarts.RenamedComesBack` | internal/clusters/import.go:274-351 | a removed cluster that no file knows by its name, as a renamed one, is back after every restart |
| `Restarts.SecondIsRenamed` | internal/clusters/import.go:214-223 | two files with one context name make such a cluster |
| `Restarts.StaysRemovedIff` | internal/clusters/import.go:274-351 | any other removed cluster stays away if and only if no file behind the first one with a context of its name has another usable one |
| `KubeconfigFile.RemoveContext` | internal/clusters/import.go:299-351 | a file is left alone, unlinked, or rewritten without the context and what only it named |
| `KubeconfigFile.ContextsLoseOne` | internal/clusters/import.go:325-346 | exactly the removed name goes, no entry it did not name goes, and another current context stays |
| `KubeconfigFile.ReferencesKeptIff` | internal/clusters/import.go:326-343 | every reference that resolved still does if and only if no nameless entry is shared |
| `KubeconfigFile.NamelessEntryIsLost` | internal/clusters/import.go:326-343 | two contexts that share the cluster with the empty name: removing one breaks the other |
| `KubeconfigFile.NoGarbageLeft` | internal/clusters/import.go:326-343 | a file without unreferenced entries has none afterwards |
| `Favourites.SlotsOfCluster` | frontend/src/lib/favourites.ts:41-99 | slot k is the k-th entry of the shared list that belongs to the cluster, and there are no other slots |
| `Favourites.PinsFirst` | frontend/src/lib/favourites.ts:57-64 | a cluster, group, version, resource, namespace and name not pinned yet goes first and the list is cut to 64; a pinned one changes nothing |
| `Favourites.ReorderMovesBefore` | frontend/src/lib/favourites.ts:77-92 | reordering permutes, leaves every other cluster's view alone, and moves the entry immediately before the holder of slot `to` |
| `Favourites.LandingSlot` | frontend/src/lib/favourites.ts:77-99 | the slot the moved entry answers to afterwards |
| `Favourites.LandsAtTargetIff` | frontend/src/lib/favourites.ts:86-89 | it is slot `to` if and only if the move was not downward |
| `Favourites.ToggleTwiceIff` | frontend/src/lib/favourites.ts:49-71 | pinning and unpinning restores the list if and only if it was not full |
| `Favourites.FullListLosesOne` | frontend/src/lib/favourites.ts:57-64 | a list of 64 different entries that loses one |
| `Favourites.FavouriteStore.Add` | frontend/src/lib/favourites.ts:57-64 | a new entry goes first and the list is cut to 64 |
| `Favourites.FavouriteStore.Remove` | frontend/src/lib/favourites.ts:66-71 | every entry with the same reference goes |
| `Favourites.FavouriteStore.Move` | frontend/src/lib/favourites.ts:77-92 | the two splices amount to the one move |
| `EventsIndex.BuildIndex` | frontend/src/lib/eventsIndex.ts:86-117 | the two maps hold, in event order, the shown warnings of each uid and of each name |
| `EventsIndex.WarningsOfRow` | frontend/src/lib/eventsIndex.ts:79-140 | a lookup gives, in event order, one warning for each event of type Warning that bears the row's uid, or if there is none its kind, namespace and name, and whose first timestamp present can be read and is at most thirty minutes old for ten severe reasons, five for all others; names may contain slashes |
| `EventsIndex.EventIndexHook.Render` | frontend/src/lib/eventsIndex.ts:78-120 | an evaluation returns the memo if list, switch and tick are the same, else a cached index of less than three seconds ago for the same list, else a new one |
| `EventsIndex.EventIndexHook.OnTick` | frontend/src/lib/eventsIndex.ts:70-76 | right after a tick the index on display is less than three seconds old |
| `EventsIndex.BadgeOutlivesWindowByLess` | frontend/src/lib/eventsIndex.ts:61-140 | over every run a badge, found by uid or by name, outlives its window by less than six seconds and the lateness of the interval |
| `EventsIndex.OlderThanInterval` | frontend/src/lib/eventsIndex.ts:61-120 | a run in which the index on display is one millisecond short of six seconds old |

## Left out

- Which inbound log lines are "pod gone" or "container starting" notices: the two patterns are an input of the message
  handler (frontend/src/lib/logStreams.ts:708-715), as is the splitting of a frame into lines.
- Error texts, start and end times, snapshots for subscribers, the ping timer, and the pool of streams with its
  selection of twelve for storage and its eviction (frontend/src/lib/logStreams.ts:695-706, 741-743).
- The parsing of `logfmt` lines, severity colours and search marks (frontend/src/components/LogRow.tsx:81-101, 205-252).
- How JavaScript rounds a number: `NumberText` stands for `String(Number(lexeme))` with the assumption `NumbersPrint`,
  so 0 and -0 are one number.
- Strings with lone surrogates in tab references: `encodeURIComponent` throws on them; JSON texts do allow them.
- Listeners that subscribe while the open event is being announced: connection listeners only set state in the source
  (frontend/src/lib/stream.ts:74-79).
- Client-go: an informer's store is keyed by uid, and an update never changes the uid of a stored object. Store and
  pending broadcasts are the two places a delta can be in.
- Timers and clocks are steps and parameters; batching by animation frame, reference counts of shared collections and
  the thirty-second timeout are not modelled.
- `Cluster.Stop`, which cancels the context all informers derive from: a later subscriber's informer would be cancelled
  from the start. Stopping all entries, which pausing a cluster also does, is a step of the model.
- Building clients, tokens and the network: whether a context is usable, a resource resolves or a list call succeeds is
  an input, as are the files a directory lists. Reading and writing them is outside the model.
- Restarts.StaysRemovedIff: does not cover names that are numbered variants of another usable context's name, for which
  the outcome depends on how many contexts of that name precede; a renamed cluster is `Restarts.RenamedComesBack`.
- Slices that share memory: `Remove` filters the order in place, the model builds a new list.
