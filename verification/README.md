# nats-consol: verified model

This project models the hardest logic of an admin console for NATS and proves properties of it that
span whole runs, several functions, or a printer and its reader. `dafny verify dfyconfig.toml` checks
everything.

| module | what it models |
|---|---|
| `LiveMux` | viewers of one key sharing one JetStream subscription, as interleaved lock sections |
| `MuxHistory` | what a run of it says about the calls it is made of |
| `LiveGate` | the fan-out into a viewer's bounded queue, the write loop, and the gate that counts and paces frames |
| `RefreshRotation` | refresh-token rotation over the token table, with any number of rotations in flight and faults at every statement |
| `RotationHistory` | who may rotate what, told from the actions of a run alone, and what a revocation leaves |
| `DlqRetry` | listing, collecting and retrying dead letters, with a failure possible at every call |
| `DlqInterleaving` | the same with every call to the server a step of its own and any number of retries in flight |
| `SeqNav` | the binary search for a predecessor over sparse sequence numbers, and its cache |
| `SubjectMatch` | two wildcard matchers and the overlap test |
| `SubjectNaming` | the subject normaliser and the two clustering keys |
| `NormalForm` | which tokens the normaliser emits, and what the keys make of plurals and actions |
| `GenomeRelations` | the path from stream inputs through genome clusters to related events |
| `GenomeFindings` | what the genome analysis reports, finding by finding |
| `FrameJson` | the hand-written JSON printer and a reader that inverts it |
| `FrameUtf8` | which frames it prints as valid UTF-8 |
| `ConnectionManager` | cached clients, session generations and status listeners under one mutex |
| `ManagerEffects` | what each of its steps does to generations, clients, channels and statuses |
| `UserAdmin` | permissions and user operations over the user table |
| `IncidentTimeline` | skip-ahead detectors and the timeline they feed |
| `TimelineContents` | what a timeline contains, event by event |
| `BottleneckRollup` | the hourly upsert, over real numbers |
| `RollupOrder` | which of its columns depend on the order of the upserts, and when |
| `Text`, `Wrappers` | ASCII string operations, decimal numbers, Option and Result |

How to read it. A component that changes state step by step has a specification on values (a `State`,
one function per step, and a run as a sequence of steps), a class whose methods do what the source's
methods do and are proved equal to those functions, and lemmas over all runs. What a step function must do is
also stated without it, from the history of a run or from the fields it reads, so that the laws say both
what may not happen and what has to. An algorithm with a loop is
a method proved against a function or a relation whose properties are lemmas. Clocks, the network and
the database enter as parameters: the outcome of every call that may fail is an argument, so each result
holds for every pattern of failures.

What came out other than expected:

- A single refresh token cannot be revoked while the row it was rotated from is still in the table: the
  foreign key `replaced_by` refuses the delete, and `RevokeRefreshToken` only logs the error
  (`RefreshRotation.SingleRevocation` is the exact condition, `SingleRevocationCanFail` a run).
- Retry-all may report `truncated` with 0 messages remaining, when only deleted sequences follow
  (`DlqRetry.DlqClient.CollectRetryAllSequences`; `DlqRetry.TruncatedWithNothingRemaining` is a retry-all
  that does).
- `findPrevSeq` may miss the nearest existing sequence; `SeqNav.NearestExactly` says when it does not.
- The two matchers differ in exactly one case, a filter that fits the whole subject and goes on with
  `>` (`SubjectMatch.NatsSubjectMatch`), such as `a.>` and the subject `a` (`MatchersDisagree`).
- The overlap test misses exactly those patterns with a common subject of which each exceeds the other: it
  has more or fewer tokens than the other takes, or a wider token where the other has a literal
  (`SubjectMatch.OverlapMissesExactly`, with a token-wise condition for the common subject; examples with
  and without `>` are `a.>` with `*.b` and `a.*.c` with `*.b.c`).
- A session opened after an eviction that fell between getting the client and reading the generation
  passes its check with a client that is gone; `ConnectionManager.PassingSessionHoldsCached` is the exact
  condition, `StaleSessionCanPass` a run.
- `Permissions.SupersetOf` does not look at `AllClusters` (`UserAdmin.SupersetExactly`), so a manager of one
  cluster may delete a full admin (`SupersetMissesAllClusters`).
- Users other than root can add to what they hold together exactly when one of them may manage users and
  assign the role admin, one has neither access rules nor that role, and none is a full admin already
  (`UserAdmin.EscalationExactly`; `EscalationExample` is one request). Without a user who lacks access
  rules nothing escalates (`NothingEscalates`).
- The average payload and the average processing time of a rollup depend on the order of the upserts, while
  sample count, maximum and average lag do not. The reason is that observations without a time, or without a
  positive payload, are skipped but still counted. `RollupOrder.TimeOrderExactly` and `PayloadOrderExactly`
  say for which observations the order matters; `RollupOrder.TimeDependsOnOrder` and
  `BottleneckRollup.PayloadDependsOnOrder` are examples.
- Keys of the occurrence inventory are glued with NUL, so a subject that contains it can hide another one
  (`GenomeRelations.InventoryExactly`, `SubjectCanBeHidden`).
- The comment in `detectLagGrowth` says an episode ends when lag drops or flattens; the code, and this
  model, end it only at a drop. The two report the same jumps exactly if no unbroken rise has two jumps
  with a flat pair between them (`IncidentTimeline.EpisodesAgreeExactly`); for lag 0, 50, 50, 100 they do
  not (`FlatEpisodeExample`).
- The JSON printer's replacement for malformed UTF-8 is never written: a frame goes out as valid UTF-8,
  which RFC 8259 asks for, exactly if all its strings are (`FrameUtf8.FrameUtf8Exactly`, `BadByteGoesOut`).

## Model

| member | source | states |
|---|---|---|
| LiveMux.RunsKeepInv | internal/live/mux.go:142-219 | every interleaving of joins, subscribe results, ready signals, wake-ups, detaches and unsubscribe calls keeps the invariant over map, shared subscriptions, viewers and subscriptions |
| LiveMux.StepKeepsInv | internal/live/mux.go:142-219 | each single lock section keeps that invariant from any state that has it |
| LiveMux.DetachKeepsInv | internal/live/mux.go:194-219 | detach keeps the invariant, also when it is a second call or meets a newer shared subscription under the same key |
| LiveMux.DetachFinds | internal/live/mux.go:194-206 | a viewer that has not left finds its own shared subscription under its key; one that has left is not a member of whatever it finds |
| LiveMux.JoinersAgree | internal/live/mux.go:160-191 | all viewers that joined one shared subscription get the same outcome |
| MuxHistory.OutcomeIsTheCalls | internal/live/mux.go:160-191 | attach succeeds if and only if the one Subscribe call for its shared subscription did |
| MuxHistory.OwnersAreSuccesses | internal/live/mux.go:166-180 | the subscriptions opened are those of the Subscribe calls that succeeded, in their order, each under the shared subscription it was opened for |
| MuxHistory.RequestsAreKept | internal/live/mux.go:142-219 | a viewer has the key it asked for, and has left if and only if it detached |
| MuxHistory.ClosedAreUnsubscribed | internal/live/mux.go:194-219 | a subscription counts as closed as often as its Unsubscribe call has run |
| MuxHistory.PendingCanRun | internal/live/mux.go:215-219 | a subscription handed over can be unsubscribed, and then counts as closed once more |
| LiveMux.ShareExactlyByKey | internal/live/mux.go:142-165 | two present viewers share a subscription if and only if their keys are equal in every part, and it is the one in the map |
| LiveMux.EntriesAreUsedAndSubscribedOnce | internal/live/mux.go:142-180 | every map entry has a present viewer, and Subscribe runs exactly once for each shared subscription |
| LiveMux.HeldExactlyWhileViewed | internal/live/mux.go:194-219 | a successful subscription is held by its shared subscription if and only if that has viewers |
| LiveMux.UnsubscribedOnceWhenEmpty | internal/live/mux.go:194-219 | a subscription has been handed to Unsubscribe exactly once if its last viewer has left and not at all before |
| LiveMux.NothingLeaks | internal/live/mux.go:194-219 | when everybody has left the map is empty and every subscription was unsubscribed exactly once |
| LiveMux.SecondCallIsHarmless | internal/live/mux.go:182-219 | calling an unsubscribe closure again changes nothing at any later time, even after the key is reused |
| LiveMux.NobodyIsStranded | internal/live/mux.go:166-191 | no attach call is stuck: its next step is enabled, or the call that subscribes for it can go on |
| LiveMux.AnyoneMayJoin | internal/live/mux.go:142-160 | joining is possible in every reachable state |
| LiveMux.SubMux.Join | internal/live/mux.go:142-160 | the locked section of attach over objects does exactly the join step and changes no other shared subscription |
| LiveMux.SubMux.Record | internal/live/mux.go:166-180 | storing the result of Subscribe does exactly the record step |
| LiveMux.SubMux.CloseReady | internal/live/mux.go:176-184 | closing ready does exactly the publish step |
| LiveMux.SubMux.Wake | internal/live/mux.go:160-165 | a waiter that wakes sees the outcome its shared subscription recorded |
| LiveMux.SharedSub.RemoveViewer | internal/live/mux.go:203-212 | removing the last viewer hands over the subscription and clears it; removing another one touches the viewer set alone |
| LiveMux.SubMux.Detach | internal/live/mux.go:194-219 | the locked section of detach does exactly the detach step and returns the subscription to close, if any |
| LiveGate.RunsKeepInv | internal/live/hub.go:264-316 | every interleaving of fan-out, write loop and client messages keeps the invariant over queue, gate and history |
| LiveGate.AcceptedInOrder | internal/live/hub.go:288-316 | accepted frames are a subsequence of the frames fanned out, hence in stream order and free of duplicates |
| LiveGate.AtMostMaxBetweenClears | internal/live/hub.go:288-316 | at most MaxMessages frames are accepted between two clears |
| LiveGate.PacedAndBounded | internal/live/hub.go:288-316 | any two acceptances are at least the rate limit apart, the queue never exceeds 64, and no accepted payload exceeds the viewer's limit, given that frames are offered cut as Fanout proves it cuts them |
| LiveGate.GateExactly | internal/live/hub.go:288-316 | the gate accepts the frame in flight if and only if the session is open, fewer than MaxMessages were accepted since the last clear and the last acceptance is at least the rate limit ago, all told from the history; it closes the session if and only if MaxMessages were |
| LiveGate.QueueExactly | internal/live/mux.go:59-87 | a frame joins the queue if and only if the session is open and not paused and the queue has room; frames leave it from the front and are lost only to a closed session |
| LiveGate.StepsAreEnabled | internal/live/mux.go:59-87 | the write loop can go on whenever it has a frame, and nothing else waits |
| LiveGate.ClosesExactly | internal/live/hub.go:264-316 | what closes a session, and that nothing opens it again |
| LiveGate.HistoryIsKept | internal/live/hub.go:346-367 | the history is that of the events: frames fanned out, the pause last asked for, one clear for each request |
| LiveGate.NothingIsDropped | internal/live/mux.go:59-87 | without a rate limit and within the limits of queue and session, every frame fanned out is accepted, in flight or queued, in order |
| LiveGate.ClosedAcceptsNothing | internal/live/hub.go:264-294 | once a session has closed it stays closed and accepts nothing in any continuation of the run |
| LiveGate.CountAfterClear | internal/live/hub.go:355-367 | the frames accepted since a point after the last clear are no more than the counter says |
| LiveGate.MuxViewer.TrySendFrame | internal/live/mux.go:75-87 | a frame is queued if and only if the viewer listens and has room; a full queue drops it |
| LiveGate.MuxViewer.WriteLoopStep | internal/live/mux.go:59-67 | the write loop takes the oldest frame and discards it if the viewer is stopped |
| LiveGate.MuxViewer.SendMessageFrame | internal/live/hub.go:288-316 | the gate closes at the limit, skips inside the rate limit, otherwise counts and stamps the frame |
| LiveGate.MuxViewer.ClearCount | internal/live/hub.go:355-367 | clear resets the count and nothing else |
| LiveGate.Fanout | internal/live/mux.go:221-260 | one frame, cut to the smallest positive truncation among listening viewers, is offered to exactly the listening viewers, and to each of them it is an offer the runs allow |
| RefreshRotation.RunsKeepInv | internal/auth/refresh.go:40-88 | every interleaving of logins, rotations, logouts and clock ticks, with a fault possible at every statement, keeps the invariant over table and rotations |
| RefreshRotation.ExecKeepsInv | internal/auth/refresh.go:40-88 | so does every continuation of a state that has it |
| RefreshRotation.AtMostOneWinner | internal/auth/refresh.go:74-88 | a refresh token is rotated successfully at most once |
| RotationHistory.CheckExactly | internal/auth/refresh.go:40-64 | when a presented token is accepted, reuse, or expired, in terms of its row |
| RotationHistory.MarkExactly | internal/auth/refresh.go:74-82 | without a fault the mark wins if and only if the old row is there and unreplaced and the new row is there; it leads to a revocation if and only if the old row is gone or replaced |
| RotationHistory.RunsAreTold | internal/auth/refresh.go:40-88 | in every run the rows and rotations are what the actions alone say: to whom each token was issued, bound to which fingerprint, and when |
| RotationHistory.WinnersAreEntitled | internal/auth/refresh.go:40-88 | a rotation wins only with the fingerprint its token was issued with, presented before expiry, by a user that loads; the new token is bound to the same user and fingerprint |
| RotationHistory.AttemptsAreBegun | internal/auth/refresh.go:40-46 | what a rotation presented, and when, is one Begin action of the run |
| RotationHistory.RevocationIsComplete | internal/auth/refresh.go:53-57 | after reuse or a lost race a revocation that reaches the database leaves no token of the user whose token was presented, and every token of everybody else |
| RotationHistory.DeletionsExactly | internal/repo/refresh_tokens.go:68-87 | which rows go with a logout, a purge or an expired rotation, and that no other does |
| RotationHistory.NextStepIsEnabled | internal/auth/refresh.go:40-88 | no rotation is stuck: its next statement can run, with every fault |
| RefreshRotation.LiveTokensBounded | internal/auth/refresh.go:66-88 | unreplaced tokens of a login family never exceed one plus the rotations that have issued a token and not ended; one that a database error ended after issuing stays counted, for its token stays unreplaced |
| RefreshRotation.QuiescentTable | internal/auth/refresh.go:40-88 | when every rotation has ended, none by a database error after issuing, a family has at most one unreplaced token, and nothing derived from a deleted token is left |
| RefreshRotation.ForeignKeyHolds | internal/repo/refresh_tokens.go:60-66 | replaced_by always names a row of the same user that is still present |
| RefreshRotation.SingleRevocation | internal/auth/refresh.go:101-108 | revoking one token removes it if and only if no other row names it in replaced_by; a token whose predecessor row is present stays |
| RefreshRotation.SingleRevocationCanFail | internal/auth/refresh.go:101-108 | a shortest run after which a revoked token is still there and unreplaced |
| RefreshRotation.TokenStore.InsertRefreshToken | internal/repo/refresh_tokens.go:23-37 | one new row with the given owner, fingerprint and expiry; all other rows unchanged |
| RefreshRotation.TokenStore.MarkRefreshTokenReplaced | internal/repo/refresh_tokens.go:60-66 | marks if and only if the row exists and is unreplaced, and changes nothing else |
| RefreshRotation.TokenStore.RotateRefresh | internal/auth/refresh.go:40-88 | wins if and only if the token is present, unreplaced, unexpired, bound to the fingerprint, its user loads and no race is lost; reuse and a lost race cost the user every token; the whole new table in each case |
| RefreshRotation.TokenStore.IssueAndMark | internal/auth/refresh.go:66-88 | issue then mark, including the branch where a concurrent rotation marks first |
| DlqRetry.HistorySafe | internal/nats/dlq.go:79-117 | over any sequence of arrivals and retry requests, with failures at get, publish and delete, every message is queued or was published, and every publication is faithful |
| DlqRetry.NoMessageLost | internal/nats/dlq.go:79-117 | a message that arrived is still queued unchanged, or a publication carries it: its original subject, its own data, the headers of a retry |
| DlqRetry.RetryOutcome | internal/nats/dlq.go:170-195 | exactly when a retry publishes, what it publishes, exactly when the message leaves the queue, and what the caller is told |
| DlqRetry.RequestsExactly | internal/domain/dlq.go:116-140 | which retry requests are refused |
| DlqRetry.DlqStreamsExactly | internal/domain/dlq.go:94-102 | a stream is a dead-letter stream if and only if its name ends in _DLQ or it is marked as one |
| DlqRetry.FailuresExactly | internal/nats/dlq.go:79-117 | the failures reported are those of the retries that failed, each in the world it met |
| DlqRetry.RetryHeadersExactly | internal/domain/dlq.go:176-186 | a retry keeps exactly the trace id and content type, if present, and sets the Msg-Id |
| DlqRetry.MsgIdInjective | internal/domain/dlq.go:176-186 | no two (stream, sequence) pairs share a Msg-Id, whatever characters stream names contain |
| DlqRetry.DeduplicatedKeepsOne | internal/domain/dlq.go:176-186 | a deduplicating target keeps one publication of each Msg-Id |
| DlqRetry.DeliveredAtMostOnce | internal/nats/dlq.go:170-195 | behind such a target every message ends up at most once however often it is retried |
| DlqRetry.DeliveredOnceGone | internal/nats/dlq.go:170-195 | and, once it has left the queue, does end up there with its subject, data and headers |
| DlqRetry.DlqClient.ListDlqMessages | internal/nats/dlq.go:35-77 | a page is the first messages from startSeq on; a next page is offered whenever a full page leaves sequences behind |
| DlqRetry.DlqClient.CollectPage | internal/nats/dlq.go:119-160 | one page extends the collected prefix of the queue without gap or repetition |
| DlqRetry.DlqClient.CollectRetryAllSequences | internal/nats/dlq.go:119-168 | returns in ascending order exactly the first safetyMax messages, terminates, is complete when not truncated, and otherwise reports exactly the number left out |
| DlqRetry.DlqClient.RetryOneMessage | internal/nats/dlq.go:170-195 | get, publish, delete in this order, with the error that names the step that failed |
| DlqRetry.DlqClient.RetryDlqMessages | internal/nats/dlq.go:79-117 | a refused request changes nothing; otherwise every sequence is retried in order and counted or reported, and truncated and remaining are exact |
| DlqRetry.TruncatedWithNothingRemaining | internal/nats/dlq.go:119-168 | a retry-all that reports truncated and 0 remaining |
| DlqInterleaving.RunsKeepInv | internal/nats/dlq.go:170-195 | every interleaving of arrivals and of the get, publish and delete calls of any number of retries keeps every message queued or published, and every publication faithful |
| DlqInterleaving.NoMessageLost | internal/nats/dlq.go:170-195 | so no message is lost however retries overlap and whichever calls fail |
| DlqInterleaving.DeliveredAtMostOnce | internal/nats/dlq.go:170-195 | behind a deduplicating target a message is there at most once, even when retries of it overlap |
| DlqInterleaving.DeliveredOnceGone | internal/nats/dlq.go:170-195 | and is there once it has left the queue |
| DlqInterleaving.RetryIsThreeCalls | internal/nats/dlq.go:170-195 | three calls of one retry in a row do what the one-step retry does |
| DlqRetry.NormalizeListLimit | internal/domain/dlq.go:105-113 | a limit between 1 and 500: the given one if it is in range, 100 for none, 500 above |
| DlqRetry.AscendingFacts | internal/nats/dlq.go:35-77 | the messages of a range are listed strictly increasing, each existing one once |
| SeqNav.ResultExists | internal/nats/client.go:419-455 | a result exists in the stream, lies in [firstSeq, seq), and is seq - 1 or has an absent successor |
| SeqNav.AlwaysFinds | internal/nats/client.go:419-455 | something is found whenever firstSeq is present |
| SeqNav.NearestExactly | internal/nats/client.go:419-455 | the result is the true predecessor if and only if every midpoint met below it is present |
| SeqNav.NearestWhenContiguous | internal/nats/client.go:419-455 | it is when the existing sequences below seq form a contiguous prefix |
| SeqNav.NearestCanBeMissed | internal/nats/client.go:419-455 | a stream on which it is not |
| SeqNav.BitsIsLog | internal/nats/client.go:419-455 | the probe bound Bits(n) is floor(log2 n) + 1 |
| SeqNav.SeqExistsCache.Known | internal/nats/seq_exists.go:23-40 | answers from the cache, and says whether it knows |
| SeqNav.SeqExistsCache.Mark | internal/nats/seq_exists.go:42-72 | the mark is remembered; the stream's other entries are forgotten exactly when a new entry comes on top of 4096 or more, and stay as they were otherwise; other streams are untouched |
| SeqNav.Exists | internal/nats/client.go:419-455 | a probe through the cache is right, keeps the cache sound, and is cached; what is cached is not probed again |
| SeqNav.FindPrevSeq | internal/nats/client.go:419-455 | with any sound cache the search gives the result of the plain one unless a probe it meets breaks, stays within uint64, keeps the cache sound, and looks at no more than floor(log2(seq - firstSeq)) + 1 sequences |
| SubjectMatch.MatchSubjectPattern | internal/domain/zombie.go:252-275 | true if and only if the pattern matches token by token up to its first >, which needs at least one token |
| SubjectMatch.MatchesByTokens | internal/domain/zombie.go:252-275 | matching told one token at a time: > takes what is left, which must be something, * any one token, any other token itself |
| SubjectMatch.NatsSubjectMatch | internal/domain/event_architecture.go:500-522 | agrees with matchSubjectPattern except exactly when the filter fits the whole subject and goes on with > |
| SubjectMatch.SubjectsOverlap | internal/domain/zombie.go:238-248 | equal, or one matches the other; never for empty input |
| SubjectMatch.OverlapIsSound | internal/domain/zombie.go:238-248 | when overlap is reported some wildcard-free subject is matched by both |
| SubjectMatch.OverlapWithLiteral | internal/domain/zombie.go:238-248 | when one side is wildcard-free overlap is exactly matching |
| SubjectMatch.OverlapMissesCrossings | internal/domain/zombie.go:238-248 | for any two patterns that share a subject, overlap is missed if and only if each exceeds the other |
| SubjectMatch.SharedExactly | internal/domain/zombie.go:238-248 | two patterns share a wildcard-free subject if and only if some length suits both and no position before the first > has two different literals |
| SubjectMatch.OverlapMissesExactly | internal/domain/zombie.go:238-248 | a pair that shares a subject is missed if and only if lengths and tokens meet and each exceeds the other |
| SubjectMatch.MatchesUnlessExceeding | internal/domain/zombie.go:252-275 | a pattern that shares a subject with another one, taken as a subject, matches it if and only if it does not exceed it |
| SubjectMatch.CrossingExample | internal/domain/zombie.go:238-248 | a.*.c and *.b.c share a subject and are reported disjoint |
| SubjectMatch.TailCrossingExample | internal/domain/zombie.go:238-248 | a.> and *.b share a subject and are reported disjoint |
| SubjectMatch.MatchersDisagree | internal/domain/event_architecture.go:500-522 | the filter a.> and the subject a, on which the two matchers differ |
| SubjectNaming.SplitCamel | internal/domain/subject_naming.go:328-352 | the start/i loop computes the camel-case parts |
| SubjectNaming.CamelConserves | internal/domain/subject_naming.go:328-352 | the parts are non-empty, put together again they are the input, and no part is ever split again |
| SubjectNaming.CamelCutsExactly | internal/domain/subject_naming.go:328-352 | the input is cut at every boundary and nowhere else |
| SubjectNaming.SeparatorsAreGone | internal/domain/subject_naming.go:314-326 | no part holds a dot, underscore or hyphen |
| SubjectNaming.NormalizeSubject | internal/domain/subject_naming.go:280-298 | the two loops compute the normal form |
| NormalForm.PartIsCut | internal/domain/subject_naming.go:280-352 | a part without separators becomes its own text in lower case, cut where a word starts and nowhere else |
| NormalForm.SeparatorsSplit | internal/domain/subject_naming.go:280-326 | a dot, underscore or hyphen ends a token and begins the next, and leaves no trace |
| NormalForm.OuterSpaceIsIgnored | internal/domain/subject_naming.go:280-284 | outer space makes no difference |
| NormalForm.NothingIsEmitted | internal/domain/subject_naming.go:280-298 | blank subjects and bare wildcards leave nothing |
| SubjectNaming.NormalTokensAreGood | internal/domain/subject_naming.go:280-298 | only non-empty, trimmed, lower-case tokens free of separators and bare wildcards are emitted, and the result determines them |
| SubjectNaming.NormalizeIsIdempotent | internal/domain/subject_naming.go:280-298 | normalising twice is normalising once |
| SubjectNaming.SingularizeIsIdempotent | internal/domain/subject_naming.go:354-359 | the singular of a singular is itself |
| NormalForm.SingularExactly | internal/domain/subject_naming.go:354-359 | one final s goes, unless it follows another s or is all there is |
| NormalForm.ActionsExactly | internal/domain/event_genome.go:56-70 | which tokens stand for created, updated and deleted, and that every other one stands for itself |
| SubjectNaming.FingerprintTokens | internal/domain/subject_naming.go:301-312 | the fingerprint gives back all normal tokens up to the plural of the first |
| SubjectNaming.RewriteGenomeTokens | internal/domain/event_genome.go:168-186 | the in-place loop makes every token but the last singular and the last canonical |
| SubjectNaming.EventGenomeKey | internal/domain/event_genome.go:168-186 | computes the genome key |
| SubjectNaming.FingerprintDeterminesGenome | internal/domain/event_genome.go:168-194 | equal fingerprints give equal genome keys, so every naming cluster lies inside one genome cluster |
| SubjectNaming.GenomeKeyExactly | internal/domain/event_genome.go:168-194 | genome keys are equal if and only if the normal tokens agree up to plurals and, in the last one, synonyms |
| SubjectNaming.GenomeKeyIsTrimmed | internal/domain/event_genome.go:168-194 | the key has no outer space and is empty only for a subject without tokens |
| GenomeRelations.CollectOccurrences | internal/domain/event_genome.go:82-115 | the nested loops list every plain subject and filter once for each stream and consumer |
| GenomeRelations.InventoryIsComplete | internal/domain/event_genome.go:82-115 | without NUL in the names the inventory holds exactly the non-empty, wildcard-free, trimmed subjects and filters of the inputs |
| GenomeRelations.InventoryExactly | internal/domain/event_genome.go:82-115 | for all inputs: a subject is in the inventory if and only if one of its occurrences has a key that no earlier occurrence has |
| GenomeFindings.OccurrencesExactly | internal/domain/event_genome.go:82-115 | the inventory holds, by stream and consumer, the first mention for every key of the wildcard-free subjects and filters |
| GenomeRelations.SubjectCanBeHidden | internal/domain/event_genome.go:82-115 | two streams, the second of whose subjects is hidden by the first |
| GenomeRelations.GroupByGenome | internal/domain/event_genome.go:117-124 | each non-empty genome key gets exactly its occurrences, in order |
| GenomeRelations.UniqueLiterals | internal/domain/subject_naming.go:394-405 | the distinct subjects in order of first occurrence |
| GenomeRelations.AnalyzeEventGenome | internal/domain/event_genome.go:74-165 | findings and cluster count for every group with two or more spellings, in some order of the groups |
| GenomeRelations.FindingsOfFacts | internal/domain/event_genome.go:126-148 | a group is reported if and only if it has two or more spellings, whatever the suggestion |
| GenomeFindings.FindingsExactly | internal/domain/event_genome.go:126-148 | an occurrence is reported if and only if its group has two or more spellings and it is not spelled as suggested, with its stream, consumer and all spellings |
| GenomeFindings.CountIsReported | internal/domain/event_genome.go:126-165 | the cluster count is the number of groups with two or more spellings |
| GenomeFindings.CleanPeersExactly | internal/domain/event_wikipedia.go:183-197 | the peers of a cluster are its trimmed, non-empty members, each once |
| GenomeFindings.ClusterMapExactly | internal/domain/event_wikipedia.go:170-202 | for any findings, the cluster of a key is that of the first finding that makes one |
| GenomeRelations.GenomeRelatedBySubject | internal/domain/event_wikipedia.go:170-215 | every subject of a cluster is listed with the other subjects of a cluster it is in |
| GenomeRelations.RelatedExactly | internal/domain/event_wikipedia.go:170-215 | for any key without outer space: t is related to s if and only if both are in the inventory, differ, and have the same non-empty genome key |
| GenomeRelations.RelatedEvents | internal/domain/event_wikipedia.go:170-215 | the same for the whole path from stream inputs to related events, so the relation is symmetric and complete |
| FrameJson.AppendJSONString | internal/live/encode.go:180-219 | the start/i loop appends the quoted and escaped string to the buffer |
| FrameJson.AppendEscape | internal/live/encode.go:192-211 | one byte is escaped, and the replacement-character branch cannot be reached |
| FrameJson.StringReadsBack | internal/live/encode.go:180-219 | an RFC 8259 section 7 reader gets back exactly the bytes, whatever follows, so the closing quotation mark is never ambiguous |
| FrameJson.HexDigit | internal/live/encode.go:221-226 | a hexadecimal digit with the given value |
| FrameJson.ValueReadsBack | internal/live/encode.go:15-52 | any value printed from strings, numbers and objects is read back and what follows it is left alone |
| FrameJson.NumberReadsBack | internal/live/encode.go:41-44 | a decimal number is read back when no digit follows |
| FrameJson.HeadersSurvive | internal/live/encode.go:147-160 | the header object read back is the header map, for every iteration order |
| FrameJson.AppendJSONHeaders | internal/live/encode.go:147-160 | the loop over the map writes every header once |
| FrameJson.AppendJSONNATSHeaders | internal/live/encode.go:162-178 | the first value of every header that has one is written once |
| FrameJson.FirstValuesExactly | internal/live/encode.go:162-178 | a header goes out with its first value, if it has one |
| FrameJson.FieldOfName | internal/live/encode.go:15-45 | the names of the fields on the wire |
| FrameJson.MembersCarryFrame | internal/live/encode.go:15-45 | omitted empty fields lose nothing: the printed members determine the frame |
| FrameJson.FrameReadsBack | internal/live/encode.go:15-52 | reading the printed frame gives the frame, for every header order |
| FrameJson.EncodeLiveFrame | internal/live/encode.go:15-52 | what the encoder writes reads back as the frame it was given, and is that frame printed with its headers in some order |
| FrameJson.EncodeMessageFrameFromNATS | internal/live/encode.go:84-106 | likewise for message frames, with their own field order and unescaped time and data |
| FrameUtf8.QuoteUtf8 | internal/live/encode.go:180-219 | a printed string is valid UTF-8 if and only if the string is, whatever follows |
| FrameUtf8.ValueUtf8Exactly | internal/live/encode.go:15-52 | a printed value is valid UTF-8 if and only if every string in it is |
| FrameUtf8.FrameUtf8Exactly | internal/live/encode.go:15-52 | so a frame goes out as valid UTF-8 if and only if all its strings are |
| FrameUtf8.MessageUtf8Exactly | internal/live/encode.go:84-106 | likewise for message frames |
| FrameUtf8.BadByteGoesOut | internal/live/encode.go:201-207 | the byte FF, which goes out as it is and not as a replacement character |
| ConnectionManager.RunsKeepInv | internal/nats/manager.go:175-306 | every interleaving of connects, sessions, evictions, sweeps, stops, subscriptions and status updates keeps the invariants |
| ConnectionManager.ChannelsAreSafe | internal/nats/connection.go:159-210 | each status channel is closed at most once, never sent to afterwards, never over its buffer, and open if and only if it is in the listener table |
| ManagerEffects.ChannelsExactly | internal/nats/connection.go:159-210 | every listener with room gets what is recorded for its cluster and the last word on eviction, nobody else gets anything; a channel closes if and only if its listener leaves or the manager stops |
| ManagerEffects.SubscribesExactly | internal/nats/connection.go:174-192 | a subscription adds one empty channel, open unless the cluster is unnamed |
| ManagerEffects.StatusExactly | internal/nats/connection.go:121-130 | the status of a cluster is what was last recorded, until it is evicted |
| ConnectionManager.PassingSessionHoldsCached | internal/nats/session.go:42-63 | a session that passes its check holds the cached client if and only if the generation did not move between getting the client and opening the session |
| ConnectionManager.StaleSessionCanPass | internal/nats/session.go:52-62 | a run in which it did move |
| ConnectionManager.AtomicSessionsHoldCached | internal/nats/session.go:135-146 | with each method taken as one step, a session that passes always holds the currently cached client |
| ConnectionManager.InvalidStaysInvalid | internal/nats/session.go:135-162 | a session that fails its check fails it for ever |
| ConnectionManager.RunLater | internal/nats/session.go:157-162 | generations only grow, and sessions are never changed or reopened |
| ManagerEffects.ClientsExactly | internal/nats/manager.go:222-306 | a generation moves if and only if a client is dropped or replaced, and then by one; what is cached after every step |
| ManagerEffects.PassesExactly | internal/nats/session.go:135-162 | a session that passes goes on passing until it is closed or the client of its cluster is dropped |
| ManagerEffects.StepsArePossible | internal/nats/manager.go:175-306 | every step of the manager is possible at any time |
| ConnectionManager.StopEndsEverything | internal/nats/manager.go:175-200 | after Stop no status channel is open, and a session that still passes is one whose generation moved between getting the client and opening it |
| ConnectionManager.StopEndsAtomicSessions | internal/nats/manager.go:175-200 | with each method taken as one step, no session passes after Stop |
| ConnectionManager.ShutClustersAt | internal/nats/manager.go:189-194 | Stop closes every listed channel exactly once and no other |
| ConnectionManager.Manager.Connect | internal/nats/manager.go:222-282 | a live cached client is reused, a dead one evicted, an idle one replaced with a generation bump; the result is the cached client |
| ConnectionManager.Manager.Open | internal/nats/session.go:29-40 | a new session carries the current generation and passes |
| ConnectionManager.Manager.EnsureValid | internal/nats/session.go:135-146 | open, and of the current generation |
| ConnectionManager.Manager.SessionGeneration | internal/nats/session.go:148-155 | 0 for a cluster that was never bumped |
| ConnectionManager.Manager.BumpSessionGeneration | internal/nats/session.go:157-162 | one generation up for one cluster |
| ConnectionManager.Manager.EvictCluster | internal/nats/manager.go:284-306 | drops the client if any, always bumps, publishes a last status |
| ConnectionManager.Manager.SweepExpired | internal/nats/connection.go:291-321 | evicts the expired clusters one by one |
| ConnectionManager.Manager.StopAll | internal/nats/manager.go:175-200 | drops every client with a bump and closes every listener |
| ConnectionManager.Manager.Subscribed | internal/nats/connection.go:174-192 | a new open channel in the table; for an empty cluster id a closed one outside it |
| ConnectionManager.Manager.Unsubscribed | internal/nats/connection.go:194-209 | closes a channel that is still listed, otherwise does nothing |
| ConnectionManager.Manager.PublishStatus | internal/nats/connection.go:159-170 | sends to every listener with room and blocks on none |
| ConnectionManager.Manager.RecordStatus | internal/nats/connection.go:107-118 | the locked section that stores a status and sends it, with the cached flag, to the cluster's listeners does exactly the record step |
| ConnectionManager.Manager.CloseListeners | internal/nats/manager.go:189-193 | each channel of the set is closed once |
| UserAdmin.SupersetExactly | internal/domain/permissions.go:111-135 | SupersetOf holds if and only if every capability of a non-root target is covered, AllClusters aside |
| UserAdmin.SupersetMissesAllClusters | internal/domain/permissions.go:111-135 | a manager of one cluster passes the check for deleting a full admin whose clusters it does not cover |
| UserAdmin.CanAssignExactly | internal/domain/permissions.go:79-109 | rules may be assigned if and only if the assigner covers whoever holds them |
| UserAdmin.RightsExactly | internal/domain/permissions.go:28-79 | what root, an admin without rules and anybody else may do |
| UserAdmin.CreateExactly | internal/app/users.go:43-71 | who may create whom, in terms of the rights of both |
| UserAdmin.MutationExactly | internal/app/users.go:129-147 | who may change whom, in terms of the rights of both |
| UserAdmin.UpdateExactly | internal/app/users.go:73-120 | what a change may set, and who may delete |
| UserAdmin.RequestsTakeEffect | internal/app/users.go:43-120 | a request that passes does what it says to one row and touches no other |
| UserAdmin.RequestsArePossible | internal/app/users.go:43-120 | runs may hold any request by anybody but root, with outdated views |
| UserAdmin.UserService.ValidateRoles | internal/app/users.go:149-161 | at least one role, all of them known |
| UserAdmin.UserService.Create | internal/app/users.go:43-71 | the error of the first check that fails, or one new user that is not root |
| UserAdmin.UserService.Authorize | internal/app/users.go:129-147 | who may change whom |
| UserAdmin.UserService.Update | internal/app/users.go:73-106 | the error of the first check that fails, or exactly the requested change to one row |
| UserAdmin.UserService.SetRoles | internal/app/users.go:122-127 | an update of the roles alone |
| UserAdmin.UserService.Delete | internal/app/users.go:108-120 | the error of the first check that fails, or one row less, never a root row |
| UserAdmin.RunsKeepInv | internal/app/users.go:43-147 | from any table with one root, every run of operations by non-root actors, even with outdated views of actor and target, keeps the invariant |
| UserAdmin.RootAndRulesStay | internal/app/users.go:43-147 | from any table with one root: it stays the only root, its row is untouched, and nobody is left without access rules who was not before |
| UserAdmin.StaysContained | internal/app/users.go:43-147 | from any such table where the escalation condition fails, nobody gets beyond what non-root users held |
| UserAdmin.ContainedMeans | internal/domain/permissions.go:111-135 | being contained is having no cluster, role or capability that no non-root user had |
| UserAdmin.Promotion | internal/app/users.go:73-106 | where the condition holds one update request escalates |
| UserAdmin.EscalationExactly | internal/app/users.go:43-147 | some run of non-root actors adds to what non-root users hold if and only if one may manage users and assign admin, one has neither rules nor that role, and none is a full admin |
| UserAdmin.EscalationExample | internal/app/users.go:73-106 | a table of three users and the one request that opens every cluster |
| UserAdmin.NothingEscalates | internal/app/users.go:43-147 | from a table in which everybody but root has access rules, such a run keeps the root row and the rules on everybody else, and adds no cluster, role or capability to what non-root users hold |
| IncidentTimeline.DetectLagGrowth | internal/domain/incident_reconstruction.go:283-308 | reports exactly the threshold jumps since whose predecessors the lag has dropped |
| IncidentTimeline.DetectRedeliverySpike | internal/domain/incident_reconstruction.go:310-330 | likewise for redeliveries |
| IncidentTimeline.FirstsAre | internal/domain/incident_reconstruction.go:283-330 | the reports are the first jumps of their episodes, strictly increasing |
| IncidentTimeline.EveryJumpIsCovered | internal/domain/incident_reconstruction.go:302-305 | every jump is reported or lies in the non-decreasing run after a reported one |
| IncidentTimeline.ReportsAreSeparated | internal/domain/incident_reconstruction.go:302-305 | between two reports the value strictly drops |
| IncidentTimeline.EpisodesAgreeExactly | internal/domain/incident_reconstruction.go:302-305 | the code and its comment report the same jumps if and only if no unbroken rise has two jumps with a flat pair between them |
| IncidentTimeline.FlatEpisodeExample | internal/domain/incident_reconstruction.go:302-305 | lag 0, 50, 50, 100, where the comment has two episodes and the code one |
| IncidentTimeline.DetectProcessingStopped | internal/domain/incident_reconstruction.go:332-358 | the counter loop reports exactly the second pair of each flat run |
| IncidentTimeline.OncePerFlatRun | internal/domain/incident_reconstruction.go:332-358 | a maximal flat run of two or more pairs is reported exactly once, a shorter one not at all |
| IncidentTimeline.DedupeTimelineEvents | internal/domain/incident_reconstruction.go:360-380 | keeps the first event of each category, label and second |
| IncidentTimeline.DedupeFacts | internal/domain/incident_reconstruction.go:360-380 | no key is lost, none is left twice |
| IncidentTimeline.SortFacts | internal/domain/incident_reconstruction.go:204-209 | the events are in order and are the same events |
| IncidentTimeline.SortKeepsTies | internal/domain/incident_reconstruction.go:204-209 | events of one instant and category keep their order |
| IncidentTimeline.TimelineIsSound | internal/domain/incident_reconstruction.go:133-212 | the timeline is sorted, free of duplicate keys, inside the window, and shows every candidate key and nothing else |
| TimelineContents.CandidatesExactly | internal/domain/incident_reconstruction.go:133-201 | an event is a candidate if and only if it marks a deploy, an audit change when there was no deploy, a detection or a disconnect |
| TimelineContents.DetectedExactly | internal/domain/incident_reconstruction.go:283-358 | what the detectors report, with the stop told from the samples |
| TimelineContents.SamplesExactly | internal/domain/incident_reconstruction.go:248-266 | which samples are looked at |
| TimelineContents.ChangeLabel | internal/domain/incident_reconstruction.go:268-281 | how a change is labelled |
| TimelineContents.JumpsMean | internal/domain/incident_reconstruction.go:283-318 | the thresholds without division |
| TimelineContents.KeepsFirsts | internal/domain/incident_reconstruction.go:360-380 | deduplication keeps the first event of every key and their order |
| TimelineContents.SameKeyExactly | internal/domain/incident_reconstruction.go:360-380 | two events are one if category, label and second of the clock agree |
| TimelineContents.RankIsAlphabetical | internal/domain/incident_reconstruction.go:204-209 | ties are broken by the names of the categories |
| IncidentTimeline.FilterDeployAnnotations | internal/domain/incident_reconstruction.go:145-160 | the deploys in the window, with a default label |
| IncidentTimeline.DeployIn | internal/domain/incident_reconstruction.go:145-160 | an event is among them if and only if it marks an annotation of the window whose kind is deploy or empty |
| IncidentTimeline.FilterAuditInWindow | internal/domain/incident_reconstruction.go:162-172 | the audit changes in the window that name an action |
| IncidentTimeline.ChangeIn | internal/domain/incident_reconstruction.go:162-172 | an event is among them if and only if it marks an audit change of the window with an action |
| IncidentTimeline.FilterConsumerSamples | internal/domain/incident_reconstruction.go:248-266 | the samples of the stream and consumer in the window |
| IncidentTimeline.ScopedIn | internal/domain/incident_reconstruction.go:248-266 | a sample is among them if and only if it is given and in scope |
| IncidentTimeline.Disconnects | internal/domain/incident_reconstruction.go:183-201 | the disconnects in the window |
| IncidentTimeline.DisconnectIn | internal/domain/incident_reconstruction.go:183-201 | an event is among them if and only if it marks a disconnect of the window |
| IncidentTimeline.ComputeIncidentTimeline | internal/domain/incident_reconstruction.go:133-212 | puts these together; audit changes stand in only when no deploy is annotated |
| BottleneckRollup.RollupTable.UpsertBottleneckHourBuckets | internal/repo/bottleneck.go:13-50 | defaults the sample counts and merges one row after the other; a batch that would hit a row twice changes nothing |
| BottleneckRollup.RowHistory | internal/repo/bottleneck_queries.go:8-31 | a row is the merge of the observations for its own key, in their order |
| BottleneckRollup.ObservationExactly | internal/repo/bottleneck.go:28-46 | the row and the number of samples of an observation |
| BottleneckRollup.MergedLag | internal/repo/bottleneck_queries.go:9-13 | the sample count is the total and the average lag the exact weighted mean |
| BottleneckRollup.MergedMax | internal/repo/bottleneck_queries.go:14-14 | the maximum lag is the greatest observed |
| BottleneckRollup.MergedPayload | internal/repo/bottleneck_queries.go:15-22 | the payload average is positive if and only if some payload was, and then between the least and the greatest positive one |
| BottleneckRollup.MergedTime | internal/repo/bottleneck_queries.go:23-30 | the processing time is null if and only if it always was, and otherwise between the extremes |
| BottleneckRollup.OrderDoesNotMatter | internal/repo/bottleneck_queries.go:8-31 | any order of the same observations gives the same rows, sample counts, maxima and average lags |
| BottleneckRollup.PayloadDependsOnOrder | internal/repo/bottleneck_queries.go:15-22 | two orders with different payload averages |
| RollupOrder.TimeIsAverage | internal/repo/bottleneck_queries.go:23-30 | the processing time is the running mean that skips unknown times but not their samples |
| RollupOrder.PayloadIsAverage | internal/repo/bottleneck_queries.go:15-22 | so is the payload with non-positive ones unknown; where none is positive it is the first |
| RollupOrder.AverageOrderExactly | internal/repo/bottleneck_queries.go:15-30 | such a mean is the same for every order if and only if all values are known or all known ones agree |
| RollupOrder.TimeOrderExactly | internal/repo/bottleneck_queries.go:23-30 | hence the condition for the processing time |
| RollupOrder.TimeDependsOnOrder | internal/repo/bottleneck_queries.go:23-30 | a fast, an unknown and a slow observation, whose order matters |
| RollupOrder.PayloadOrderExactly | internal/repo/bottleneck_queries.go:15-22 | the payload is the same for every order if and only if all are positive, or some are and these agree, or none is and all are equal |
| BottleneckRollup.BatchesConcat | internal/repo/bottleneck.go:13-50 | two batches in a row are one longer sequence of observations |

## Left out

- HTTP handlers, router, configuration, mail, LLM client, web UI and the fleet example: plumbing.
- Architecture scores, refactor graphs, exports, chaos stories, hidden-bottleneck findings and lint messages: mostly text.
- `subjectIntersects`, `streamsCrossConsume`, `subjectCoveredByFilters`, `filterMatchesAnySubject`, `healthBackoffDuration`, `findNextSeq`, `DLQMessageFromStream`, `UserService.List`, `BuildEventWikipedia` beyond its related events: short loops or expressions over what is modelled.
- Characters outside ASCII: case, space and camel-case rules are the ASCII ones; in `FrameJson` and `FrameUtf8` a character stands for one byte.
- Memory and buffers: pooling and capacity hints of the encoder, bounded Go integers other than the uint64 of `findPrevSeq`; a session generation never wraps around.
- LiveMux, LiveGate: one message is enqueued to a viewer in the same step as the membership snapshot of `fanout`, so nothing is said about sending on the channel of a viewer that leaves in between; the stream's delivery order is an assumption of `AcceptedInOrder`.
- LiveGate.Fanout: the frame is the cut payload with its sequence number; encoding it is the subject of `FrameJson`.
- RefreshRotation: hashing and random generation of tokens (a token is identified with its row), access tokens, and a session write that fails after the mark.
- RefreshRotation.TokenStore.RotateRefresh: runs one rotation with at most one rival; faults and any number of rivals are covered by the runs.
- DlqRetry: the stream API is taken to return the first messages of a range with an arbitrary truncation flag; the queue is fixed while a retry-all collects.
- SeqNav.FindPrevSeq: after a failed probe nothing is promised except that no wrong result is returned.
- GenomeRelations: sorting of findings, literals and peers, which only permutes them; the text of reasons; the suggestion rule is an arbitrary function.
- GenomeRelations.InventoryIsComplete: is the case without NUL in a subject; `InventoryExactly` has no such condition.
- FrameJson: the reader accepts no white space and refuses surrogate pairs, neither of which the printer writes; base64 and time formatting come in as text without characters to escape.
- ConnectionManager: credentials cache, health counters, client liveness, dialing and the single-flight group; its callers hold the same client from the same moment, which is one hold with several sessions.
- ConnectionManager.Manager.Connect: is one step here; the runs contain its lock sections separately.
- UserAdmin: passwords, e-mail, invitations, grants and session versions; a new user id has never been used before.
- IncidentTimeline: source and evidence texts of events; the samples may be in any order `sort.Slice` can produce.
- BottleneckRollup: floating-point rounding; PostgreSQL's rule that one statement may not update a row twice is taken from its documentation of INSERT ON CONFLICT.
