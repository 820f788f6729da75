# Courierust client: a verified model

This project models the parts of the Courierust HTTP client whose correctness is hardest to see from
the code, and proves what they promise for every input, every run and every interleaving.

- **The HTTP/2 driver** (`StreamLife`, `Liveness`, `DriverSpec`, `DriverLaws`, `DriverDemux`, `DriverFates`,
  `DriverWire`, `DriverTheorems`, `H2Driver`, `Keepalive`, `Upload`). The driver thread is a state machine over its steps; the loop of
  `src/courierust_client/h2.rs` is a plan of those steps, and the class `ClientDriver` performs the plan in place.
  What each caller receives is computed by a closed form over the history of that caller's own stream since the
  step that opened it, and every request of every run has exactly one of five fates.
- **The connection pool** (`ConnPool`, `ServiceTime`). Callers interleave at the pool lock and open connections
  outside it.
- **The request pipeline** (`Retries`, `Redirects`, `DotSegments`). The network is a parameter: one answer per attempt.
- **Cookies and dates** (`Cookies`, `CookieJars`, `Calendar`).
- **Serializers** (`Multipart`; `ProtoWire`, `ProtoDescriptor`, `ProtoParser`, `ProtoParserCode`, `Utf8`,
  `ProtoLexer`, `ProtoPrint` for the build script). Each comes with a reader and a round trip.
- **The body wake handle** (`BodyWake`). Producers and a transport take atomic steps in any order.

`Basics` holds what several modules share.

`dafny verify dfyconfig.toml` checks all of it. Callers, connections, streams and callbacks are natural
numbers; bytes are natural numbers or characters; instants and durations are natural numbers.

## Where the code does not do what its text says

Each of these is kept as the code has it, with a concrete instance and the exact condition.

- A peer that never answers a PING is not noticed as long as the transport takes our own bytes in time
  (`Keepalive.SilentPeerSurvives`, `Keepalive.WillingTransportHidesDeath`; the exact condition for giving a peer up
  is `Keepalive.GivenUpExactly`).
- A response that ends before it has a head leaves its caller without a reply (`StreamLife.SilentStreamExists`;
  `StreamLife.ReplyLaw` says that this is the only way).
- A request that is still queued when the driver ends is hung up without an answer
  (`DriverFates.QueuedRequestIsLeftBehind`, condition in `DriverFates.UnansweredAtTheEndExactly`).
- The table of pending streams is not the client's count of concurrent streams: it misses those whose request body
  is still going out and those the driver forgot while the response goes on (`DriverWire.LimitCanBeExceeded`,
  conditions in `DriverWire.TableIsTheCountExactly` and `DriverWire.LimitHoldsExactly`).
- A request body that fails ends the stream as if it were complete (`Upload.TruncatedBodyIsClosed`, condition in
  `Upload.ClosedIsCompleteExactly`).
- An upgraded connection is pooled without having been counted as opening (`ConnPool.UpgradeCanCrowdTheCap`,
  condition in `ConnPool.OfferRespectsTheCapExactly`).
- A path that ends in a dot segment behind an empty segment loses that empty segment
  (`DotSegments.EmptySegmentIsLost`, condition in `DotSegments.AgreesWithTheStandard`).
- A refreshed cookie can be the one its own store evicts (`Cookies.RefreshCanBeLost`, condition in
  `Cookies.RefreshSurvivesExactly`).
- Cookie paths are matched against path and query together (`CookieJars.PageCookieStaysBehind`, condition in
  `CookieJars.QueryHidesThePage`), and so is the default path made (`CookieJars.DefaultPathHoldsAQuery`, condition in
  `CookieJars.QueryEntersTheDefaultPath`).
- A form field whose name holds a quote encodes like a file upload (`Multipart.QuotesForge`, condition in
  `Multipart.ReadBackExactly`), and a part that begins with the boundary misleads a reader that looks for the
  delimiter first (`Multipart.ScanFirstIsMisled`, condition in `Multipart.ScanFirstExactly`).
- A descriptor can point outside its own file, because the types of rpcs are not checked
  (`ProtoPrint.UndeclaredRpcIsAccepted`, condition in `ProtoPrint.DescriptorIsClosedExactly`).
- A wake-up can follow a clear that has returned (`BodyWake.ClearCanBeOvertaken`, condition in
  `BodyWake.QuietAfterClearExactly`).

## Model

| member | source | states |
|---|---|---|
| `StreamLife.HistoryDecides` | src/courierust_client/h2.rs:894-1036 | the mailbox after any history of a stream is the one a closed form computes from that history: live exactly while nothing has cut it, otherwise what the first cut left |
| `StreamLife.ReplyLaw` | src/courierust_client/h2.rs:894-1036 | at most one reply per request; a stopped stream leaves none only if the peer ended it before any head |
| `StreamLife.CleanCloseMeansComplete` | src/courierust_client/h2.rs:947-1012 | a body closes without a fault exactly when the peer ended the stream, and then holds every DATA byte in order |
| `StreamLife.BodyIsBounded` | src/courierust_client/h2.rs:947-970 | no history delivers more than the body limit |
| `StreamLife.EveryMailboxIsTruthful` | src/courierust_client/h2.rs:774-801 | reply, body and closing of every mailbox together, including deadlines and connection loss |
| `StreamLife.SilentStreamExists` | src/courierust_client/h2.rs:947-970 | an empty body that ends before a head leaves the caller unanswered |
| `DriverLaws.AnswerKeeps` | src/courierust_client/h2.rs:646-667 | refusing a request keeps every law of the driver |
| `DriverLaws.OpenKeeps` | src/courierust_client/h2.rs:668-769 | opening a stream keeps every law, whatever the connection answers |
| `DriverLaws.HandleKeeps` | src/courierust_client/h2.rs:623-769 | handling a command keeps every law, and below the limit it queues nothing |
| `DriverLaws.TakeKeeps` | src/courierust_client/h2.rs:395-411 | receiving a command keeps every law, and leaves nothing queued unless the limit is reached |
| `DriverLaws.RetryKeeps` | src/courierust_client/h2.rs:806-834 | retrying the queue ends, keeps every law, and leaves it empty or the limit reached |
| `DriverLaws.TouchKeeps` | src/courierust_client/h2.rs:894-1036 | an event for one stream keeps every law |
| `DriverLaws.KillKeeps` | src/courierust_client/h2.rs:1256-1264 | failing any set of streams keeps every law |
| `DriverLaws.NextKeeps` | src/courierust_client/h2.rs:382-536 | every atomic step of the driver keeps every law |
| `DriverLaws.TurnLaw` | src/courierust_client/h2.rs:382-536 | one turn of the loop takes commands only when the queue is settled, and either goes on or has finished everything |
| `DriverLaws.RunLaw` | src/courierust_client/h2.rs:321-536 | the loop is exactly a run of legal steps, every run keeps every law, and a stopped driver has left nobody waiting |
| `DriverLaws.StartHolds` | src/courierust_client/h2.rs:239-302 | both ways of starting a driver satisfy the laws |
| `DriverDemux.StepView` | src/courierust_client/h2.rs:894-1036 | a step changes what a caller sees only through the stimulus addressed to its own stream |
| `DriverDemux.StoryLaw` | src/courierust_client/h2.rs:382-536 | over any run each opened stream has the mailbox of its own stimuli since the step that opened it, with the deadline it was opened with, and each belongs to one request |
| `DriverDemux.BirthIsUnique` | src/courierust_client/h2.rs:668-769 | no stream is opened by two steps, so that story has one beginning |
| `DriverFates.NobodyFallsThrough` | src/courierust_client/h2.rs:382-536 | over any run every request was opened, is queued, has its reply, or was queued when the driver cleaned up |
| `DriverFates.DroppedIsHungUp` | src/courierust_client/h2.rs:1266-1272 | whatever follows, a request queued when the driver cleaned up has no stream, no reply and nobody to send one |
| `DriverFates.EveryRequestHasOneFate` | src/courierust_client/h2.rs:321-536 | for every request of every run exactly one holds: queued; its stream open and unanswered; one reply; its stream ended by the peer before a head; the driver ended while it was queued |
| `DriverFates.UnansweredAtTheEndExactly` | src/courierust_client/h2.rs:321-536 | when the driver has ended a request has no reply if and only if the peer ended its stream before a head or it was still queued |
| `DriverFates.QueuedRequestIsLeftBehind` | src/courierust_client/h2.rs:395-411 | one pass with two requests and a shutdown under a limit of one: the second is never answered |
| `DriverTheorems.RepliesAreAccountedFor` | src/courierust_client/h2.rs:321-536 | for every run: at most one reply, a live reply sender is queued or in flight and never both, and none outlives the driver |
| `DriverTheorems.OpeningOrder` | src/courierust_client/h2.rs:382-452 | streams open in the order of arrival even though some were deferred, and the queue stays bounded |
| `DriverTheorems.OpeningNeedsRoom` | src/courierust_client/h2.rs:227-236 | a step that opens leaves at most the limit pending |
| `DriverTheorems.NothingOpensAfterGoAway` | src/courierust_client/h2.rs:646-649 | once the peer is going away nothing opens for the rest of the run |
| `DriverTheorems.EveryStreamTellsItsOwnStory` | src/courierust_client/h2.rs:382-536 | in every run of the loop each stream is decided by its own stimuli since the step that opened it, and its first deadline |
| `DriverTheorems.CallersAreToldTheTruth` | src/courierust_client/h2.rs:321-536 | every stream of every run has a truthful mailbox: no reply lost, no truncated body that looks complete, none past the limit, counted from its opening |
| `DriverWire.ExecWire` | src/courierust_h2/connection.rs:532-676 | over any run the table holds exactly the streams whose response goes on, less the forgotten ones, and every id in use was allocated |
| `DriverWire.TableIsTheCountExactly` | src/courierust_client/h2.rs:229-236 | in every run the table counts the streams in use if and only if no request body lingers and no stream was forgotten |
| `DriverWire.LimitHoldsExactly` | src/courierust_client/h2.rs:229-236 | after every step of every run that puts requests on the wire, the streams in use are within the limit if and only if pending, lingering and the ones about to open are together; how many those are is counted from the state before the step |
| `DriverWire.LimitCanBeExceeded` | src/courierust_client/h2.rs:229-236 | two passes of the loop end with two streams in use under a limit of one, for any request with a body, streamed or buffered |
| `H2Driver.ClientDriver.constructor` | src/courierust_client/h2.rs:239-302 | a new driver, plain or upgraded, is in the start state |
| `H2Driver.ClientDriver.OpenStream` | src/courierust_client/h2.rs:668-769 | opens, answers or resets as the connection decides |
| `H2Driver.ClientDriver.PutOnWire` | src/courierust_client/h2.rs:668-700 | headers and body on the next stream id, refused or entered in the table |
| `H2Driver.ClientDriver.HandleCmd` | src/courierust_client/h2.rs:623-769 | goes away, defers, refuses or opens |
| `H2Driver.ClientDriver.ReceiveCmd` | src/courierust_client/h2.rs:395-411 | takes one command from the channel and says whether to go on |
| `H2Driver.ClientDriver.RetryQueue` | src/courierust_client/h2.rs:806-834 | the loop over the queue is the recursive retry |
| `H2Driver.ClientDriver.FailStreams` | src/courierust_client/h2.rs:1256-1264 | fails the streams one by one, in any order |
| `H2Driver.ClientDriver.FailAll` | src/courierust_client/h2.rs:1256-1264 | fails every pending stream |
| `H2Driver.ClientDriver.CheckTimeouts` | src/courierust_client/h2.rs:774-801 | fails exactly the streams whose deadline has passed |
| `H2Driver.ClientDriver.OnHeaders` | src/courierust_client/h2.rs:904-946 | a head that answers, a head that ends, or one that cannot be read |
| `H2Driver.ClientDriver.OnData` | src/courierust_client/h2.rs:947-970 | data within the limit, past it, or ending the stream |
| `H2Driver.ClientDriver.OnTrailers` | src/courierust_client/h2.rs:971-980 | trailers end the stream |
| `H2Driver.ClientDriver.OnAbort` | src/courierust_client/h2.rs:981-1012 | a reset or a stream error reaches reply and body |
| `H2Driver.ClientDriver.OnGoAway` | src/courierust_client/h2.rs:1013-1032 | streams past the last one are failed |
| `H2Driver.ClientDriver.DrainEvents` | src/courierust_client/h2.rs:894-1036 | the event loop is the run of its events |
| `H2Driver.ClientDriver.CleanUp` | src/courierust_client/h2.rs:1266-1272 | what is pending is failed, what is queued is hung up |
| `H2Driver.ClientDriver.DrainCommands` | src/courierust_client/h2.rs:395-411 | the receive loop is the run of its commands and leaves the queue settled |
| `H2Driver.ClientDriver.ApplyLiveness` | src/courierust_client/h2.rs:553-618 | settings deadline, idle reaping and keepalive as judged |
| `H2Driver.ClientDriver.Serve` | src/courierust_client/h2.rs:427-448 | events, uploads, timeouts and the queue after a poll |
| `H2Driver.ClientDriver.PollHalf` | src/courierust_client/h2.rs:418-465 | a poll with everything that follows it |
| `H2Driver.ClientDriver.Wait` | src/courierust_client/h2.rs:466-533 | the blocking half of a turn |
| `H2Driver.ClientDriver.Pass` | src/courierust_client/h2.rs:382-536 | one turn of the loop |
| `H2Driver.ClientDriver.Drive` | src/courierust_client/h2.rs:321-536 | the whole loop is the run of the specification, and a stopped driver is finished |
| `Keepalive.PingLawHolds` | src/courierust_client/h2.rs:586-618 | an outstanding PING was sent by some pass after the interval of silence, and nothing moved since unless it was heard after |
| `Keepalive.DeadMeansStuck` | src/courierust_client/h2.rs:591-615 | a pass gives the peer up only if a PING ran out of time with no byte in either direction since, and no other deadline came first |
| `Keepalive.StuckMeansDead` | src/courierust_client/h2.rs:591-615 | and it does if one has |
| `Keepalive.GivenUpExactly` | src/courierust_client/h2.rs:553-618 | a run presumes the peer dead if and only if some pass found such a PING |
| `Keepalive.StuckConnectionIsDropped` | src/courierust_client/h2.rs:591-615 | if nothing moves the connection is dropped within the interval, the timeout and two passes, and with requests under way it is for the PING |
| `Keepalive.WillingTransportHidesDeath` | src/courierust_h2/connection.rs:470-506 | as long as something is written before each PING runs out of time no run gives the peer up |
| `Keepalive.SilentPeerSurvives` | src/courierust_client/h2.rs:418-426 | with the default configuration, a peer that is silent after its SETTINGS ACK, still alive |
| `Upload.EveryRunKeepsTheLaw` | src/courierust_client/h2.rs:839-891 | every run of sends, drains and refusals keeps the upload law |
| `Upload.UploadIsExact` | src/courierust_client/h2.rs:839-891 | what is on the wire is a prefix of what was sent, in order; the end comes last and once; a clean end means all of it |
| `Upload.ClosedIsCompleteExactly` | src/courierust_client/h2.rs:839-891 | in every run a closed body is all that was sent if and only if no chunk was sent after a failure |
| `Upload.TruncatedBodyIsClosed` | src/courierust_client/h2.rs:874-878 | a run where one was, closed like a whole one |
| `Upload.FailureLooksComplete` | src/courierust_client/h2.rs:874-878 | a failed body and a finished one leave the same frames |
| `Upload.StreamBody.constructor` | src/courierust_client/h2.rs:839-842 | a fresh body |
| `Upload.StreamBody.SendData` | src/courierust_client/h2.rs:842-873 | one piece offered to the connection |
| `Upload.StreamBody.EndStream` | src/courierust_client/h2.rs:874-883 | the end offered to the connection |
| `Upload.StreamBody.DrainBody` | src/courierust_client/h2.rs:839-891 | the held piece first, then the waiting ones |
| `Upload.StreamBody.Receive` | src/courierust_client/h2.rs:856-885 | the loop over the waiting pieces |
| `ConnPool.LeastLoaded` | src/courierust_client/mod.rs:1716-1726 | a pooled connection no other is less loaded than |
| `ConnPool.Empty` | src/courierust_client/mod.rs:1681-1698 | an empty pool satisfies the laws |
| `ConnPool.ReleaseIsExact` | src/courierust_client/h2.rs:130-141 | what is released was reserved: saturation never happens |
| `ConnPool.StepKeeps` | src/courierust_client/mod.rs:1691-1790 | every step of every caller keeps the counts exact |
| `ConnPool.PoolIsExact` | src/courierust_client/mod.rs:1626-1790 | for every interleaving: pool within the cap, pending counter exact, each connection counts its requests and their weight, idle exactly when nothing is on it, nobody falls out |
| `ConnPool.CapIsExact` | src/courierust_client/mod.rs:1728-1779 | pooled plus opening connections stay within the cap when no upgrade arrives |
| `ConnPool.OfferRespectsTheCapExactly` | src/courierust_client/mod.rs:1577-1585 | an upgrade keeps that bound if and only if it finds room beside the opens or none |
| `ConnPool.UpgradeCanCrowdTheCap` | src/courierust_client/mod.rs:1577-1585 | a run where it does not |
| `ConnPool.LandedIsPooled` | src/courierust_client/mod.rs:1751-1764 | an opened connection finds room in the pool |
| `ConnPool.LookOutcome` | src/courierust_client/mod.rs:1694-1735 | a caller leaves the lock with an idle connection, the least loaded at the cap, leave to open, or somebody to wait for |
| `ConnPool.FallbackExactly` | src/courierust_client/mod.rs:1698-1790 | the fallback is reached if and only if the pool is full, nothing is opening and every connection stops accepting during the look, one that is seen idle before the first scan |
| `ConnPool.FindIdle` | src/courierust_client/mod.rs:1704-1712 | the search loop finds the first idle connection |
| `ConnPool.FindLeast` | src/courierust_client/mod.rs:1716-1720 | the minimum loop finds the first least loaded one |
| `ConnPool.SharedPool.constructor` | src/courierust_client/mod.rs:1681-1698 | a new pool is empty |
| `ConnPool.SharedPool.LookAround` | src/courierust_client/mod.rs:1694-1735 | the locked part of a turn |
| `ConnPool.SharedPool.DecrementOpens` | src/courierust_client/mod.rs:1828-1839 | a counter that reaches zero is removed |
| `ConnPool.SharedPool.LandConn` | src/courierust_client/mod.rs:1751-1764 | a connection arrives |
| `ConnPool.SharedPool.OpenFailed` | src/courierust_client/mod.rs:1770-1777 | an open fails and is no longer counted |
| `ConnPool.SharedPool.DriverIsGone` | src/courierust_client/mod.rs:1649-1668 | the retry on a dead driver releases once and looks again |
| `ServiceTime.EveryInterleavingIsSequential` | src/courierust_client/h2.rs:168-186 | the compare-and-swap loop: every interleaving folds the sample of each thread that has left exactly once, loses none, and the average never weighs more than ten |
| `ServiceTime.RepeatedSampleSettles` | src/courierust_client/h2.rs:168-186 | a repeated sample is approached monotonically and reached, up to the division from below |
| `Retries.ExecuteWithRetry` | src/courierust_client/mod.rs:741-789 | the loop is the specified run: tries, sends, pauses and result |
| `Retries.TriesAreBounded` | src/courierust_client/mod.rs:741-789 | at most `attempts` tries, at least one, each sent at most twice |
| `Retries.AtMostOnce` | src/courierust_client/mod.rs:1205-1236 | a request that is not idempotent goes out at most once across all three replays |
| `Retries.StreamsGoOutOnce` | src/courierust_client/mod.rs:751-756 | a streaming body is tried once and sent at most once |
| `Retries.IdempotentCanGoOutTwice` | src/courierust_client/mod.rs:1205-1236 | an idempotent request sent twice in one try |
| `Retries.FirstFinalAttemptWins` | src/courierust_client/mod.rs:333-350 | the result is that of the first attempt that succeeds or may not be repeated |
| `Retries.PausesGrowToTheCeiling` | src/courierust_client/mod.rs:352-360 | pauses never shrink, never pass the ceiling, and start at the base |
| `Redirects.ExecuteWithRedirects` | src/courierust_client/mod.rs:655-738 | the recursion is the specified chain of hops |
| `Redirects.HopsAreBounded` | src/courierust_client/mod.rs:691-693 | a call ends within `max_redirects` + 1 hops |
| `Redirects.CredentialsStayHome` | src/courierust_client/mod.rs:671-722 | a credential is on a hop only if no hop so far left the first origin, and never reappears; a cookie may also be the jar's for that hop |
| `Redirects.OtherFieldsArePreserved` | src/courierust_client/mod.rs:711-734 | every other field is on every hop unchanged, and none is added |
| `Redirects.FollowUpsAreBodiless` | src/courierust_client/mod.rs:723-733 | no follow-up has a body or a field that describes one; its method is the first or GET |
| `Redirects.BodyIsDroppedOnlyForGet` | src/courierust_client/mod.rs:697-710 | a request with a body is followed only where GET replaces its method |
| `DotSegments.RemoveDotSegments` | src/courierust_client/mod.rs:2499-2523 | the stack loop computes the specified path |
| `DotSegments.AgreesWithTheStandard` | src/courierust_client/mod.rs:2492-2523 | equal to the buffer algorithm of section 5.2.4 of RFC 3986 if and only if the path does not end in a dot segment behind an empty survivor; otherwise one slash short |
| `DotSegments.RfcIsStack` | src/courierust_client/mod.rs:2499-2523 | the rewriting of the standard is a stack machine |
| `DotSegments.SurvivorIsOnTop` | src/courierust_client/mod.rs:2507-2515 | the survivor read from the end of the path is the top of the stack |
| `DotSegments.EmptySegmentIsLost` | src/courierust_client/mod.rs:2516-2521 | the path on which they differ |
| `DotSegments.NoDotSegmentIsLeft` | src/courierust_client/mod.rs:2499-2523 | the result is rooted and holds no dot segment |
| `DotSegments.CleanPathIsKept` | src/courierust_client/mod.rs:2499-2523 | a path without dot segments is unchanged |
| `DotSegments.RemovalIsIdempotent` | src/courierust_client/mod.rs:2499-2523 | twice is once |
| `DotSegments.ResolvedPathIsClean` | src/courierust_client/mod.rs:2457-2468 | a redirect with a path leads to a rooted path without dot segments, one without keeps the base |
| `Calendar.DateRoundTrip` | src/courierust_client/cookies.rs:485-513 | every valid date, of any year, survives the trip through its day number |
| `Calendar.NumberRoundTrip` | src/courierust_client/cookies.rs:485-513 | every integer names a valid date with that number |
| `Calendar.CountsDays` | src/courierust_client/cookies.rs:485-495 | tomorrow is one more, and 1 January 1970 is zero |
| `Calendar.EraIsFloor` | src/courierust_client/cookies.rs:490 | the correction before a truncating division makes it a floor |
| `Calendar.YearFound` | src/courierust_client/cookies.rs:506 | the division trick finds the year of the era |
| `Cookies.StoreKeeps` | src/courierust_client/cookies.rs:132-193 | a store keeps keys distinct, stamps in order, both ceilings, the size ceiling and the domain rule |
| `Cookies.EveryJarIsSound` | src/courierust_client/cookies.rs:88-193 | so does every run from an empty jar |
| `Cookies.Empty` | src/courierust_client/cookies.rs:94-101 | an empty jar is sound, and its ceilings are at least one |
| `Cookies.CapCounts` | src/courierust_client/cookies.rs:230-246 | each host keeps its count up to the ceiling |
| `Cookies.EvictionIsByAge` | src/courierust_client/cookies.rs:230-259 | a cookie stays if and only if fewer than each ceiling are newer |
| `Cookies.NewCookieSurvives` | src/courierust_client/cookies.rs:132-193 | a cookie with a new key survives its own store |
| `Cookies.RefreshSurvivesExactly` | src/courierust_client/cookies.rs:166-192 | a refreshed one does if and only if its host has room among the newer |
| `Cookies.RefreshCanBeLost` | src/courierust_client/cookies.rs:166-192 | three stores into an empty jar, the last of which evicts the cookie it refreshes |
| `Cookies.JarIsPartOfTheFold` | src/courierust_client/cookies.rs:132-193 | for every run the jar holds only what the last store under each key left |
| `Cookies.BelowTheCeilingsAMap` | src/courierust_client/cookies.rs:132-193 | and throughout a run it holds all of it if and only if the stores never leave more keys than the ceilings allow |
| `CookieJars.SentExactly` | src/courierust_client/cookies.rs:199-227 | exactly the cookies that may go to the URL, each once, longest path then oldest first |
| `CookieJars.OrderIsUnique` | src/courierust_client/cookies.rs:211-216 | the cookies that are sent fix their order |
| `CookieJars.CookiesStayHome` | src/courierust_client/cookies.rs:263-288 | in every reachable jar a cookie goes only to its host or its domain, which its setter belongs to, and securely if it must |
| `CookieJars.QueryHidesThePage` | src/courierust_client/cookies.rs:199-207 | matching with the query agrees with section 5.1.4 of RFC 6265 if and only if the cookie is not for exactly this page and its path does not reach into the query and match it there |
| `CookieJars.PageCookieStaysBehind` | src/courierust_client/cookies.rs:199-207 | a cookie for exactly the page, not sent with a query |
| `CookieJars.QueryEntersTheDefaultPath` | src/courierust_client/cookies.rs:307-312 | the default path is the standard's if and only if the query holds no slash |
| `CookieJars.DefaultPathHoldsAQuery` | src/courierust_client/cookies.rs:307-312 | a query that holds one |
| `CookieJars.CookieJar.constructor` | src/courierust_client/cookies.rs:94-101 | a new jar |
| `CookieJars.CookieJar.DropOldest` | src/courierust_client/cookies.rs:248-259 | the minimum loop removes the oldest match |
| `CookieJars.CookieJar.CapHost` | src/courierust_client/cookies.rs:238-245 | dropping one host's oldest until it fits does not change what all hosts will keep |
| `CookieJars.CookieJar.CapEveryHost` | src/courierust_client/cookies.rs:234-246 | in whatever order hosts are visited, each keeps its newest |
| `CookieJars.CookieJar.EnforceLimits` | src/courierust_client/cookies.rs:230-246 | the loops keep the newest of all, then the newest of each host |
| `CookieJars.CookieJar.StoreAt` | src/courierust_client/cookies.rs:132-193 | the jar after a store |
| `CookieJars.CookieJar.Clear` | src/courierust_client/cookies.rs:119-121 | an empty jar that goes on counting |
| `CookieJars.CookieJar.HeaderValue` | src/courierust_client/cookies.rs:199-227 | the header text of what is sent |
| `CookieJars.CookieJar.Matching` | src/courierust_client/cookies.rs:199-210 | the loop collects the cookies that may go to the URL |
| `CookieJars.RenderAll` | src/courierust_client/cookies.rs:217-227 | the loop joins name and value pairs |
| `Multipart.Contains` | src/courierust_client/multipart.rs:249-254 | found if and only if it occurs |
| `Multipart.Check` | src/courierust_client/multipart.rs:169-184 | the first refusal of a part |
| `Multipart.Encode` | src/courierust_client/multipart.rs:160-212 | succeeds if and only if boundary and every part are acceptable, with the whole wire form; otherwise the first refusal |
| `Multipart.BodyEnds` | src/courierust_client/multipart.rs:166-184 | the delimiter cannot overlap itself, so it is first found at the end of the body |
| `Multipart.FormRoundTrip` | src/courierust_client/multipart.rs:160-212 | every accepted form without quotes is read back |
| `Multipart.ReadBackExactly` | src/courierust_client/multipart.rs:240-247 | read back if and only if no name holds a quote |
| `Multipart.EncodingIsInjective` | src/courierust_client/multipart.rs:160-212 | two such forms that encode alike are alike |
| `Multipart.QuotesForge` | src/courierust_client/multipart.rs:240-247 | a field that encodes like a file |
| `Multipart.ScanFirstExactly` | src/courierust_client/multipart.rs:179-184 | a reader that looks for the delimiter first ends a part right if and only if its body does not begin with the boundary |
| `Multipart.ScanFirstIsMisled` | src/courierust_client/multipart.rs:179-184 | an accepted part whose body does |
| `ProtoWire.Writer.PutVarint` | build.rs:183-189 | the loop appends the varint |
| `ProtoWire.Writer.PutTag` | build.rs:191-193 | appends the tag |
| `ProtoWire.Writer.PutNumber` | build.rs:195-198 | appends one number field |
| `ProtoWire.Writer.PutBytes` | build.rs:200-213 | appends one length-delimited field |
| `ProtoWire.VarintReads` | build.rs:183-189 | a varint reads back, whatever follows |
| `ProtoWire.FieldsRoundTrip` | build.rs:183-213 | any list of fields reads back |
| `ProtoDescriptor.JsonName` | build.rs:254-270 | the loop removes underscores and raises what follows them |
| `ProtoDescriptor.LocalNameReads` | build.rs:240-251 | a qualified type name gives its own name back |
| `ProtoDescriptor.FieldReads` | build.rs:288-310 | a field record gives its field back |
| `ProtoDescriptor.MessageReads` | build.rs:288-310 | a message record gives its message back |
| `ProtoDescriptor.ServiceReads` | build.rs:312-328 | a service record gives its service back |
| `ProtoDescriptor.DescriptorRoundTrip` | build.rs:272-328 | a descriptor gives back the file and its name |
| `ProtoDescriptor.EncodeMessage` | build.rs:288-310 | writes the message record |
| `ProtoDescriptor.EncodeService` | build.rs:312-328 | writes the service record |
| `ProtoDescriptor.EncodeFileDescriptor` | build.rs:272-286 | writes the file record |
| `ProtoParser.ParseFields` | build.rs:418-459 | in range and unique numbers, no removal from an empty list |
| `ProtoParser.Parse` | build.rs:380-551 | on tokens that end with the end marker the parser never removes from an empty list; what it accepts is lawful and refers to its own messages |
| `ProtoParserCode.Parser.ParseField` | build.rs:421-456 | a field, step by step |
| `ProtoParserCode.Parser.ParseFields` | build.rs:418-459 | the loop over a message body |
| `ProtoParserCode.Parser.ParseRpcs` | build.rs:466-493 | the loop over a service body |
| `ProtoParserCode.Parser.ParseSyntax` | build.rs:397-401 | the syntax line, even when the file ends in it |
| `ProtoParserCode.Parser.ParsePackage` | build.rs:402-413 | the package loop |
| `ProtoParserCode.Parser.SkipOption` | build.rs:517-527 | the option loop |
| `ProtoParserCode.Parser.ParseProto` | build.rs:386-551 | the top-level loop and the closing check |
| `ProtoParserCode.CheckReferences` | build.rs:531-549 | true if and only if every message type of a field is declared here |
| `Utf8.CutAtHead` | build.rs:592-593 | well-formed text may be cut at every byte that begins a character |
| `ProtoLexer.Lex` | build.rs:592-693 | what is tokenized ends in one end marker, behind tokens the tokenizer can make |
| `ProtoLexer.OneTokenIsSafe` | build.rs:596-693 | on well-formed text every slice is on character boundaries, so is the next token, and the bytes 0x85 and 0xA0 are never taken for spaces |
| `ProtoLexer.TokenizerIsSafe` | build.rs:592-693 | no well-formed text aborts the tokenizer |
| `ProtoLexer.SliceCanAbort` | build.rs:654 | on bytes that are not a `str` it would |
| `ProtoLexer.Tokenize` | build.rs:592-693 | the index loop computes the tokens |
| `ProtoLexer.SpellingIsRead` | build.rs:592-693 | tokens that are written down are read back |
| `ProtoLexer.ParseText` | build.rs:380-551 | what is accepted is lawful, refers to its own messages and has words for names |
| `ProtoLexer.NoTextAborts` | build.rs:380-693 | no text aborts tokenizer or parser |
| `ProtoPrint.PrintParses` | build.rs:380-551 | every lawful file is read back from its printed tokens |
| `ProtoPrint.TextRoundTrip` | build.rs:380-693 | and from its printed text, which is well-formed |
| `ProtoPrint.AcceptedExactly` | build.rs:380-693 | the files some well-formed text yields are exactly those with numbers in range and unique, field types declared, names that are words and read as names |
| `ProtoPrint.DescriptorOfText` | build.rs:272-551 | for every accepted text the descriptor describes that file and no other |
| `ProtoPrint.DescriptorIsClosedExactly` | build.rs:531-549 | and points only into that file if and only if its rpcs name messages it declares |
| `ProtoPrint.UndeclaredRpcIsAccepted` | build.rs:466-493 | an accepted file whose rpc does not |
| `BodyWake.EveryInterleavingKeeps` | src/courierust_body/mod.rs:245-300 | every interleaving keeps chunks in order, flag and slot in step, and every new chunk announced or on its way |
| `BodyWake.NoWakeUpIsLost` | src/courierust_body/mod.rs:268-299 | after install and drain, a chunk left when all sends are done has been announced by that callback, in a call after the last push |
| `BodyWake.OnItsWayArrives` | src/courierust_body/mod.rs:408-415 | a send on its way needs only its own steps |
| `BodyWake.InstallAloneIsNotEnough` | src/courierust_body/mod.rs:268-273 | without the drain a chunk stays unannounced |
| `BodyWake.QuietAfterClear` | src/courierust_body/mod.rs:275-299 | after a clear the callbacks that run are exactly those of sends that had them in hand, each once; a later send wakes nothing |
| `BodyWake.QuietAfterClearExactly` | src/courierust_body/mod.rs:275-279 | so one can still run if and only if some send had it in hand |
| `BodyWake.ClearCanBeOvertaken` | src/courierust_body/mod.rs:275-299 | a run where one had |
| `BodyWake.Handle.Install` | src/courierust_body/mod.rs:268-273 | slot, then flag |
| `BodyWake.Handle.Clear` | src/courierust_body/mod.rs:275-279 | flag, then slot |
| `BodyWake.Handle.Fire` | src/courierust_body/mod.rs:286-299 | the callback, if installed |
| `BodyWake.Handle.Send` | src/courierust_body/mod.rs:408-430 | the chunk, then the wake-up |
| `BodyWake.Handle.TryReceive` | src/courierust_body/mod.rs:144-150 | the next chunk, or a look at an empty channel |
| `BodyWake.Drain` | src/courierust_body/mod.rs:153-163 | the whole body if and only if it arrives whole within the limit; otherwise the first thing that went wrong |

## Left out

- CapIsExact: speaks of runs without h2c upgrades, because with them the bound is false; the exact condition is `OfferRespectsTheCapExactly`.
- CleanCloseMeansComplete: is about histories with one head, because the connection reports every later HEADERS as trailers (src/courierust_h2/connection.rs:1568-1596).
- PoolIsExact: `reserve` and `release` update their two counters in one step; an observer between the two updates is not modelled.
- StuckConnectionIsDropped: bounds the time only for a connection on which nothing moves, because every byte that moves starts the count again; what decides any other run is `GivenUpExactly`.
- TableIsTheCountExactly: which of our halves end during a poll is a parameter, because flow control is not modelled.
- DescriptorRoundTrip: needs type references without dots, which is all the parser produces.
- EveryRequestHasOneFate: is about requests the driver has received; those still in the command channel when it ends are hung up with the channel.
- WithDefaults: a header map has one value per name; of a default field that is repeated the source keeps the first.
- NoWakeUpIsLost: memory is sequentially consistent; weaker orderings of the flag and the channel are not modelled.
- Drain: a producer that never closes its channel is not modelled.
- The HTTP/3 pool and driver, whose pool repeats the HTTP/2 one.
- Sockets, TLS, proxies, DNS and ALPN: what they do is part of the network parameter.
- HPACK, framing, flow control and the connection state behind the driver (`src/courierust_h2`): each answer it gives the driver is a parameter.
- Header contents of requests and responses in the driver: a response head is a number or malformed.
- What is in an uploaded chunk is followed in `Upload`; the driver only knows which uploads are done.
- Machine-integer widths: counters, durations and sizes are unbounded, except where the source tests a width (field numbers, `u32` literals, `i64` expiry).
- Overflow of a year or a day number in the calendar.
- Parsing of `Set-Cookie` text and of cookie dates; whether a host is an IP literal.
- Expiry at send time: the jar does not look at it when it sends.
- URL parsing, and the query and fragment halves of redirect resolution.
- The `proxy-authorization` field the client itself adds for a forward proxy.
- Content decoding, decompression and body collection into text.
- Error texts and error details beyond their kind.
- The Rust code the build script generates from a parsed file.
- The server, gRPC, reverse proxy and utility modules.
