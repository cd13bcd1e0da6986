# Verified model of the Ring Apple TV system

The repository lets an Apple TV app show Ring cameras.  This project models, in Dafny,
the parts of it that carry state across awaits or rewrite text, and proves what they are
for.  `dafny verify dfyconfig.toml` checks everything.

**Live streams across two processes.**  The Python adapter creates, deletes and shuts
down stream sessions and talks over HTTP to a Node sidecar that keeps its own sessions.
Neither the capacity check nor the busy check is atomic with its insert.  `Sidecar` and
`LiveStream` are state machines in which one step is one stretch of code between two
awaits, so all interleavings of any number of coroutines are covered.  `LiveStreamOwnership`
proves who answers for every sidecar entry in every state, `LiveStreamOrphans` which entries
a run can leave without anybody, told by what happened on the run.  `LiveStreamLeaks`
finds, for an entry that leaked, the coroutine to blame.  `LiveStreamCapacity` proves how far
the limit can be overshot, `LiveStreamOvershoot` that it can be that far, and `SidecarOverlap`
the same for the sessions of one device.  `LiveStreamEnds` and `LiveStreamSessions` say from
the labels of a run which sessions the map holds and what they are, `LiveStreamCalls` and
`LiveStreamCreates` what a call does from beginning to end, and `SidecarHistory` what the
requests, terminations and delayed deletes of a run must have come to.  The classes in
`Sidecar` and `StreamAdapter` are the same code updating its fields in place, each method
proved to be exactly one step.

**Outbound rate limit.**  `RateLimit` proves that a trimmed deque stands for the whole
history of grants, that the history respects every 60 s window, and that waiting ends;
`RateLimitLongest` that it can take as many passes as proved.

**SDP answers.**  `SdpText`, `Sdp`, `SdpReorder` and `SdpMux` say what splitting, parsing,
reordering to the offer and inserting rtcp-mux compute and prove it meets section 6 of RFC
3264 and section 5.1.1 of RFC 5761; `SdpReject` reads the placeholders back, and `SdpMunger`
has the loops.  The empty piece after a trailing CRLF counts as a line, as in the code, and
may end up in the middle of the text.

**Refresh tokens, requests and cached reads.**  `TokenLifecycle` is the locked refresh
against a server that may rotate the refresh token on any success, with restarts and the
save at start-up, `TokenRejection` what follows a 401, `TokenClient` the client and store
objects; `RingRequests` is the retry loop, `ResponseCache` the TTL cache.

**Swift client.**  `PartnerRequests` has the 429/401 loop and the device-code polling loop,
`TokenKeychain` the cached token with the keychain slot behind it.

**Log redaction.**  `Redaction` defines the two rewrites, `RedactedValues` and
`RedactedPairs` prove what each does, `RedactedText`, `RedactedFields` and `LogFilter` what
they do together.

History variables (`fate`, `callers`, `used`, `log`, `known`, `late`, `stale`, `grants`) exist
in the model only to state properties and what a server may answer; no step of the modelled
code depends on them.

Some promises turned out to need a condition, and the model gives it exactly:

- The reordered answer matches the offer if and only if every offered type that the answer
  lacks contains neither a line break nor `m=` (`SdpReorder.AnswerMatchesOffer`).
- Reordering is idempotent if and only if no type that the answer lacks is offered twice
  (`SdpReorder.ReorderingTwice`).
- The stored refresh token is the one the server accepts if and only if no rotated token was
  lost and no other token saved since (`TokenLifecycle.RefreshTokenAgreement`); a start-up
  after a 401 can save an old one (`TokenLifecycle.StartUpPresentsOld`).
- The log filter hides the value of a quoted pair if and only if the text before it does not
  end inside a value or an unfinished pair (`RedactedText.PairHidden`; for the second rewrite
  alone `RedactedPairs.PairHiddenIff`).
- After a 401 no POST comes before the next save if and only if the caller that got it did
  not die before it had marked the row (`TokenRejection.SilentAfterRefusal`).
- The first log rewrite hides a value if and only if it holds no white space
  (`RedactedValues.OnlyTheFirstWordIsHidden`), and a record is redacted if and only if its
  dictionary arguments have keys with a working lower() that, like their values, can be
  rendered (`LogFilter.LeftAsItWas`).

The first result in the words of the model: if `Run(Init(max), ls)` and
`NoneGivenUp(Init(max), ls)`, then for every entry `b` of the sidecar at the end of `ls`
either `Accounted(.., b)`, or `Erred(Init(max), ls, b)`: the run has a stop of `b` that ended
with a timeout or a transport error (`LiveStreamOrphans.NoOrphans`).

Where comments and code disagree the model follows the code.  The comments of
`unofficial.py:364-366` and `unofficial.py:384-386` say that the watchdog of the sidecar
reaps what a failed stop leaves behind; the watchdog of `index.js:54-59` only reacts to a
termination by Ring, so such an entry stays, and `NoOrphans` names it as the one exception.
The comment of `factory.py:117-119` says that a stale bootstrap value never clobbers a rotated
token; `factory.py:127-134` saves it whenever the row is missing or invalid.

## Model

| member | source | states |
|---|---|---|
| `LiveStreamOwnership.NextKeepsInv` | partner-auth-backend/app/adapters/unofficial.py:239-396 | Whatever coroutine, handler, timer or callback runs next, and however many interleave: every sidecar entry has exactly one recorded party answering for it, and that party really awaits its reply, holds it, has it in the map or is about to stop it; sessions and bridge ids stay matched one to one |
| `LiveStreamOrphans.NoOrphans` | partner-auth-backend/app/adapters/unofficial.py:239-396 | On every run with no lost start reply and no cancellation of a coroutine that may answer for an entry, whatever stops fail: every entry of the sidecar is accounted for by a create coroutine that has or awaits its start reply, by a session in the map, or by a cleanup or shutdown coroutine that has not finished its stop, or else a stop of that very entry failed on the run |
| `LiveStreamLeaks.EveryEntryHasAFate` | partner-auth-backend/app/adapters/unofficial.py:239-396 | On every run at all, with lost replies and cancellations too: an entry of the sidecar is accounted for, or a stop of it failed on the run, or the very coroutine that answered for it was abandoned on the run, while it awaited the reply to the POST that made the entry, held that reply or was about to stop the entry |
| `LiveStreamLeaks.LeaksWereGivenUp` | partner-auth-backend/app/adapters/unofficial.py:239-396 | On every run, an entry recorded as leaked, still there or not, was made by one POST, and the coroutine that awaited that POST, held the entry or was about to stop it was abandoned on the run |
| `LiveStreamOrphans.FailedStopsErred` | partner-auth-backend/app/adapters/sip_bridge_client.py:133-147 | On every run: an entry recorded as one whose stop failed was named by a stop that ended with a timeout or a transport error; a reply of the sidecar is never what makes a stop fail |
| `LiveStreamOrphans.ShutdownLeavesFailedStopsOnly` | partner-auth-backend/app/adapters/unofficial.py:352-396 | On such runs, once all coroutines are done and the map is empty, the sidecar holds only sessions whose stop failed on the run, and none if no stop failed |
| `LiveStreamOrphans.NextNotLeaked` | partner-auth-backend/app/adapters/unofficial.py:239-396 | Unless a coroutine that may answer for an entry is abandoned, every step keeps every POST attached to a caller that still waits for it and gives no entry up, failing stops included |
| `LiveStreamOrphans.LostReplyOrphans` | partner-auth-backend/app/adapters/sip_bridge_client.py:93-104 | The hypothesis is needed: there is a run on which the start reply is lost after the sidecar made its entry, and then an active entry exists that nobody accounts for although no stop of it failed |
| `LiveStreamOrphans.BridgesDistinct` | partner-auth-backend/app/adapters/unofficial.py:250-261 | On every run no two sessions of the map share a bridge id, no session shares one with a create coroutine that has its start reply, read or unread, and no two such coroutines share one |
| `LiveStreamOrphans.AnsweredStopIsFinal` | partner-auth-backend/app/adapters/sip_bridge_client.py:125-147 | On every run, when a stop has been answered with success the entry it named is gone, whoever else was stopping, deleting or terminating it at the same time |
| `LiveStreamOwnership.SidecarKeeps` | ring-sip-bridge/index.js:28-83 | Every event of the sidecar, POST and DELETE handlers, watchdog and delayed delete, keeps the ownership invariant of the whole system |
| `LiveStreamOwnership.StartRepliedKeeps` | partner-auth-backend/app/adapters/sip_bridge_client.py:106-123 | Reading the start reply moves the ownership of the entry from the outstanding request to the create coroutine, and every refusal leaves nothing owned |
| `LiveStreamOwnership.BindKeeps` | partner-auth-backend/app/adapters/unofficial.py:250-261 | Binding moves the ownership of the entry from the create coroutine to the map |
| `LiveStreamOwnership.WhepFailedKeeps` | partner-auth-backend/app/adapters/unofficial.py:281-294 | A failed WHEP exchange takes the session out of the map and moves its entry to the cleanup coroutine, unless a delete or shutdown took it over first |
| `LiveStreamOwnership.StopFinishedKeeps` | partner-auth-backend/app/adapters/unofficial.py:321-326 | The end of a stop, with success or not, settles the entry of cleanup, of delete and of the current session of shutdown, which then goes on with the next; a delete leaves its session out of the map |
| `LiveStreamOwnership.CloseBeginsKeeps` | partner-auth-backend/app/adapters/unofficial.py:352-357 | Shutdown takes over every session of the map in one step and leaves the map empty |
| `LiveStreamOwnership.AbandonedKeeps` | partner-auth-backend/app/adapters/unofficial.py:321-326 | A cancellation at any await leaves the invariant intact: what the coroutine answered for is recorded as leaked, and delete still removes its session |
| `LiveStreamEnds.MapIsBoundAndNotRemoved` | partner-auth-backend/app/adapters/unofficial.py:250-326 | On every run, told by its labels: the map holds exactly the sessions that were bound, but for those whose delete has ended (with success, an error or a cancellation), whose WHEP exchange has failed, or that stood in the map when a shutdown began |
| `LiveStreamSessions.SessionWasCreated` | partner-auth-backend/app/adapters/unofficial.py:239-297 | On every run: a session of the map was bound by a create call for its device, says that there is audio exactly if the WHEP answer to that call did, and the entry that the sidecar has under its bridge id is one for that device |
| `LiveStreamSessions.PostWasAsked` | partner-auth-backend/app/adapters/sip_bridge_client.py:86-98 | On every run: a POST to the sidecar carries the device of a create call and the token that was loaded for that very call; so no POST goes out without a token |
| `LiveStreamCalls.DeleteCall` | partner-auth-backend/app/adapters/unofficial.py:320-326 | From every state that a run can reach, a delete that nothing disturbs can go through to its end, takes its session out of the map and its entry out of the sidecar, and changes nothing else, even if session.stop throws |
| `LiveStreamCalls.DeleteFails` | partner-auth-backend/app/adapters/unofficial.py:320-326 | A delete whose stop fails ends too and takes its session out of the map all the same |
| `LiveStreamCalls.DeleteOfUnknown` | partner-auth-backend/app/adapters/unofficial.py:320-322 | A delete of an id that is not in the map changes nothing and sends nothing |
| `LiveStreamCalls.CloseCall` | partner-auth-backend/app/adapters/unofficial.py:352-372 | From every reachable state a shutdown that nothing disturbs ends with an empty map and without the entries of its sessions, and takes no other entry away |
| `LiveStreamCreates.CreateCall` | partner-auth-backend/app/adapters/unofficial.py:239-297 | From every reachable state below the limit, a create for a free device ends with one session more, for that device, with the audio flag of the answer, and one active entry more under its bridge id, and with nothing else changed |
| `LiveStreamCreates.CreateUndone` | partner-auth-backend/app/adapters/unofficial.py:281-294 | A create whose WHEP exchange fails undoes itself: map, sidecar entries, coroutines and inbox are as before |
| `LiveStreamCreates.CreateRefused` | partner-auth-backend/app/adapters/sip_bridge_client.py:92-117 | A create that the sidecar refuses, for want of a device or a token or because the device is busy, changes neither map nor entries |
| `LiveStreamCreates.CreateFails` | partner-auth-backend/app/adapters/sip_bridge_client.py:92-117 | Nor does one for which the session factory fails |
| `LiveStreamCreates.CreateWhenFull` | partner-auth-backend/app/adapters/session_map.py:74-90 | A create at the limit does nothing |
| `LiveStreamCreates.CreateWithoutToken` | partner-auth-backend/app/adapters/sip_bridge_client.py:86-90 | A create without a stored token sends nothing and ends |
| `LiveStreamCapacity.NextLoad` | partner-auth-backend/app/adapters/session_map.py:74-90 | No step lets sessions plus creates between check and bind exceed max - 1 + k while at most k such creates exist |
| `LiveStreamCapacity.CapacityOvershoot` | partner-auth-backend/app/adapters/session_map.py:74-90 | The check is not atomic with the bind: if at most k creates are ever between the two, sessions plus pending creates are at most max - 1 + k on every run; with k = 1 the limit is exact |
| `LiveStreamOvershoot.OvershootIsReached` | partner-auth-backend/app/adapters/session_map.py:74-90 | For every limit and every k there is a run on which never more than k creates are between check and bind and which ends with max - 1 + k sessions: the bound cannot be improved |
| `StreamAdapter.StreamSessionMap.Clear` | partner-auth-backend/app/adapters/session_map.py:97-106 | Returns every session exactly once and leaves the map empty |
| `StreamAdapter.UnofficialRingAdapter.WhepFailed` | partner-auth-backend/app/adapters/unofficial.py:381-388 | The adapter object, updated in place, ends in exactly the state of the same-named step of the protocol, to which the ownership and capacity theorems apply; so do its other methods, one for each stretch of create, delete, cleanup and shutdown between two awaits |
| `StreamAdapter.UnofficialRingAdapter.CloseBegins` | partner-auth-backend/app/adapters/unofficial.py:352-355 | The same for shutdown: the order in which the registry hands out its sessions is one that the protocol step allows |
| `StreamAdapter.UnofficialRingAdapter.CreateBegins` | partner-auth-backend/app/adapters/unofficial.py:239-243 | The step of a create call up to its first await; it raises for capacity exactly if the map is full |
| `StreamAdapter.UnofficialRingAdapter.TokenLoaded` | partner-auth-backend/app/adapters/sip_bridge_client.py:86-98 | The step that sends the POST; authentication is required exactly if there is no token |
| `StreamAdapter.UnofficialRingAdapter.StartReplied` | partner-auth-backend/app/adapters/sip_bridge_client.py:106-123 | The step that reads the reply: 201 goes on, 409 is raised as a matter of capacity, all else makes the sidecar unavailable |
| `StreamAdapter.UnofficialRingAdapter.DeleteBegins` | partner-auth-backend/app/adapters/unofficial.py:321-324 | The step that looks the session up; not found exactly if it is not in the map |
| `Sidecar.StepKeepsInv` | ring-sip-bridge/index.js:28-83 | A request is at one stage only, session ids are drawn once, and a start in flight has an id that no entry and no other start has |
| `Sidecar.EntryLife` | ring-sip-bridge/index.js:50-83 | Whatever happens next, an entry keeps its device, its state only goes from active to terminated, it goes only by its own delayed delete or the end of a DELETE that names it, and it comes only by its own start |
| `Sidecar.GoneStaysGone` | ring-sip-bridge/index.js:42-81 | On every run a drawn id that no entry and no start in flight has is never an entry again |
| `Sidecar.EntryHistory` | ring-sip-bridge/index.js:50-83 | On every run an entry that is still there has kept its device, and is active only if it was active |
| `Sidecar.UntouchedEntrySurvives` | ring-sip-bridge/index.js:54-59 | No run of delayed deletes, terminations and DELETEs of other sessions, nor of later POSTs for the same device, changes an entry that none of them names |
| `SidecarHistory.DelayedDeleteRemoves` | ring-sip-bridge/index.js:54-59 | On every run: once its delayed delete has fired, a session has no entry and never gets one again |
| `SidecarHistory.EndedSessionIsDeleted` | ring-sip-bridge/index.js:54-59 | On every run: a session that Ring has ended, during its start or later, is not active, and as long as it has an entry its delayed delete is still to come |
| `SidecarHistory.PostAnswer` | ring-sip-bridge/index.js:28-67 | On every run, wherever a POST arrives: it is answered with 400 if and only if the device or the token is missing, else with 409 if and only if the device has an active entry at that moment, else with 201 and the drawn id if and only if the factory succeeds later on the run, with 502 if and only if it fails, and not at all before |
| `SidecarHistory.StartedEntry` | ring-sip-bridge/index.js:50-66 | On every run: when the factory succeeds there is an entry for the device of the POST, active unless the session ended at once, and it stays until its delayed delete or a DELETE of it |
| `SidecarHistory.EntryWasPosted` | ring-sip-bridge/index.js:28-61 | On every run: every entry has an id that was drawn for a POST with a token and for its own device |
| `SidecarHistory.DeleteAnswer` | ring-sip-bridge/index.js:70-83 | On every run, wherever a DELETE arrives: it is answered with 204 at once if and only if there is no such entry, else if and only if its stop has returned, and then the entry is gone for good; it is not active from the moment the stop begins, unless session.stop throws |
| `Sidecar.StepLoad` | ring-sip-bridge/index.js:34-61 | The busy check makes room: no step lets active entries plus starts in flight of a device exceed k while at most k of its starts overlap |
| `Sidecar.DeviceExclusive` | ring-sip-bridge/index.js:34-61 | On every run on which at most k starts for a device ever overlap, its active entries and starts in flight are at most k; non-overlapping POSTs give at most one active session per device |
| `SidecarOverlap.OverlapIsReached` | ring-sip-bridge/index.js:34-61 | For every device and every k there is a run on which never more than k starts for it overlap and which ends with k active sessions of that device: the bound cannot be improved |
| `Sidecar.App.PostSessions` | ring-sip-bridge/index.js:28-45 | The loop over all sessions finds a busy device exactly when there is one, and the handler ends in exactly the state of the matching event |
| `Sidecar.App.StartResolved` | ring-sip-bridge/index.js:54-66 | The same for the rest of the handler, with the watchdog registered before the entry is stored, even if it fires at once |
| `Sidecar.App.DelayedDelete` | ring-sip-bridge/index.js:58-58 | The delayed delete takes its entry out of the map, and no other one, as the event of that name does; the methods of DELETE and watchdog match their events likewise |
| `RateLimit.SpacedIsRateLimit` | partner-auth-backend/app/adapters/rate_limit.py:55-69 | A history of grants has G[i + max] >= G[i] + 60 throughout if and only if no half-open 60 s window holds more than max grants |
| `RateLimit.DequeIsLastMinute` | partner-auth-backend/app/adapters/rate_limit.py:91-95 | After trimming, what is left of the history in the deque is the number of grants of the whole history in (now - 60, now] |
| `RateLimit.SpacedFar` | partner-auth-backend/app/adapters/rate_limit.py:62-83 | n * max grants later at least n windows have passed; this is the measure that ends the waiting loop |
| `RateLimit.RateLimitGovernor.Create` | partner-auth-backend/app/adapters/rate_limit.py:41-53 | Fails exactly for a limit below 1 or a negative queue wait |
| `RateLimit.RateLimitGovernor.Trim` | partner-auth-backend/app/adapters/rate_limit.py:91-95 | The deque lets go of exactly the grants that are a minute old and then has as many entries as the whole history has in the last minute |
| `RateLimit.RateLimitGovernor.TryTake` | partner-auth-backend/app/adapters/rate_limit.py:64-70 | A slot is granted exactly if the whole history has fewer than max grants in the last minute; the whole history stays spaced |
| `RateLimit.RateLimitGovernor.CurrentRate` | partner-auth-backend/app/adapters/rate_limit.py:85-89 | Equals the number of grants of the whole history in the last minute although only the deque is kept |
| `RateLimit.RateLimitGovernor.OthersRun` | partner-auth-backend/app/adapters/rate_limit.py:55-89 | Any number of other callers at any moments keep the spacing and only extend the history, each by a slot exactly if there is room when it asks |
| `RateLimit.RateLimitGovernor.Acquire` | partner-auth-backend/app/adapters/rate_limit.py:55-83 | With any other callers getting in at every pass and a queue wait of at most m minutes, acquire ends within m * max + 2 passes (in one, if it may not wait), with a grant or with an error raised no earlier than its deadline and after a full window was seen, and it enters the lock for the last time no later than the deadline; the trace says pass by pass what was found and how long was slept; when nobody else calls, it gets its slot at the first moment that has room for one, or fails exactly at the deadline |
| `RateLimitLongest.LongestWait` | partner-auth-backend/app/adapters/rate_limit.py:55-83 | For every limit and every wait of m minutes there is a call of acquire that another caller beats to each slot it waited for, and that fails at its deadline in m * max + 2 passes: the bound cannot be improved |
| `RateLimit.AloneCall` | partner-auth-backend/app/adapters/rate_limit.py:62-83 | A caller whom nobody disturbs sleeps through no moment that has room: before the end of the call every moment has a full window |
| `RateLimit.RateLimitGovernor.Attempt` | partner-auth-backend/app/adapters/rate_limit.py:63-83 | One pass: with the lock entered at any later moment and others getting in first, either it ends the loop as it must or the oldest grant seen has strictly advanced |
| `RateLimit.WaitsOn` | partner-auth-backend/app/adapters/rate_limit.py:70-83 | The measure of the loop: each failed pass that waited for the oldest grant finds a later one in its place |
| `SdpText.JoinSplit` | RingAppleTV/Sources/Services/Implementations/StreamSessionManager.swift:354-354 | Joining what a text was split into gives the text back, also when it ends in CRLF |
| `SdpText.SplitJoinRecuts` | RingAppleTV/Sources/Services/Implementations/StreamSessionManager.swift:347-354 | Splitting joined lines gives each line cut at the line breaks it contains |
| `Sdp.PartsMakeWhole` | RingAppleTV/Sources/Services/Implementations/StreamSessionManager.swift:369-393 | Session lines and sections in document order are all the lines of the text |
| `Sdp.WholeMakesParts` | RingAppleTV/Sources/Services/Implementations/StreamSessionManager.swift:369-393 | Parsing session lines followed by sections gives back exactly those |
| `Sdp.DictIsLast` | RingAppleTV/Sources/Services/Implementations/StreamSessionManager.swift:376-391 | The dictionary holds, for each type, the last section of that type |
| `SdpReorder.AnswerMatchesOffer` | RingAppleTV/Sources/Services/Implementations/StreamSessionManager.swift:312-348 | Section 6 of RFC 3264: the media types of the reordered answer are those of the offer, in order, if and only if every offered type that the answer lacks contains neither a line break nor "m="; media types that are tokens always meet this |
| `SdpReorder.UnsafeOfferFails` | RingAppleTV/Sources/Services/Implementations/StreamSessionManager.swift:336-357 | The law does fail without the condition: the type read from the offer line m=mm==x does not survive its stub |
| `SdpReorder.ReorderedSections` | RingAppleTV/Sources/Services/Implementations/StreamSessionManager.swift:329-347 | Parsing the output gives one section per m-line of the offer, each picked from the answer or a placeholder, and the session lines of the answer |
| `SdpReject.MissingIsRejected` | RingAppleTV/Sources/Services/Implementations/StreamSessionManager.swift:336-342 | Section 6 of RFC 3264: in the parsed output, for every offered type that the answer lacks, the section at its place has the words m=type, 0, UDP/TLS/RTP/SAVPF, 0 on its m-line, then c=IN IP4 0.0.0.0, a=inactive and an a=mid whose decimal digits have the value of its place |
| `SdpReject.PresentIsKept` | RingAppleTV/Sources/Services/Implementations/StreamSessionManager.swift:331-334 | For every other offered type the section is, word for word, the last one of that type in the answer |
| `SdpReject.MuxedPlaces` | RingAppleTV/Sources/Services/Implementations/StreamSessionManager.swift:410-417 | The inserted line stands right after the m-line, in the sections that lacked it, and nowhere else |
| `SdpReject.MissingStaysRejected` | RingAppleTV/Sources/Services/Implementations/StreamSessionManager.swift:97-101 | What the pipeline hands on for a type that the answer lacks is still the rejected section, with rtcp-mux as its second line |
| `SdpReorder.StripNext` | RingAppleTV/Sources/Services/Implementations/StreamSessionManager.swift:357-357 | The type is read by removing every m= from the first word, from the left, and nothing else |
| `SdpReorder.InOrderIsUnchanged` | RingAppleTV/Sources/Services/Implementations/StreamSessionManager.swift:321-347 | An answer already in offer order is reproduced exactly if and only if sections of the same type are equal |
| `SdpReorder.ParsePrintRoundTrip` | RingAppleTV/Sources/Services/Implementations/StreamSessionManager.swift:329-393 | When no media type repeats, joining the parsed session lines and sections in document order gives back the exact text |
| `SdpReorder.ReorderingTwice` | RingAppleTV/Sources/Services/Implementations/StreamSessionManager.swift:312-348 | Reordering twice equals reordering once if and only if no type that the answer lacks occurs twice in the offer (two stubs have different mids) |
| `SdpMux.MuxedSections` | RingAppleTV/Sources/Services/Implementations/StreamSessionManager.swift:405-439 | Section 5.1.1 of RFC 5761: in the parsed output every media section has a=rtcp-mux after its m-line; session lines, number, order and types of the sections are kept |
| `SdpMux.MuxedIsUnchanged` | RingAppleTV/Sources/Services/Implementations/StreamSessionManager.swift:405-439 | The text is left alone if and only if every section had a=rtcp-mux; so a second pass changes nothing |
| `SdpMux.MuxedOnlyInserts` | RingAppleTV/Sources/Services/Implementations/StreamSessionManager.swift:410-415 | The output lines are the input lines with exactly one a=rtcp-mux line inserted per section that lacked it |
| `SdpMux.PipelineMatchesOffer` | RingAppleTV/Sources/Services/Implementations/StreamSessionManager.swift:97-101 | Reordering followed by insertion still matches the order of the offer, under the same exact condition, and has rtcp-mux throughout |
| `SdpMunger.ExtractMediaTypes` | RingAppleTV/Sources/Services/Implementations/StreamSessionManager.swift:352-360 | The loop computes the media types of the parsed sections in document order |
| `SdpMunger.ParseSdpSections` | RingAppleTV/Sources/Services/Implementations/StreamSessionManager.swift:369-393 | The loop with its section buffer computes the session lines and, per type, the last section |
| `SdpMunger.FlushSection` | RingAppleTV/Sources/Services/Implementations/StreamSessionManager.swift:410-420 | What the buffered section adds makes the result the insertion of all lines read so far |
| `SdpMunger.EnsureRtcpMux` | RingAppleTV/Sources/Services/Implementations/StreamSessionManager.swift:405-439 | The loop with its buffer and flag computes the text whose sections are those of the input with the line inserted where missing |
| `SdpMunger.Sorted` | RingAppleTV/Sources/Services/Implementations/StreamSessionManager.swift:322-323 | The keys in strictly ascending order, each once |
| `SdpMunger.ShortcutIsSound` | RingAppleTV/Sources/Services/Implementations/StreamSessionManager.swift:321-327 | Whenever the early exit is taken, the long way would give the same text |
| `SdpMunger.ReorderMLinesToMatchOffer` | RingAppleTV/Sources/Services/Implementations/StreamSessionManager.swift:312-348 | With the early exit or without it, the result is the text that the matching, round-trip and idempotence theorems are about |
| `TokenLifecycle.NextAgrees` | partner-auth-backend/app/adapters/ring_consumer_client.py:108-195 | Whatever goes on next, a caller, a rotation that the server makes after its caller gave up, a restart or a save of any token: only the lock holder is past the queue, and the stored valid token is the one the server accepts, except between a rotation and its store, or when the history says that the row went stale |
| `TokenLifecycle.NextLogOk` | partner-auth-backend/app/adapters/ring_consumer_client.py:114-195 | Whatever goes on next: the POSTs of a process stay spaced by the lifetimes received, and none is made while the token stands rejected |
| `TokenLifecycle.RefreshTokenAgreement` | partner-auth-backend/app/adapters/ring_consumer_client.py:142-190 | On every run, restarts and saves of any token included: with the lock free and a valid row, the stored token is the one the server accepts if and only if the row did not go stale on the run, which it does by a rotated token that is lost (unread reply, caller dead before the store, POST worked on too late) or by a save of another token than the accepted one, and until the next save of an accepted one; a POST under way presents the accepted token under the same condition; at most one POST is under way |
| `TokenLifecycle.StaleMeans` | partner-auth-backend/app/adapters/ring_consumer_client.py:142-190 | On every run the flag that the steps carry along agrees with what the labels of the run say about lost rotations and saves |
| `TokenLifecycle.NeverSuperseded` | partner-auth-backend/app/adapters/ring_consumer_client.py:148-190 | When no rotated token is lost and no other token than the accepted one is saved, no interleaving of callers ever presents a superseded refresh token; callers may die in the queue, while the row is read or after the new token is stored, and the process may restart |
| `TokenLifecycle.StartUpPresentsOld` | partner-auth-backend/app/adapters/factory.py:127-136 | The second half of the hypothesis is needed: there is a run that loses no rotation, on which a 401 marks the row and the restart saves the token of the environment, which was replaced long ago; the next caller presents it |
| `TokenLifecycle.LostRotationPresentsOld` | partner-auth-backend/app/adapters/ring_consumer_client.py:148-164 | The first half of the hypothesis is needed: there is a run on which a lost rotation makes the next caller present the superseded token |
| `TokenLifecycle.RefreshSpacing` | partner-auth-backend/app/adapters/ring_consumer_client.py:114-122 | On every run, after an exchange completed at t with lifetime e the same process makes no further POST before t + e - 60, however many callers there are; a restart forgets the access token |
| `TokenRejection.SilentAfterRefusal` | partner-auth-backend/app/adapters/ring_consumer_client.py:166-173 | After a 401 that its caller is done with: a POST can come before the next save if and only if that caller died, by a cancellation or a database error, before it had marked the row |
| `TokenRejection.SilentUnlessUnmarked` | partner-auth-backend/app/adapters/ring_consumer_client.py:142-173 | On every run: if a POST comes after a 401 and before the next save, the caller that got the 401 died before it had marked the row |
| `TokenRejection.SilentAfterInvalidation` | partner-auth-backend/app/data/refresh_token_store.py:58-87 | On every run, once the row was marked invalid no POST is made until a save |
| `TokenRejection.RejectedTokenIsPostedAgain` | partner-auth-backend/app/adapters/ring_consumer_client.py:166-173 | Without the condition it fails: there is a run on which the rejected token is presented again with no save in between |
| `TokenClient.AloneRuns` | partner-auth-backend/app/adapters/ring_consumer_client.py:108-195 | A call that runs alone is one of the runs of the interleaved protocol |
| `TokenClient.RenewedIs` | partner-auth-backend/app/adapters/ring_consumer_client.py:142-195 | One whole refresh: what becomes of row, access token and lock for each answer of the server |
| `TokenClient.RefreshTokenStore.LoadToken` | partner-auth-backend/app/data/refresh_token_store.py:58-68 | A token exactly if there is a row and it is valid |
| `TokenClient.RefreshTokenStore.SaveToken` | partner-auth-backend/app/data/refresh_token_store.py:70-87 | The row holds the token and is valid |
| `TokenClient.RefreshTokenStore.RotateToken` | partner-auth-backend/app/data/refresh_token_store.py:89-125 | Insert and update have the same outcome |
| `TokenClient.RefreshTokenStore.MarkTokenInvalid` | partner-auth-backend/app/data/refresh_token_store.py:127-135 | Keeps the token and only clears the flag; no row is made |
| `TokenClient.RingConsumerClient.Refresh` | partner-auth-backend/app/adapters/ring_consumer_client.py:124-195 | For each row and answer exactly one of: the new access token, authentication required, timeout, unavailable, unparsable; and the new access token and row |
| `TokenClient.RingConsumerClient.EnsureAccessToken` | partner-auth-backend/app/adapters/ring_consumer_client.py:108-122 | With more than 60 s left the cached token is returned and nothing changes; otherwise the caller gets the granted token if and only if the row is valid and the server grants one, authentication required if and only if there is no valid row or a 401, a timeout or unavailable for the answers that are so, with row and access token as after the refresh; and the objects end in the protocol state of a call that runs alone |
| `RingRequests.BackoffDoubles` | partner-auth-backend/app/adapters/ring_consumer_client.py:423-424 | Doubling with a cap at each step is the closed form min(2^n, 30) |
| `RingRequests.RetriesCount` | partner-auth-backend/app/adapters/ring_consumer_client.py:412-438 | Whatever the replies: at most two 5xx retries, and the naps are the 429 replies and 5xx replies retried |
| `RingRequests.Request` | partner-auth-backend/app/adapters/ring_consumer_client.py:386-440 | Over any replies: one governor slot, 1 + (429 retried) + (5xx retried) sends, each wait the Retry-After or min(2^n, 30) with n the earlier waits that used the backoff; a timeout, a transport error, a third 5xx or any other status ends the loop, each with its own outcome |
| `RingRequests.OwnNapsDouble` | partner-auth-backend/app/adapters/ring_consumer_client.py:418-436 | Each wait of its own choice is twice the one before it, 30 s at most, whatever a Retry-After asked for in between |
| `RingRequests.FirstOwnNap` | partner-auth-backend/app/adapters/ring_consumer_client.py:394-436 | The first of them is one second |
| `ResponseCache.KeyInjective` | partner-auth-backend/app/adapters/ring_consumer_client.py:242-242 | Different reads never share a cache key, even for device ids that contain a colon |
| `ResponseCache.FilterReply` | partner-auth-backend/app/adapters/ring_consumer_client.py:216-233 | For a list reply, to either read, the result are its objects, one for one and in order; for an envelope of devices those of the families doorbots, authorized_doorbots, stickup_cams, chimes, base_stations and other, in that order, absent ones skipped; for any other reply nothing |
| `ResponseCache.FilteredUnique` | partner-auth-backend/app/adapters/ring_consumer_client.py:216-253 | That determines the result: no two lists of objects are both the filtered reply |
| `ResponseCache.Reader.Lookup` | partner-auth-backend/app/adapters/ring_consumer_client.py:446-453 | An entry is returned exactly if it has not expired, and an expired one goes; what is returned is the filtered reply of a request for the very same query, answered less than 10 s (30 s for devices) ago |
| `ResponseCache.Reader.Answered` | partner-auth-backend/app/adapters/ring_consumer_client.py:235-254 | The filtered reply is stored for its query for 10 s (30 s for devices), and no other entry changes |
| `ResponseCache.Read` | partner-auth-backend/app/adapters/ring_consumer_client.py:201-255 | On every run, with any other reads while the request is out: a read whose entry has not expired returns it and sends nothing; any other one returns and stores the filtered reply to its own request; so the result is always the filtered reply of a request for the same query answered less than 10 s (30 s for devices) before |
| `PartnerRequests.HistoryBounds` | RingAppleTV/Sources/Services/Implementations/PartnerAPIClient.swift:309-368 | Any history of the loop has at most three 429 retries and at most one refresh, and its own backoff waits add up to 2^n - 1 seconds |
| `PartnerRequests.LoopFinishes` | RingAppleTV/Sources/Services/Implementations/PartnerAPIClient.swift:332-367 | When the loop ends: a 429 is only returned after three retries, a 401 only after the refresh was tried, and the waits without Retry-After are 7 s at most |
| `PartnerRequests.ExecuteWithRetry` | RingAppleTV/Sources/Services/Implementations/PartnerAPIClient.swift:304-369 | For every sequence of responses the loop ends within five sends (four on auth endpoints or without a working refresher); turn by turn, a 429 is waited out as told, or one second and then twice the wait before, if and only if fewer than three were before, and a 401 is followed by a refresh if and only if it may be and none was before; every send carries the first bearer or the newest token |
| `PartnerRequests.HistoryExplained` | RingAppleTV/Sources/Services/Implementations/PartnerAPIClient.swift:309-368 | Every history of the loop that its counters allow reads so, turn by turn |
| `PartnerRequests.NeverFaster` | RingAppleTV/Sources/Services/Implementations/DefaultAuthService.swift:86-108 | The wait between polls never decreases |
| `PartnerRequests.TotalWait` | RingAppleTV/Sources/Services/Implementations/DefaultAuthService.swift:86-108 | With p pending and s slow_down replies in any order the total wait is exactly 5(p + s) + 5s(s + 1)/2, plus 5 s for every pair of a slow_down and a later pending |
| `PartnerRequests.PollForAuthorization` | RingAppleTV/Sources/Services/Implementations/DefaultAuthService.swift:82-117 | The loop follows section 3.5 of RFC 8628: the first wait is 5 s, each slow_down adds 5 s to this and all later waits and a pending reply nothing, and it stops at the first other reply |
| `TokenKeychain.KeychainService.Save` | RingAppleTV/Sources/Services/Implementations/DefaultKeychainService.swift:47-59 | Delete, then add, either of which may fail: the slot then holds the new token, what it held before, or nothing |
| `TokenKeychain.AuthService.IsAuthenticated` | RingAppleTV/Sources/Services/Implementations/DefaultAuthService.swift:52-62 | True exactly if the cache or the readable slot has a token that has not expired; the stored one is cached exactly if it was needed |
| `TokenKeychain.AuthService.Usable` | RingAppleTV/Sources/Services/Implementations/DefaultAuthService.swift:119-129 | The cached token if it has more than 60 s left, else the readable stored one if it has, which is then cached, else none |
| `TokenKeychain.AuthService.StoreToken` | RingAppleTV/Sources/Services/Implementations/DefaultAuthService.swift:170-174 | Succeeds exactly if the keychain lets the token in, and then cache and slot hold it; otherwise the cache is unchanged |
| `TokenKeychain.AuthService.Replied` | RingAppleTV/Sources/Services/Implementations/BackendAuthService.swift:94-118 | A token is returned, and cached, exactly if it arrived and the keychain took it; a 401 clears the cache and, if the keychain lets it, the slot, and is unauthorized; any other error changes nothing |
| `TokenKeychain.AuthService.Logout` | RingAppleTV/Sources/Services/Implementations/DefaultAuthService.swift:140-143 | The cache is empty; the slot is empty if the delete went through |
| `TokenKeychain.RunCalls` | RingAppleTV/Sources/Services/Implementations/DefaultAuthService.swift:52-174 | On every run of calls, with keychain delete, add and read free to fail: a cached token t implies that the slot is empty or holds t, and neither ever holds a token that was not there at first and not delivered since |
| `TokenKeychain.GetValidToken` | RingAppleTV/Sources/Services/Implementations/DefaultAuthService.swift:119-167 | With any other calls let in while the exchange is awaited: the cached token, or the stored one, if it has more than 60 s left; else unauthorized without any token to refresh with; else exactly the outcome of the exchange, with cache and slot as it leaves them |
| `Redaction.OnlyOneName` | partner-auth-backend/app/logging_redaction.py:31-33 | At most one of the field names can match at a place, so the order of the alternatives in the pattern does not matter |
| `RedactedValues.ValuesAreClean` | partner-auth-backend/app/logging_redaction.py:49-49 | After the first rewrite every field= at a word boundary that has a value has exactly the mask for it |
| `RedactedValues.CleanIsKept` | partner-auth-backend/app/logging_redaction.py:49-49 | Clean text is left alone by the first rewrite, so it is idempotent |
| `RedactedPairs.PairsKeepClean` | partner-auth-backend/app/logging_redaction.py:50-50 | The second rewrite never breaks what the first ensured |
| `RedactedPairs.PairsAreKept` | partner-auth-backend/app/logging_redaction.py:50-50 | The second rewrite is idempotent although matches are found from the left in rewritten text |
| `RedactedPairs.PairHiddenIff` | partner-auth-backend/app/logging_redaction.py:36-38 | The value of a quoted pair leaves no trace in the output of the second rewrite if and only if the text before it does not end inside an unfinished pair |
| `RedactedPairs.PairShows` | partner-auth-backend/app/logging_redaction.py:36-38 | In the other case the value stands verbatim in the output |
| `RedactedPairs.SwallowedQuote` | partner-auth-backend/app/logging_redaction.py:36-38 | Such texts exist: any field with a colon but no value in front of a pair makes the value of the pair show |
| `RedactedText.PairHidden` | partner-auth-backend/app/logging_redaction.py:48-51 | Both rewrites together: the outcome is the same for every one-word value of a quoted pair if and only if the opening quote of the pair is not taken into a value by the first rewrite and the text before it, rewritten, does not end inside an unfinished pair; or the quote is taken and the value with it, as the separator has no white space |
| `RedactedText.TextIsHidden` | partner-auth-backend/app/logging_redaction.py:48-51 | When the opening quote is not taken and no pair is left unfinished, values of several words are hidden as well |
| `RedactedText.ValueShows` | partner-auth-backend/app/logging_redaction.py:48-51 | In the other case the value stands verbatim in the outcome |
| `RedactedText.QuotedPairShows` | partner-auth-backend/app/logging_redaction.py:48-51 | Such texts exist: behind a field, = and a quote the value of any pair shows, as in cookie="refresh_token": "s3cret" |
| `RedactedText.CutsAtQuote` | partner-auth-backend/app/logging_redaction.py:31-33 | The first rewrite treats the text before and from a quote apart exactly where no value goes on at that place |
| `RedactedFields.AssignmentOutcome` | partner-auth-backend/app/logging_redaction.py:18-33 | For every one-word name and one-word value: name=value becomes name=[REDACTED] if and only if the name, in any case, is one of the six, and is left as it is otherwise |
| `RedactedFields.PairOutcome` | partner-auth-backend/app/logging_redaction.py:18-38 | For every one-word name: a quoted pair becomes "name": "[REDACTED]" if and only if the name is one of the six, and is left as it is otherwise |
| `RedactedFields.PlainIsKept` | partner-auth-backend/app/logging_redaction.py:48-51 | Text without = and quotes is never changed |
| `RedactedValues.OnlyTheFirstWordIsHidden` | partner-auth-backend/app/logging_redaction.py:31-33 | The text after field= at a word boundary is treated like the mask if and only if it holds no white space: of several words, as in authorization=Bearer and a token, the first rewrite hides the first alone |
| `LogFilter.Redacted` | partner-auth-backend/app/logging_redaction.py:48-51 | Both rewrites together are complete and stable: the outcome is clean and redacting it again changes nothing |
| `LogFilter.EveryValueIsMasked` | partner-auth-backend/app/logging_redaction.py:48-51 | Wherever the outcome has field= at a word boundary before a non-space, the mask follows and then white space or the end |
| `LogFilter.ValueIsHidden` | partner-auth-backend/app/logging_redaction.py:48-51 | However the text around it looks, the outcome is the same whatever value without white space stands after field= at a word boundary |
| `LogFilter.SecretsDoNotShow` | partner-auth-backend/app/logging_redaction.py:69-109 | The logged message is the same for dictionary arguments that differ only under sensitive keys, whatever the formatted message would have shown |
| `LogFilter.LeftAsItWas` | partner-auth-backend/app/logging_redaction.py:69-109 | A record is left as it is, and so unredacted, exactly if nothing could be formatted or its dictionary has a key on which lower() raises, a key that cannot be rendered, or a value that cannot be rendered under a key that is not sensitive |
| `LogFilter.LogRecord.Filter` | partner-auth-backend/app/logging_redaction.py:69-90 | The record is always kept; it gets the redacted message and loses its arguments, or is left as it is; without a dictionary the message is the formatted one, or the template if formatting fails; with one it is the template, and a space and the items if there are any |
| `LogFilter.RenderedOneMore` | partner-auth-backend/app/logging_redaction.py:101-109 | The items of a dictionary are shown in order as key=value with one space between them, with [REDACTED] for the value of a sensitive key and every other value as it is |

## Left out

- RateLimit.RateLimitGovernor.Acquire: sleep is taken not to wake early.
- TokenLifecycle.RefreshSpacing: the readings of `time.time()` are taken not to go back, which the operating system does not promise.
- TokenLifecycle.NextAgrees: `save` is only taken to happen while the token lock is free, as at start-up in `factory.py:110-141`; a save during a refresh would not be protected by the lock. A token that the operator got from the server is taken to be one never seen before.
- TokenKeychain.RunCalls: one stretch of code between two awaits is taken to run alone; the Swift services are `@unchecked Sendable` classes that no actor guards, so two of their methods may interleave inside a stretch (save A, save B, cache B, cache A), and then the cache need not agree with the keychain.
- LogFilter.Redacted: letters, case and white space are ASCII; the pattern also folds two non-ASCII letters and knows more white space.
- SdpMunger.Sorted: strings are compared by character code; Swift compares by Unicode canonical form, which differs for types that are not ASCII.
- PartnerRequests.ExecuteWithRetry: delays are exact numbers; a Retry-After that is negative or not a number would trap in the conversion to nanoseconds.
- RingRequests.Request: jitter is any number in [0, 0.25], floats are exact numbers, and Retry-After is any number, also a negative one.
- ResponseCache.FilterReply: a device family is a list when present; a family that is another truthy value would raise.
- HTTP, SQLite, Fernet, the keychain and WebRTC themselves: their outcomes are parameters, and encryption and JSON coding are round trips.
- Ids drawn with `uuid4` and `randomUUID`, and task and request ids: taken to be new, as guards of the steps that draw them.
- Requests to the sidecar by other clients than the adapter: none are sent in `LiveStream`; `Sidecar` alone allows any.
- A start reply that is lost, times out or cannot be read, and a cancellation at an await: one step, `Abandoned`, in the protocol; the adapter class has no method for it.  That the adapter object keeps to the protocol is proved step by step; the scheduler that chooses the next step is not modelled as an object.
- StreamAdapter.UnofficialRingAdapter.WhepFailed: which error a failed WHEP exchange or a failed stop raises in the end is not modelled; the errors of the other stretches are.
- Connection state, timers and resources of `StreamSessionManager`: an ICE disconnect does not release resources there and clean-ups may overlap a later start, so only its transition guard would be provable.
- `TokenService.refresh_token` of the partner flow: it takes no lock, so the agreement theorems do not carry over to concurrent callers.
- Loading the client secret: its failure counts as an exchange with another error, `OtherError`.
- Snapshots, clip URLs, device mapping, Pydantic models, configuration, input sanitising, HMAC and API keys, and all views: single-branch code or facts about libraries.
