# A verified model of the SOCKS5 proxy

The proxy is five state machines driven by completion events: a completion port service with
timers, an asynchronous DNS resolver, a SOCKS5 session (dialogue and relay), a UDP relay, and
the DNS wire format with its cache. This project states each of them in Dafny and proves what
it promises over every input, every interleaving and every run.

A state machine is a value (`State`), an `Event` for every atomic step, a predicate that says
when an event may happen, and a `Step` function; its theorems speak about every state of every
run. A step is one region under a lock, one atomic access, or one completion handled under the
completion mutex. The kernel, Winsock, SSPI, the clock and random numbers are choices of the
events. Code that updates fields or buffers in place is also given as classes and loops
(`DialogueCode`, `RelayCode`, `ResolverCode`, `IocpCode`, `SessionTimers.Timers`, and the classes
of `DnsCache`, `SendPump`, `UdpFragments`, `UdpQueues` and `DnsOverTcp`), each method proved to do
what the functions of its state machine say.

| area | modules |
|---|---|
| shared | Bytes, Tally, Cycle |
| completion port service | IocpBooks, Iocp, IocpProofs, IocpShutdown, IocpTheorems, IocpHang, IocpAttention, IocpClock, IocpCode |
| DNS resolver | DnsTable, DnsTableProofs, DnsResolver, DnsResolverProofs, DnsResolverTheorems, DnsAnswers, DnsBudget, DnsMoves, ResolverCode, DnsOverTcp |
| DNS wire format and cache | DnsNames, DnsMessages, DnsCache |
| SOCKS5 session | SocksParser, SocksDialogue, SocksAnswers, GssFrames, Credentials, SendStream, Session, SessionProofs, SessionStory, SessionFlow, SessionTheorems, SessionProgress, SessionProtected, SessionWaits, SessionTimers, SessionClock, DialogueCode, RelayCode |
| UDP relay | UdpHeader, UdpFragments, UdpQueues, SendPump |

Properties that the code does not have as one would first state them, with the exact condition:

- Stop of the resolver calls every callback, except when it returns early because the resolver is
  not started; then all callbacks have been called if and only if no query is pending
  (`EarlyStopExact`), and a failed Start can leave one pending (`FailedStartLeavesQuery`).
- A pending query's own timer is on its way if and only if that timer was not discarded
  (`NotStranded`); the service discards a claimed timer whose post fails, and then a query can be left
  pending with no timer under its id (`DiscardStrands`).
- The 1 MiB buffer limit: where GSS-API is on, an arrival can close some dialogue by it if and only if
  it brings more than 983,038 bytes (`LimitExactly`, `LimitCloses`); the configuration admits larger
  receive buffers. Without GSS-API a dialogue that reads holds at most 512 bytes (`BufferStaysShort`).
- The comparison of credentials cuts the lengths to 32 bits: it is equality for strings of two given
  lengths if and only if these are equal or differ modulo 2^32 (`RightExactly`), so always below
  4 GiB (`PaddedIsEqual`); 4 GiB of zeros pass for the empty string (`NotEqualityBeyond`).
- The second batch of wake-ups: in every schedule Stop comes to its end if and only if it never gets
  into a state with all remaining workers waiting forever, no packet in the port and no canceller
  under way (`StopFinishesExactly`), which are exactly the states in which nothing can move
  (`StuckExactly`). It takes a refused wake-up to get there (`StuckWasRefused`), and one is enough
  (`RefusedWakeUpHangs`).
- The UDP send pump: with a port that takes whatever can be taken, it drains if and only if no queued
  datagram is empty (`DrainsExactly`). A post refuses an empty one, and nothing queued behind it is
  ever sent, whatever the port does (`NothingPasses`).
- Dead code: the 255-octet guard of BuildQuery (`NameFits`), the re-checks of the id index and the
  exception branch of the TCP fallback (`DeadBranches`), the lease failures of workers
  (`PortOutlivesWorkers`), the underflow, missing-entry and missing-pin branches (`Accounting`), the
  state tests behind the generation test of OnTimer (`TimerActsExactly`).

## Model

| member | source | states |
|---|---|---|
| IocpBooks.DoInv | network/Iocp.cpp:310-358 | every add, post, claim, cancel, clear, take and release, in any order among threads, keeps all counters equal to the operations they stand for, keeps contexts pinned by one operation each, and sets no fault |
| IocpBooks.Positive | network/Iocp.cpp:324-358 | a counter that stands for a live operation is positive when that operation lowers it |
| IocpProofs.StepGood | network/Iocp.cpp:209-308 | every step of every thread keeps the books, the count of port users, the lifecycle lock discipline, and the wake-ups still needed |
| IocpProofs.EveryRun | network/Iocp.cpp:209-966 | these hold in every state of every interleaving |
| IocpProofs.NeverRises | network/Iocp.cpp:209-236 | once Stop has cleared the running flag no step raises the outstanding count |
| IocpTheorems.Accounting | network/Iocp.cpp:310-358 | the outstanding count is the number of live operations and the sum of the handles' pending counts up to adds and releases in progress; a socket's count is its undispatched operations; no underflow, missing entry or missing pin is ever met |
| IocpTheorems.FaultBranchesDead | network/Iocp.cpp:114-129 | in every reachable state an operation that is about to take its pin, leave its socket or lower a counter finds the pin there and the counter above zero, and a port with users has a positive count |
| IocpTheorems.TimerFates | network/Iocp.cpp:685-760 | a timer found pending by CancelTimeout is never delivered; an operation's handler runs at most once and its unit is released at most once; a fate never changes; an armed timer never ends as failed |
| IocpTheorems.StopSeesNoPublishing | network/Iocp.cpp:374-393 | Stop never observes a timer that is still being published |
| IocpTheorems.AllReleased | network/Iocp.cpp:209-258 | when Stop is done every operation ever begun has met its fate and was released exactly once |
| IocpTheorems.WorkersStay | network/Iocp.cpp:857-907 | no worker leaves while the service runs or anything is outstanding |
| IocpTheorems.PortOutlivesWorkers | network/Iocp.cpp:265-272 | a worker that has not left never finds the port gone |
| IocpShutdown.EveryStepLess | network/Iocp.cpp:209-258 | once Stop has begun, every step of every thread lowers one lexicographic measure |
| IocpShutdown.NeverStuck | network/Iocp.cpp:857-966 | until Stop is done, some thread of the service itself can take a step, in every state but the stuck ones |
| IocpShutdown.StuckExactly | network/Iocp.cpp:209-258 | once Stop has begun and until it is done, nothing can move if and only if Stop is joining, no packet and no canceller is left, and every worker has left or waits forever, at least one of them waiting |
| IocpShutdown.StuckWasRefused | network/Iocp.cpp:413-420 | such a state is only reached after the port refused a wake-up of the second batch |
| IocpShutdown.StopFinishes | network/Iocp.cpp:209-258 | in every schedule that meets no such state, Stop reaches its end and closes the port |
| IocpShutdown.StopFinishesExactly | network/Iocp.cpp:209-258 | in every schedule, Stop reaches its end if and only if it meets no such state |
| IocpHang.RefusedWakeUpHangs | network/Iocp.cpp:230-243 | a run of two workers with one refused wake-up, after which no thread can move and Stop is not done |
| IocpShutdown.ClosedUnused | network/Iocp.cpp:244-258 | the port is closed only when no lease and no post uses it, all workers have left and nothing is outstanding |
| IocpAttention.NoTimerOverlooked | network/Iocp.cpp:714-813 | in every reachable state of a running service, for every timer of the table whose wake-up was posted: a wake-up is in the port, or a worker sweeps before it waits again, or a worker's wait was computed from a table that held this timer |
| IocpAttention.NotAllAsleep | network/Iocp.cpp:857-907 | so while such a timer is in the table the workers never all wait forever without a wake-up in the port |
| IocpAttention.RunWatchful | network/Iocp.cpp:685-907 | the invariant behind it, kept by every step of posters, cancellers, workers and Stop |
| IocpClock.NeverEarly | network/Iocp.cpp:685-699 | in every run under a clock, no timer is claimed and no timer handler runs before the delay it was scheduled with has passed |
| IocpClock.SweepExact | network/Iocp.cpp:762-795 | a sweep claims every armed timer that was due when it read the clock, and no other |
| IocpClock.OverdueIsAttended | network/Iocp.cpp:714-813 | while the service runs, a timer that is due and was told to the port has a wake-up in the port, a worker about to sweep, or a worker whose wait, counted from its sweep, is over |
| IocpClock.EveryClocked | network/Iocp.cpp:762-813 | the invariant behind these: fired timers were due, and every timed wait ends by the due time of each timer it was computed with |
| IocpCode.Service.RegisterSocket | network/Iocp.cpp:310-322 | the map of socket counters follows the books |
| IocpCode.Service.UnregisterPendingSocket | network/Iocp.cpp:324-334 | the entry is lowered, erased at zero, or reported missing exactly as in the books |
| IocpCode.Service.AddUnit | network/Iocp.cpp:310-322 | the handle's pending count and the outstanding count rise together |
| IocpCode.Service.ReleasePending | network/Iocp.cpp:114-129 | the pending count is lowered, or an underflow reported exactly where the books have one |
| IocpCode.Service.ReleaseOutstanding | network/Iocp.cpp:342-358 | the outstanding count is lowered, or an underflow reported exactly where the books have one |
| IocpCode.Service.AllocTimerId | network/Iocp.cpp:701-708 | the loop ends with an id that is neither 0 nor in the table, although the counter wraps |
| IocpCode.Service.InsertTimer | network/Iocp.cpp:698-708 | a counted timer enters the table under a free id, as the books insert it |
| IocpCode.Service.PublishTimer | network/Iocp.cpp:714-728 | it is armed, or leaves the table as failed, as the books publish it |
| IocpCode.Service.CancelTimeout | network/Iocp.cpp:733-751 | exactly a pending timer is taken out, as the books cancel it |
| IocpCode.Service.ClaimTimers | network/Iocp.cpp:762-813 | the timers that are pending and have `due <= now`, and no others, are claimed and leave the table, as the books claim their operations; the wait is the shortest of the others, and forever if and only if there are none |
| IocpCode.Service.HandOver | network/Iocp.cpp:815-852 | every claimed timer is posted, or discarded with its unit released and no underflow |
| IocpCode.Service.AdvanceTimers | network/Iocp.cpp:762-855 | the whole sweep: what is pending and due leaves the table and is posted, or discarded when the service does not run, the port is gone or the post fails; what is not due or still being published stays; the books stay sound |
| IocpCode.NearestWait | network/Iocp.cpp:787-812 | the wait is that of the nearest timer, in whole milliseconds, below the value for forever |
| IocpCode.NeverOversleeps | network/Iocp.cpp:787-812 | such a wait ends no later than any timer of the table is due |
| IocpCode.NeverHurries | network/Iocp.cpp:787-812 | nor does it end a whole millisecond before the nearest timer is due, up to the longest wait there is |
| IocpCode.Service.ClearTimers | network/Iocp.cpp:374-393 | the table is emptied and every armed operation of the books ends cleared and released once, without underflow; no other operation moves |
| DnsTable.Bijection | dns/DnsResolver.cpp:396-416 | the two indexes hold the same queries, one to one |
| DnsTableProofs.BeginOthers | dns/DnsResolver.cpp:435-452 | an attempt leaves every other query alone; its own is pending and watched exactly when the name can be printed and a timer was had |
| DnsResolverProofs.StepInv | dns/DnsResolver.cpp:316-743 | every region, callback and event keeps indexes, timers, tasks and callbacks consistent |
| DnsResolverProofs.EveryRun | dns/DnsResolver.cpp:316-743 | and so they are in every state of every run |
| DnsResolverTheorems.AtMostOnce | dns/DnsResolver.cpp:369-417 | no callback is ever called twice, and what it was told stays |
| DnsResolverTheorems.ExactlyOnceAfterStop | dns/DnsResolver.cpp:316-367 | when Stop returns every callback ever given has been called once |
| DnsResolverTheorems.EarlyStopExact | dns/DnsResolver.cpp:316-320 | in an idle resolver all callbacks have been called if and only if no query is pending |
| DnsResolverTheorems.FailedStartLeavesQuery | dns/DnsResolver.cpp:261-314 | a run in which Start fails and leaves a query, with a callback that the early return of Stop does not call |
| DnsResolverTheorems.IndexesAgree | dns/DnsResolver.cpp:369-417 | in every reachable state the indexes correspond one to one, keyed by current nonzero id and by domain, with at most 4096 queries of at most 256 callbacks |
| DnsResolverTheorems.NotStranded | dns/DnsResolver.cpp:514-528 | a pending query that no handler is about to deal with has its timer scheduled or queued under its current id, exactly unless that timer was discarded |
| DnsResolverTheorems.DiscardStrands | dns/DnsResolver.cpp:514-521 | a run that ends with a pending query, its callback uncalled, its timer discarded, and no timer under its id |
| DnsResolverTheorems.DeadBranches | dns/DnsResolver.cpp:571-619 | pending domains can always be printed, and the query of a task is always still indexed |
| DnsResolverTheorems.Budget | dns/DnsResolver.cpp:435-460 | at most three UDP attempts and one TCP attempt per record type, eight in all, counting what is left |
| DnsResolverTheorems.TaskCosts | dns/DnsResolver.cpp:571-619 | a task ends its query or strictly lowers what the query has left |
| DnsResolverTheorems.BudgetStays | dns/DnsResolver.cpp:369-743 | no other step changes what a pending query has left |
| DnsBudget.FinishesWithinBudget | dns/DnsResolver.cpp:557-622 | in every run a query takes at most eight results and timeouts that are not ignored, and while it is pending at most eight less what it has left |
| DnsBudget.EndsHeard | dns/DnsResolver.cpp:709-743 | a query leaves the indexes only with a recorded ending |
| DnsAnswers.SameAnswer | dns/DnsResolver.cpp:392-400 | all callbacks that joined one query are told the same |
| DnsAnswers.Truthful | dns/DnsResolver.cpp:557-622 | no callback is told an address unless a result that was accepted for its query, under the id it then had, carried it |
| DnsAnswers.RunTold | dns/DnsResolver.cpp:709-743 | in every state of every run callbacks were told, or are about to be told, how their query ended, and ended queries are not indexed |
| DnsAnswers.AcceptedIsFinal | dns/DnsResolver.cpp:591-622 | in every run, a result with an address that is accepted for a query ends that query with that address, for good |
| DnsAnswers.EndsWithAddressExactly | dns/DnsResolver.cpp:557-622 | a query that has ended did so with an address if and only if a result accepted for it carried that address |
| DnsAnswers.GivesUpOnlyThen | dns/DnsResolver.cpp:557-707 | in every run, a query ends without an address only by Stop's sweep, by an attempt that could not be begun, after TCP could not be started, timed out or brought no whole answer, or on the server's word when no record type is left |
| DnsMoves.Asking | dns/DnsResolver.cpp:369-417 | a caller of a started resolver is told "no address" at once if and only if the pending query of its domain holds 256 callbacks, or there is none and 4096 are pending or the attempt could not be printed or timed; otherwise it joins the pending query, or the new one, in its first UDP attempt for an IPv4 address |
| DnsMoves.JoinedIsTold | dns/DnsResolver.cpp:392-417 | in every run such a callback stays with that query, waits while it is pending, and is told, or about to be told, how exactly that query ended |
| DnsMoves.TimeoutLeads | dns/DnsResolver.cpp:557-590 | in every run the first and second UDP timeout of a record type begin another UDP attempt under a new id, the third goes over to TCP, and a timeout there ends the query without an address |
| DnsMoves.ResultLeads | dns/DnsResolver.cpp:557-622 | in every run an address ends the query with it, a truncated UDP answer goes over to TCP, a missing record begins with IPv6 if that is left, and anything else ends the query |
| DnsMoves.AnswerArrives | dns/DnsResolver.cpp:591-743 | from every state without a handler at work, an answer with an address for a pending query can be handled to its end, and each of its callbacks is told that address |
| DnsMoves.LookupHappens | dns/DnsResolver.cpp:261-743 | for every domain that can be printed there is a run from the start in which its caller is told the address that the server sent |
| DnsMoves.StrayIgnored | dns/DnsResolver.cpp:557-569 | a result under an unknown id, or over UDP once TCP was begun, changes nothing |
| DnsMoves.LossGoesToTcp | dns/DnsResolver.cpp:624-676 | when the UDP receive cannot be posted again, exactly the queries that still rely on UDP go over to TCP, each once |
| ResolverCode.Resolver.AllocTxidLocked | dns/DnsResolver.cpp:419-433 | with at most 4096 queries pending, the random tries and then the endless sequence end with a free nonzero id |
| ResolverCode.Resolver.CancelTimerLocked | dns/DnsResolver.cpp:523-528 | the timer is forgotten, and leaves the port's table if it was not claimed |
| ResolverCode.Resolver.ArmTimerLocked | dns/DnsResolver.cpp:514-521 | the old timer is cancelled and the new one carries the current id |
| ResolverCode.Resolver.EnqueueUdpSendLocked | dns/DnsResolver.cpp:462-473 | a printed query joins the sends exactly if there is a socket and room |
| ResolverCode.Resolver.BeginUdpQueryLocked | dns/DnsResolver.cpp:435-452 | the query is printed, timed and queued for sending, or erased from both indexes with its callbacks handed back to be told, exactly as in the state machine: same table, same callbacks told |
| ResolverCode.Resolver.RetryUdpQueryLocked | dns/DnsResolver.cpp:454-460 | the query moves to a free id and begins another attempt, as in the state machine |
| ResolverCode.Resolver.FinishLocked | dns/DnsResolver.cpp:709-719 | the query leaves both indexes and hands over all its callbacks |
| ResolverCode.Resolver.CollectLocked | dns/DnsResolver.cpp:323-345 | Stop's sweep hands over exactly the callbacks of all pending queries, empties both indexes, and leaves no timer of theirs that was not claimed |
| DnsOverTcp.FramedExactly | dns/DnsResolver.cpp:168-210 | of a framed message cut anywhere, the body comes out with its last octet and not before, and receives ask for exactly what is missing |
| DnsOverTcp.UnframedExtends | dns/DnsResolver.cpp:179-198 | a complete or broken message stays so whatever follows |
| DnsOverTcp.TcpDnsQuery.OnConnected | dns/DnsResolver.cpp:123-132 | the query is sent behind its two octets of length |
| DnsOverTcp.TcpDnsQuery.OnSent | dns/DnsResolver.cpp:134-150 | after a partial send exactly the rest is sent |
| DnsOverTcp.TcpDnsQuery.OnReceived | dns/DnsResolver.cpp:152-198 | each receive leaves the progress of all octets so far: more wanted, broken, or the body |
| DnsNames.SkipName | dns/DnsClient.cpp:179-195 | the cursor loop finds the end of a name without reading past the length |
| DnsNames.SkipExact | dns/DnsClient.cpp:179-195 | a name ends at a position if and only if a printed name, with or without a compression pointer, stands there |
| DnsNames.SplitJoin | dns/DnsClient.cpp:78-86 | joining the labels gives the domain back, one trailing dot aside |
| DnsMessages.NameFits | dns/DnsClient.cpp:87-90 | the 255-octet guard cannot be reached |
| DnsMessages.BuildQuery | dns/DnsClient.cpp:64-103 | a query is printed exactly for domains of at most 253 octets with labels of 1 to 63, and is the printed query |
| DnsMessages.QueryRoundTrip | dns/DnsClient.cpp:64-103 | read back, the name ends where it was put, its labels are the domain, id, type and class are those asked for, recursion is desired, and the EDNS record is the whole rest |
| DnsMessages.ParseResponse | dns/DnsClient.cpp:105-177 | the parser's result depends on the octets below the length only, and is that of the reference scan |
| DnsMessages.ParsePrinted | dns/DnsClient.cpp:105-177 | for every printed response the result is its first matching IN record with the least TTL up to it, 30 if that saturates |
| DnsMessages.LeastTtlIsMinimum | dns/DnsClient.cpp:143-156 | that TTL is a minimum |
| DnsMessages.AddressExact | dns/DnsClient.cpp:105-177 | an address comes out of arbitrary octets if and only if they are a reply whose records up to it print to them |
| DnsMessages.DenialExact | dns/DnsClient.cpp:105-177 | "no such record" is believed if and only if the octets are an uncut reply with the code for an unknown name, or a whole reply none of whose records is an answer |
| DnsCache.DnsClient.TryGetCached | dns/DnsClient.cpp:48-62 | a hit is the remembered result of the folded name, unexpired |
| DnsCache.DnsClient.Cache | dns/DnsClient.cpp:203-230 | the table agrees with the history of results and never exceeds 10,000 entries |
| DnsCache.RememberedUntil | dns/DnsClient.cpp:48-62 | a stored result is given out until exactly its deadline, whatever is stored or evicted under other names; negatives live 5 seconds |
| DnsCache.RememberedFrom | dns/DnsClient.cpp:203-230 | a hit comes from the latest event about the name, which is a store that has not expired |
| DnsCache.FoldExactly | dns/DnsClient.cpp:39-42 | two names share an entry if and only if they differ at most in the case of letters |
| DnsCache.FoundExactly | dns/DnsClient.cpp:203-230 | a stored result is found under any casing of its name for exactly 5 seconds if it has no address, 30 if its TTL is zero, and its TTL otherwise |
| DnsCache.NotFoundElsewhere | dns/DnsClient.cpp:203-230 | a store changes nothing for a name that differs in more than case |
| SocksParser.AdvanceDecreases | server/protocol/Socks5Session.cpp:386-418 | every message lowers the dialogue's rank or shortens the buffer, the one-time unwrap included |
| SocksParser.SegmentationIrrelevant | server/protocol/Socks5Session.cpp:379-425 | bytes in two arrivals give the same state, replies and leftover as in one |
| SocksParser.AnyCutting | server/protocol/Socks5Session.cpp:379-425 | and so does any cutting into arrivals |
| SocksParser.WaitingIsBounded | server/protocol/Socks5Session.cpp:639-657 | a dialogue that waits for more holds at most 65,538 bytes, 512 without GSS-API |
| SocksParser.NeverOverflows | server/protocol/Socks5Session.cpp:379-384 | the buffering limit cannot be hit by arrivals of at most 983,038 bytes |
| SocksParser.OverflowsBeyond | server/protocol/Socks5Session.cpp:379-384 | the stream of a GSS-API greeting and a token frame without its last byte leaves 65,538 bytes waiting, and any larger arrival then hits the limit |
| SocksDialogue.DialogueExact | server/protocol/Socks5Session.cpp:731-1012 | a request is accepted without protection, leaving exactly the rest, if and only if the stream is a greeting that offers the method the configuration asks for and not an enabled GSS-API, the right login where one is configured, the request, and the rest |
| SocksDialogue.AuthenticationRequired | server/protocol/Socks5Session.cpp:731-913 | with credentials configured nothing gets to the request without the right login or a completed GSS-API exchange |
| SocksAnswers.MethodAnswered | server/protocol/Socks5Session.cpp:744-771 | the answer to a greeting is 5 1 if and only if GSS-API is on and offered, else 5 2 if and only if a login is configured and offered, else 5 0 if and only if none is configured and no authentication is offered, else 5 255, which ends the dialogue |
| SocksAnswers.GreetingRefused | server/protocol/Socks5Session.cpp:732-741 | another version or an empty offer ends the dialogue without an answer |
| SocksAnswers.LoginAnswered | server/protocol/Socks5Session.cpp:790-817 | a login is answered 1 0 if and only if both strings are the configured ones; otherwise 1 1, and the dialogue ends |
| SocksAnswers.LoginRefused | server/protocol/Socks5Session.cpp:790-792 | another version of the login ends the dialogue without a verdict |
| SocksAnswers.RequestAnswered | server/protocol/Socks5Session.cpp:915-1012 | for everything that can follow greeting and login: code 1 if and only if version or reserved octet is wrong, 8 if and only if the address type is not served or the name is empty, 7 if and only if it is a whole request with another command; what is neither refused nor accepted waits, untouched |
| SocksAnswers.LevelAgreed | server/protocol/Socks5Session.cpp:873-890 | the protection level agreed is the highest that the client asked for, the configuration admits and the package can do |
| SocksAnswers.GssDialogueComplete | server/protocol/Socks5Session.cpp:820-958 | a printed GSS-API dialogue is accepted, and answered token by token and with the agreed level, wrapped |
| SocksAnswers.GssDialogueExact | server/protocol/Socks5Session.cpp:820-958 | a request is accepted under protection, leaving exactly the rest, if and only if the stream is a greeting with GSS-API, tokens that complete the exchange, a protection level, and one encapsulated message that opens to the request |
| SocksAnswers.FailureIsTold | server/protocol/Socks5Session.cpp:768-870 | a GSS-API negotiation that fails, for lack of a credential too, is answered by an abort message |
| DialogueCode.NoProgressIsEnd | server/protocol/Socks5Session.cpp:415-417 | the loop's test for progress never stops it while a message could be taken |
| DialogueCode.Dialogue.ProcessHandshakeBuffer | server/protocol/Socks5Session.cpp:731-788 | one greeting is taken off the buffer and answered as the parser does |
| DialogueCode.Dialogue.ProcessAuthBuffer | server/protocol/Socks5Session.cpp:790-817 | one login is taken off the buffer and judged by equality, by way of the constant-time comparison |
| DialogueCode.Dialogue.TryReadGssFrame | server/protocol/Socks5Session.cpp:639-657 | a whole frame is taken, a partial one left, a bad one refused |
| DialogueCode.Dialogue.ProcessGssapiAuthBuffer | server/protocol/Socks5Session.cpp:819-856 | one token goes to the security context and is answered or aborted |
| DialogueCode.Dialogue.ProcessGssapiProtectBuffer | server/protocol/Socks5Session.cpp:858-913 | the protection level is capped, answered and switched on |
| DialogueCode.Dialogue.EnsureCleartextRequestIngest | server/protocol/Socks5Session.cpp:683-699 | the cleartext of one frame is put in front of what follows it, once |
| DialogueCode.Dialogue.ReadRequestBuffer | server/protocol/Socks5Session.cpp:921-970 | one request is taken off the buffer, accepted or refused with its code |
| DialogueCode.Dialogue.ProcessRequestBuffer | server/protocol/Socks5Session.cpp:915-1016 | a protected request is opened and read in the same call |
| DialogueCode.Dialogue.ProcessAll | server/protocol/Socks5Session.cpp:388-418 | the loop over the buffer ends, and leaves what the parser makes of all bytes so far |
| DialogueCode.Dialogue.OnClientRecv | server/protocol/Socks5Session.cpp:349-425 | during the dialogue: end of stream or a hit of the buffering limit closes and takes nothing; otherwise a failure is flushed, an unfinished dialogue reads on, and a request is launched |
| Credentials.ConstantTimeEqual | server/protocol/Socks5Session.cpp:41-50 | true exactly when the zero-padded strings and their lengths modulo 2^32 agree |
| Credentials.RightExactly | server/protocol/Socks5Session.cpp:41-50 | for all lengths m and n, the comparison is equality on all strings of these lengths if and only if m and n are equal or differ modulo 2^32 |
| Credentials.PaddedIsEqual | server/protocol/Socks5Session.cpp:41-50 | below 4 GiB that is equality |
| Credentials.NotEqualityBeyond | server/protocol/Socks5Session.cpp:41-50 | 4 GiB of zeros pass for the empty string |
| GssFrames.FrameExact | server/protocol/Socks5Session.cpp:639-657 | a frame is read if and only if its printed form stands at the front |
| GssFrames.FramesRoundTrip | server/protocol/Socks5Session.cpp:622-657 | any frames, cut into any pieces, are read back as the same tokens |
| GssFrames.WrapAndQueue | server/protocol/Socks5Session.cpp:568-581 | data is wrapped part by part into frames, and fails exactly if some part does, with the frames before it queued |
| GssFrames.ProtectedRoundTrip | server/protocol/Socks5Session.cpp:543-583 | split, wrapped, framed, cut, read and unwrapped, the data is restored |
| GssFrames.ProcessGssRelayInput | server/protocol/Socks5Session.cpp:659-681 | the loop takes all whole frames and queues their cleartext |
| GssFrames.RelayedIsCleartext | server/protocol/Socks5Session.cpp:659-681 | what is queued is exactly the cleartext of the frames, in order |
| GssFrames.RelayExtends | server/protocol/Socks5Session.cpp:659-681 | and does not depend on how the bytes were cut |
| SendStream.SendDoneFaithful | server/protocol/Socks5Session.cpp:434-445 | a partial or whole send keeps sent plus pending equal to what was queued |
| SendStream.SendDoneExact | server/protocol/Socks5Session.cpp:434-445 | exactly the octets that a completion reports go from pending to sent |
| SendStream.SentIsPrefix | server/protocol/Socks5Session.cpp:709-725 | what was sent is a prefix of what was queued |
| SessionProofs.StepStreams | server/protocol/Socks5Session.cpp:268-318 | every handler keeps both streams faithful, and an open session never leaves a chunk without a send in flight |
| SessionStory.StepStory | server/protocol/Socks5Session.cpp:268-318 | every handler keeps both streams equal to what the received bytes and the replies say they are |
| SessionFlow.StepInv | server/protocol/Socks5Session.cpp:268-318 | every handler keeps the streams, their story, and something to wait for |
| SessionFlow.EveryRun | server/protocol/Socks5Session.cpp:268-318 | these hold in every state of every run |
| SessionTheorems.DestinationGetsPrefix | server/protocol/Socks5Session.cpp:474-591 | unprotected, the destination is sent a prefix of the client's stream without its dialogue, pipelined bytes included |
| SessionTheorems.DestinationGetsPayload | server/protocol/Socks5Session.cpp:1187-1213 | the same told with the printed dialogue: a prefix of the payload behind greeting, login and request, wherever there is no protection |
| SessionTheorems.DestinationGetsCleartext | server/protocol/Socks5Session.cpp:659-681 | protected, the destination is sent a prefix of the frames' cleartext |
| SessionTheorems.ClientHearsConversation | server/protocol/Socks5Session.cpp:1140-1247 | unprotected, the client is sent a prefix of method, login verdict, at most one reply, and relayed bytes after a success only |
| SessionTheorems.ProtectedTalk | server/protocol/Socks5Session.cpp:593-632 | protected, everything queued for the client since is whole type-3 frames |
| SessionTheorems.NoServiceWithoutLogin | server/protocol/Socks5Session.cpp:731-913 | with credentials configured no run resolves, connects or relays without the right login or a completed GSS-API exchange |
| SessionTheorems.RelayNeverStalls | server/protocol/Socks5Session.cpp:496-541 | each direction of an open relay has ended, is being read, or is paused behind a full queue with a send in flight; unprotected queues stay within 32 chunks |
| SessionProgress.ConnectStarts | server/protocol/Socks5Session.cpp:1140-1213 | in every open connecting session, a connect that succeeds with all posts succeeding leaves a relay that is open and read from both sides, the reply 5 0 0 with the bound address queued, and what the client sent ahead queued for the destination |
| SessionProgress.FailuresAreTold | server/protocol/Socks5Session.cpp:1140-1159 | a failed connect, a timed-out one and a failed lookup are told to the client with their code (6 for the timeout), and the session closes after that flush |
| SessionProgress.ArrivalLeads | server/protocol/Socks5Session.cpp:349-425 | octets of the dialogue in every reachable session: it reads on while more is needed, connects, looks up or opens the UDP relay for an accepted request, tells the code of a refused one, and otherwise closes once its answers are sent |
| SessionProgress.EverythingHeard | server/protocol/Socks5Session.cpp:268-318 | in every run a session in service has handled every octet that arrived from either side, in order |
| SessionProgress.NothingIsLost | server/protocol/Socks5Session.cpp:434-725 | without protection, what was sent to the destination and what is queued for it are together the whole payload, and for the client the answers, the reply and all that the destination sent |
| SessionProgress.RelayDelivers | server/protocol/Socks5Session.cpp:427-541 | from every reachable open relay there are events after which all of the payload, or of its cleartext, was sent to the destination and all that is meant for the client to the client |
| SessionProgress.RelayHappens | server/protocol/Socks5Session.cpp:349-1213 | for every printed dialogue that asks for a connect, with or without a lookup, there is a run from the first octet in which the payload reaches the destination and the client is sent its answers, the reply and the destination's answer |
| SessionProgress.FlushEnds | server/protocol/Socks5Session.cpp:224-235 | a session that is to close after a flush can be flushed; then it has sent all it had to say, and is closed |
| SessionProgress.EndsClose | server/protocol/Socks5Session.cpp:349-361 | a failed send, the end of a dialogue's stream and the second end of a relay close the session, and the first end of a relay does not |
| SessionProtected.ClientGetsCleartext | server/protocol/Socks5Session.cpp:593-632 | in every reachable open protected session, however the frames are cut, the client reads whole frames whose cleartext is the reply followed by every octet that the destination sent |
| SessionProtected.RunCovered | server/protocol/Socks5Session.cpp:593-632 | in every run, under protection, all that was queued since the dialogue is the reply and the destination's octets, wrapped |
| SessionWaits.AwaitsResult | server/protocol/Socks5Session.cpp:1018-1185 | an open session that resolves or connects entered that mode by a step that launched the lookup or the connect, and its result has not been handled since |
| SessionWaits.NeverForgotten | server/protocol/Socks5Session.cpp:268-318 | an open session always has a read or a send posted, or an earlier step took it into a lookup or connect whose result is still to come |
| SessionTheorems.BufferStaysShort | server/protocol/Socks5Session.cpp:379-384 | whenever a dialogue read is posted the buffer has room for 983,038 bytes, and without GSS-API holds at most 512 |
| SessionTheorems.LimitCloses | server/protocol/Socks5Session.cpp:379-384 | a reachable session that the next 983,039 bytes close |
| SessionTheorems.LimitExactly | server/protocol/Socks5Session.cpp:379-384 | where GSS-API is on, some reachable dialogue overflows by an arrival if and only if that exceeds 983,038 bytes |
| SessionTimers.StaleNeverActs | server/protocol/Socks5Session.cpp:320-347 | a delivered timer takes effect if and only if no timer of its kind was armed or cancelled since it was armed, and the generation fits 56 bits |
| SessionTimers.KeyParts | server/protocol/Socks5Session.cpp:320-323 | the key gives back the kind and the low 56 bits of the generation |
| SessionTimers.Timers.ArmConnectTimer | server/protocol/Socks5Session.cpp:206-214 | the old timer is cancelled and the new one carries a generation of its own in its key |
| SessionTimers.Timers.ArmIdleTimer | server/protocol/Socks5Session.cpp:185-196 | likewise, where an idle timer is wanted |
| SessionTimers.Timers.CancelConnectTimer | server/protocol/Socks5Session.cpp:216-222 | the generation rises by one, the id is forgotten, and exactly a timer that is not claimed leaves the table of the port |
| SessionTimers.Timers.CancelIdleTimer | server/protocol/Socks5Session.cpp:198-204 | likewise |
| SessionTimers.ActsExactly | server/protocol/Socks5Session.cpp:320-347 | a delivered timer acts if and only if its kind was not touched since, the session is open, and it is connecting, or for an idle timer still in its dialogue |
| SessionTimers.Timers.OnTimer | server/protocol/Socks5Session.cpp:320-347 | the whole handler: generation test, forgotten timer id, and the state tests that follow |
| SessionClock.EverySession | server/protocol/Socks5Session.cpp:268-347 | the session with its timers is still a session: every joint run keeps the invariant of sessions |
| SessionClock.EveryClocked | server/protocol/Socks5Session.cpp:185-222 | in every joint run the timer the session holds is of the present generation or was discarded, no other timer is, and none is once the dialogue or the connect is over |
| SessionClock.TimerActsExactly | server/protocol/Socks5Session.cpp:320-347 | in every joint run a delivered timer passes the generation test if and only if the session is open, still in the mode it is for, asked for no other since, and the generation fits 56 bits; then it acts, and otherwise the session is unchanged |
| SessionClock.GrantedExactly | server/protocol/Socks5Session.cpp:362-367 | the last grant is that of a step after which no such timer was asked for: for the idle timer, a receive that no receive followed |
| SessionClock.TimerStands | server/protocol/Socks5Session.cpp:1118-1137 | an open dialogue or connect still has the timer it was given, unless the port discarded it; a connect was always given one |
| SessionClock.NoTimeoutAfterConnect | server/protocol/Socks5Session.cpp:1140-1144 | after the step that handles the connect result, no timer delivered later changes the session |
| RelayCode.StreamIo.Sent | server/protocol/Socks5Session.cpp:434-445 | a completed send advances or drops the first chunk |
| RelayCode.Relay.PumpSend | server/protocol/Socks5Session.cpp:709-725 | the first chunk is posted unless a send is in flight |
| RelayCode.Relay.TryPostRelayRead | server/protocol/Socks5Session.cpp:496-522 | a read is posted, or paused behind a full queue |
| RelayCode.Relay.MaybeResumeRelayRead | server/protocol/Socks5Session.cpp:524-541 | a paused read resumes once the queue has room |
| RelayCode.Relay.OnClientSend | server/protocol/Socks5Session.cpp:427-460 | the handler does what the state machine does |
| RelayCode.Relay.OnDestSend | server/protocol/Socks5Session.cpp:474-494 | likewise |
| RelayCode.Relay.ForwardToDest | server/protocol/Socks5Session.cpp:1187-1203 | queueing chunk by chunk, with a pump after each, is queueing all and pumping once |
| RelayCode.Relay.OnRelayDataFromClient | server/protocol/Socks5Session.cpp:543-566 | the handler does what the state machine does |
| UdpHeader.ParseExact | server/protocol/UdpRelay.cpp:479-529 | exactly the printed datagrams are accepted, and read as printed |
| UdpHeader.ParseClientPacket | server/protocol/UdpRelay.cpp:479-529 | the cursor parser agrees and looks at nothing past the length |
| UdpHeader.BuildServerResponse | server/protocol/UdpRelay.cpp:627-654 | a server's answer is printed with its source and reads back as that |
| UdpFragments.AcceptSound | server/protocol/UdpRelay.cpp:378-477 | every fragment keeps the accounted size equal to the stored parts, so the subtraction cannot underflow and the second size check is dead |
| UdpFragments.DropsExactly | server/protocol/UdpRelay.cpp:391-441 | fragments numbered zero, orphans and the first of a 257th assembly are ignored; of the others exactly those that take the parts over 65,535 octets end their assembly without a datagram |
| UdpFragments.Reassembler.ProcessFragment | server/protocol/UdpRelay.cpp:378-477 | the method does to the table what the function says and returns the datagram it completes |
| UdpFragments.Reassembled | server/protocol/UdpRelay.cpp:378-477 | fragment 1 first, the others in any order, other destinations in between: exactly one datagram comes out, the parts in number order |
| UdpFragments.AssembledIsConcat | server/protocol/UdpRelay.cpp:457-462 | and it is the concatenation of the payloads |
| UdpQueues.EveryRun | server/protocol/UdpRelay.cpp:320-376 | in every state of every run queues are within 64 packets and 256 domains, served by one lookup or notification, and accepted packets are settled or waiting in order |
| UdpQueues.NeverStranded | server/protocol/UdpRelay.cpp:320-376 | a waiting packet has exactly one lookup or notification to come |
| UdpQueues.DeliveryDrains | server/protocol/UdpRelay.cpp:566-615 | a notification with an address that can be read settles every packet of its queue as forwarded to that address, in arrival order; any other drops them all; other queues are untouched, and the entry of the domain goes only where nothing was resolved |
| UdpQueues.DispatchExact | server/protocol/UdpRelay.cpp:335-355 | a packet is refused if and only if its queue holds 64 or it would be the 257th domain; otherwise it goes behind the others and a lookup starts if and only if none is in flight |
| UdpQueues.FailedPostDrops | server/protocol/UdpRelay.cpp:356-376 | a result that cannot be posted drops exactly what waits on it |
| UdpQueues.AnswerForwards | server/protocol/UdpRelay.cpp:356-615 | an address that the resolver brings, posted and delivered, forwards everything that waited for it |
| UdpQueues.UdpRelay.DispatchClientPayload | server/protocol/UdpRelay.cpp:335-355 | the locked region queues or refuses the packet and starts a lookup exactly when none is in flight |
| UdpQueues.UdpRelay.OnDnsNotify | server/protocol/UdpRelay.cpp:566-615 | with an address that can be read, the calls of ForwardPayload grow by exactly one per packet, with that address and the packet's own port, in order; otherwise by none |
| SendPump.DrainsExactly | server/protocol/UdpRelay.cpp:287-302 | with a port that takes whatever can be taken, the queue drains if and only if no datagram in it is empty |
| SendPump.Pump.NothingPasses | network/Iocp.cpp:561-570 | nothing queued behind an empty datagram is ever posted, whatever the port does |
| SendPump.Pump.PumpSend | server/protocol/UdpRelay.cpp:287-302 | sends are posted from the front, at most 16 in flight, none lost, reordered or posted twice; an empty datagram stops the line |
| SendPump.Pump.Enqueue | server/protocol/UdpRelay.cpp:274-285 | a datagram is queued behind the others or refused at the limit; with a port that takes whatever can be taken, pending is then what one pump leaves |
| SendPump.Pump.OnCompleted | server/protocol/UdpRelay.cpp:223-243 | a completion removes its own send and pumps again; with a port that takes whatever can be taken, pending is then what one more pump leaves |
| SendPump.Pump.Stop | server/protocol/UdpRelay.cpp:141-165 | the socket is closed and what was never posted is forgotten; sends in flight stay |

## Left out

- Winsock, the kernel's side of the port, socket options, binding, address text: events decide their outcomes; an address is its octets.
- GetQueuedCompletionStatus failing without an OVERLAPPED: the worker that meets it leaves, which the model of the workers does not have.
- Iocp.State: one life of the service, from a successful Start to the end of Stop; Start's exception branch and a second Start are not modelled, and the release of one operation may lag behind the thread that does it (more interleavings than the code has).
- Iocp.CanPost: callers post one context from one thread at a time; two threads racing on the same context are not modelled. Both pins of a context are one entry.
- IocpAttention.NoTimerOverlooked: that a wait with a limit ends in time is NeverOversleeps and the kernel's; no clock runs in the state machine.
- IocpShutdown.StopFinishesExactly: assumes that the kernel completes what was cancelled and that handlers return.
- DnsResolver.Enabled: Start and Stop are called one after the other by their owner; the timers that the stop of the port itself clears are not modelled for the resolver.
- DnsResolver.ResolveNow: early returns and cache hits of ResolveAsync are immediate answers; which answer the cache gives is in DnsCache.
- DnsResolver.ResultE: a result is known by its transaction id only, as in the code; no claim is made that it belongs to the domain when an id was reused.
- DnsResolver.Query: the useCache flag and the cache update of FinishQuery are left out of the resolver's steps.
- IocpCode.Service: each method runs whole; what other threads do between its regions is in the state machine.
- ResolverCode.Resolver: ResolveAsync, OnQueryResult and StartTcpFallback are functions of the state machine only.
- SSPI: the security package is a pair of functions wrap and unwrap and an accept status of the tokens so far; unwrap inverting wrap is assumed only for the round trip.
- Session.Dialog: all answers of one arrival are queued and then pumped once; where the code's post fails halfway through an arrival, the model parses the arrival to its end before it closes.
- SessionTheorems.DestinationGetsPrefix: a prefix and not everything, because on end of stream the code shuts the other direction down with chunks still queued.
- SessionTimers.StaleNeverActs: fewer than 2^64 arms and cancels of one kind in a session.
- SessionClock.TimerActsExactly: likewise.
- SessionClock.TimerStands: fewer than 2^56 arms and cancels of one kind; past that a timer no longer passes the test.
- IocpClock.OverdueIsAttended: the kernel counts a wait from the call, which comes after the sweep it was computed in; the time in between is not bounded.
- SessionProgress.ConnectStarts: the posts succeed; what a failed post does is in the invariants. With protection the reply can be wrapped and the octets sent ahead are good frames.
- SessionClock.Moved: on a failed launch the code may raise a generation once more than the model does; the session is closing by then.
- RelayCode.Relay: the destination's side of OnRelayData, the end-of-stream handlers and StartRelay are functions of the state machine only.
- UdpFragments.Reassembled: the limits on assemblies hold before the first fragment, and no sweep removes the assembly meanwhile; the text key of an assembly is the destination itself, since printing it is injective. The lower-number reset rule of section 7 of RFC 1928 is not in the code.
- UdpQueues.Enabled: that a queue entry left empty on success counts against the limit of 256 domains is modelled as it is; no claim that a new domain is always accepted below it.
- HandlePacket's choice of the client's endpoint, the table of active destinations and CleanupState: easy members.
- Configuration, the acceptor, the slot counter, logging, adapter monitoring, console and start-up code.
