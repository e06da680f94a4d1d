# Club bot and Data API: a verified model

A club's Discord bot and its read-only Data API, modelled in Dafny: the parts of both that keep state across
failures. What the network, Discord, the database, people and the clock do is a parameter everywhere, so each
statement is about every answer, every interleaving named, and every run.

- **Session board** (`SessionBoard`, `BoardSafety`, `BoardBudget`, `BoardDisplay`, `BoardOutcomes`). One Discord
  message kept current by ticks over a stored row. At every await people may act, the request may or may not
  take effect, and the process may die. Proved: at most one current board, a budget for reposts, that the board
  shows what the tick says it shows, that it comes down and goes up, and what each outcome tells.
- **Gateway** (`Gateway`, `GatewayProofs`, `GatewayHistory`, `GatewayTrace`, `GatewayTimers`, `GatewayBackoff`,
  `GatewayConnection`). The websocket client as event handlers over shared variables; the class is proved equal
  to functions on the closure, and over all traces of events those are proved to remember, send, arm and give
  up what the trace alone says.
- **Roles** (`Roles`, `Registry`, `RegistryProofs`, `RoleSync`, `Reconcile`, `Setup`, `SetupProofs`). The diff, the
  calls that apply it with partial failure, concurrent syncs, the sweep's summary, the registry of role ids, and
  the plan that sets a guild up.
- **Limiter and caches** (`InsertionOrder`, `RateLimit`, `RateLimitProofs`, `Json`, `RpcCache`,
  `RpcCacheProofs`, `KeyVerifier`, `KeyVerifierProofs`). Each bounded, mutable table is related to a simple
  unbounded specification or to the history of what it answered.
- **Authentication** (`Authentication`, `AuthenticationProofs`, `OverlapProofs`, `CachedKeyProofs`,
  `AccessProofs`). Requests that overlap over the key cache and the failed-authentication limiter: what
  guessing costs at most, runs that cost exactly that, which requests the cache answers, and what each
  verdict rests on.
- **Relays** (`Outbox`, `OutboxProofs`, `OutboxAnswers`, `ScheduledEvents`, `ScheduledEventProofs`,
  `ScheduledEventLimit`, `ScheduledEventDisplay`). "Call Discord first, record second" loops: their duplicates
  are bounded by the faults that occurred, and without faults what is shown is told from what was read.
- **Component ids and command diff** (`ButtonIds`, `ButtonIdProofs`, `ListAnswers`, `ListMessages`, `CommandDiff`,
  `CommandDiffProofs`, `CommandReport`). A printer and its parsers, the messages they decide about, and a
  normalised comparison with its report.

The form is the same throughout. A function says what one step makes of the state. A class or method with the
source's fields and loops is proved to compute it. Lemmas about all runs of the function state the guarantee.
History (calls made, loads dropped, creations lost) is kept in ordinary fields that no branch reads.

Assumptions, each about the world outside the code:

- Board ticks, outbox runs and event syncs do not overlap with themselves; a claim does not run out while its
  holder still works on it; nobody else changes a member's roles while a sweep runs.
- A store write that throws, and an edit of the board whose answer is lost, already took effect or never will.
  A post whose answer is lost may land at any later time, and so may a delete, as one by hand.
- A 404 from Discord means the thing is gone, a 4xx answer to a post means nothing was created, a closed socket
  delivers no further events, and a timer never fires early.
- Clocks do not go back; a board tick's clock advances at its awaits. Hashes and fingerprints are injective.
  Discord gives a new role an id of its own, and delivers a click only from somebody who can see the message,
  with an id the message carried.

Where the code and its comments part:

- A comment in `apps/bot/src/index.ts` (lines 150-155) calls the sweep convergent; it is so exactly when no id
  is asked for both ways (`RoleSync.SettlesExactlyWhenPossible`), and the registry parser accepts maps that do
  so (`Registry.EveryMapIsAccepted`, `RoleSync.TwoNamesOneId`). The map that setup writes never does
  (`SetupProofs.SetupMapIsInjective`).
- A board can end a tick `unchanged` over a wrong schedule after one lost row write
  (`BoardDisplay.ChangesBackUnseen`).
- `register-commands.ts` promises never to report a false "unchanged"; `max_length` is sent and not compared
  (`CommandDiffProofs.MaxLengthChangeIsMissed`).
- The reading limit of 150 mappings is described as a bound for safety; past it a live event is doubled and its
  mapping forgets the first (`ScheduledEventLimit.PastTheLimitEventsAreDoubled`). That, and a mapping left out
  of one reading and not of the next, are all it can do (`ScheduledEventProofs.LiveEventsStayMapped`,
  `LaterReadingOwes`).
- The route takes the recorded start for the one Discord was given (lines 404-405 of
  `apps/player/src/app/api/discord/tournament-events/route.ts`). After a renaming that came with a start already
  past it is not, and an event can be left announced for a day its tournament has twice moved away from
  (`ScheduledEventDisplay.LateRenamingIsExact`, `MovedTwiceIsMissed`).
- The budget of the board is kept by the clock read at the start of a posting, so by the messages' own creation
  times it holds for a day less the longest posting (`BoardBudget.SixCreationsADay`, `SlowTickMakesSeven`).
- The gate in front of the key lookup is checked before the lookup and paid after it, so what guessing costs is
  multiplied by the number of requests in flight, not raised by it once (`OverlapProofs.OverlapMultiplies`).

Check everything with `dafny verify dfyconfig.toml`.

## Model

| member | source | states |
|---|---|---|
| SessionBoard.Board.FetchSessionBoard | apps/bot/src/session-board.ts:158-158 | the setting and the stored row as they are once what people do meanwhile has happened (a read that throws is met by the tick itself) |
| SessionBoard.Board.DeleteMessage | apps/bot/src/discord-api.ts:406-416 | a delete answers yes, no or not at all; a refused or lost one may still have taken the message away, and a 404 counts as gone |
| SessionBoard.Board.EditMessage | apps/bot/src/discord-api.ts:375-393 | an edit is ok, gone or failed; gone only when the message really is; a failed one may have landed, which the history counts |
| SessionBoard.Board.PostMessageResult | apps/bot/src/discord-api.ts:287-308 | a post is created, refused (nothing exists) or unknown (it may exist now, later or never) |
| SessionBoard.Board.WriteSessionBoard | apps/bot/src/session-board.ts:241-241 | a write that throws or dies already took effect or never will |
| SessionBoard.Board.ForgetSessionBoard | apps/bot/src/session-board.ts:174-175 | the whole-row clear starts a new lifetime, and the history keeps what row it dropped and whether the delete before it was confirmed |
| SessionBoard.Board.RunSessionBoard | apps/bot/src/session-board.ts:127-354 | one tick, await by await, against any answers, is the step the board theorems are about: what it does to the board is BoardOutcomes.BoardsComeDown and OutcomesAreExact, how it keeps it single BoardSafety.RunIsSafe |
| BoardSafety.TickIsSafe | apps/bot/src/session-board.ts:160-354 | every tick, crashed anywhere and answered anyhow, keeps the singleton invariant |
| BoardSafety.RunIsSafe | apps/bot/src/session-board.ts:127-354 | the invariant holds in every run of ticks and outside acts |
| BoardSafety.AtMostOneBoard | apps/bot/src/session-board.ts:160-354 | of the messages posted since the last whole-row clear at most one is live or may still land |
| BoardSafety.OldBoardsAreExcused | apps/bot/src/session-board.ts:160-210 | an older live board exists only if the delete before its clear was not confirmed, or the cleared row was an unconfirmed post |
| BoardBudget.TickKeepsBudget | apps/bot/src/session-board.ts:264-347 | the stored counters never undercount what was posted, even when recordings are lost |
| BoardBudget.RepostCapBinds | apps/bot/src/session-board.ts:73-75 | no window of a row lifetime holds more than three reposts, and windows start more than 24 hours apart |
| BoardBudget.SeventhIsADayLater | apps/bot/src/session-board.ts:264-347 | from the spacing of posts alone, the seventh posting's recorded time is more than a day after the first's |
| BoardBudget.SixCreationsADay | apps/bot/src/session-board.ts:264-347 | with at most `longest` ms from a tick's clock reading to its post request, and each message created as that request is taken or, when its answer was lost, any time later, any 24 hours less `longest` of any run hold at most six creations of one row lifetime |
| BoardBudget.SixRecordedADay | apps/bot/src/session-board.ts:264-264 | any closed 24 hours of any run hold at most six postings by their recorded times |
| BoardBudget.SlowTickMakesSeven | apps/bot/src/session-board.ts:264-347 | the allowance is needed: a run with one tick a millisecond long sends seven boards within 24 hours |
| BoardDisplay.TickShows | apps/bot/src/session-board.ts:224-259 | posted or edited always leaves the board showing the tick's render; unchanged does so exactly when the board is gone, nothing landed on it since the row was last written, or what landed last was that render, and what landed stays tracked through every tick |
| BoardDisplay.BoardShowsTheTicksRender | apps/bot/src/session-board.ts:94-106 | in every run, posted and edited leave the tick's render on the board; unchanged does so exactly when the board is gone, nothing landed on it since the last row write that did, or what landed last was that render |
| BoardDisplay.ChangesBackUnseen | apps/bot/src/session-board.ts:238-243 | a run in which one lost row write and a schedule that changes back leave the wrong schedule up under an unchanged tick |
| BoardOutcomes.BoardsComeDown | apps/bot/src/session-board.ts:160-211 | in every run a tick that reads a board which must come down, because the setting is empty or names another channel and no post is in doubt, takes it down: the row's message is neither live nor coming and the row is gone, and of a lost delete or clear exactly what was lost is left |
| BoardOutcomes.OkComesDown | apps/bot/src/session-board.ts:160-211 | with both answered ok there is no row, the message is nowhere, and the outcome is retracted or moved by whether the setting is empty |
| BoardOutcomes.UnsetRowStaysOnAbort | apps/bot/src/session-board.ts:160-182 | a tick that reads the setting empty and leaves a row ended aborted |
| BoardOutcomes.RunIsInPlace | apps/bot/src/session-board.ts:199-211 | in every run the board its row names is in the channel its row names |
| BoardOutcomes.TwoCalmTicksPublish | apps/bot/src/session-board.ts:212-347 | from every reachable state with a channel set and no post in doubt, two ticks whose calls succeed are enough: a third does nothing, and unless there was nothing to do or the day's reposts are made the board is up in that channel, alone, showing the schedule |
| BoardOutcomes.OutcomesAreExact | apps/bot/src/session-board.ts:127-354 | each counter is bumped exactly when this happened: which read, row, schedule and answers end a tick in each of its ways; one that is stuck, skipped, unchanged or suppressed did nothing |
| BoardOutcomes.TellsApart | apps/bot/src/session-board.ts:127-354 | no two of those conditions hold of one tick |
| GatewayConnection.Connection.HandleMessage | apps/bot/src/gateway.ts:256-326 | an incoming frame, with every branch of the dispatch, is the step the trace theorems are about |
| GatewayConnection.Connection.OnClose | apps/bot/src/gateway.ts:360-378 | a close of the held socket ends heartbeats, forgets the session on 4007 and 4009, gives up on a fatal code, and otherwise reconnects later |
| GatewayConnection.Connection.ScheduleReconnect | apps/bot/src/gateway.ts:201-214 | one timer is armed with the backed-off delay, and none when stopped or when one is pending |
| GatewayConnection.Connection.Beat | apps/bot/src/gateway.ts:161-171 | a heartbeat that was never answered closes the socket instead of sending another |
| GatewayConnection.Connection.OnTimer | apps/bot/src/gateway.ts:201-214 | a fired timer is disarmed first, and then beats, or clears the pending reconnect and connects |
| GatewayConnection.Connection.Stop | apps/bot/src/gateway.ts:382-406 | stopping is the step GatewayTrace.TheEndIsTheEnd is about, which says from the trace that it is the end |
| GatewayProofs.RunHolds | apps/bot/src/gateway.ts:142-222 | in every reachable state exactly one of a live socket, one pending reconnect timer, or being down for good holds; a heartbeat timer implies a live socket |
| GatewayProofs.DownStaysDown | apps/bot/src/gateway.ts:328-407 | from a stopped connection nothing is opened, armed or sent by any later event; that stop and a fatal close lead there is GatewayTrace.TheEndIsTheEnd |
| GatewayHistory.RunTells | apps/bot/src/gateway.ts:224-326 | what the closure remembers is always what the trace says: session, last sequence number, unanswered heartbeat |
| GatewayHistory.ResumeIsOfTheLatestReady | apps/bot/src/gateway.ts:242-248 | every RESUME carries the session of the latest READY not invalidated since, and the last sequence number not invalidated since, which was seen on that session exactly when any was |
| GatewayHistory.LostSessionIsNotResumed | apps/bot/src/gateway.ts:360-374 | after a non-resumable INVALID_SESSION or close 4007 or 4009, no handshake before the next READY resumes |
| GatewayHistory.BeatsAreAnswered | apps/bot/src/gateway.ts:161-179 | two scheduled heartbeats on one connection have an ACK or a new HELLO between them |
| GatewayTrace.RunAgrees | apps/bot/src/gateway.ts:142-406 | in every run the variables are what the trace alone says: phase, resume address, interval, whether an ACK is awaited, and whether and how the connection was ended |
| GatewayTrace.TheEndIsTheEnd | apps/bot/src/gateway.ts:328-406 | in every run, after stop or a close with 4004 or 4010 to 4014 the trace holds only further stops, no socket is attached and no timer armed, and the state is stopped or fatal by which came last; before that it is not stopped |
| GatewayTrace.EventsAdd | apps/bot/src/gateway.ts:148-358 | in every run each event adds exactly this to the trace: a HELLO a RESUME or an IDENTIFY, a request for a heartbeat one, a beat that is due a heartbeat unless one is unanswered, a reconnect that succeeds a socket |
| GatewayTimers.EventsArm | apps/bot/src/gateway.ts:161-214 | in every run each event leaves exactly this timer armed, when it is due, this many failures counted and this uptime: first beat a random fraction of the interval, then the interval, and reconnects after the jittered doubling of the failures since READY or RESUMED |
| GatewayTimers.OneTimer | apps/bot/src/gateway.ts:142-222 | in every run no timer is armed but that one |
| GatewayBackoff.DelayBounds | apps/bot/src/gateway.ts:201-214 | for any jitter, delay k lies between half of and all of min(30000, 1000 * 2^k) ms |
| GatewayBackoff.RunIsPaced | apps/bot/src/gateway.ts:201-214 | sockets are opened no sooner than the delays allow, in every run |
| GatewayBackoff.SocketsAreRationed | apps/bot/src/gateway.ts:66-66 | while no READY or RESUMED arrives, at most 6 + T / 15000 sockets are opened in T ms |
| Roles.RoleDiff | apps/bot/src/roles.ts:252-281 | the loop over swept and membership roles computes the additions and removals in order |
| Roles.DiffIsTheDifference | apps/bot/src/roles.ts:252-281 | additions are exactly the wanted ids not held, removals exactly the unwanted ids held |
| Roles.RolesAreEarned | apps/bot/src/roles.ts:131-157 | which members are given each role, over every state a member can be in: a ban leaves linked alone, vp needs an executive with a named job, a pending member gets no team role, nobody is given a membership role |
| Roles.MembershipFromRoles | apps/bot/src/roles.ts:299-315 | the one configured membership role held; none when none or several are |
| Roles.ConsistentForAllIffNoClash | apps/bot/src/roles.ts:176-240 | a guild's map asks for something possible of every member exactly when no two of its ids clash |
| RoleSync.RunStaysOnTrack | apps/bot/src/sync.ts:56-115 | interleaved syncs with any answers keep every pending call pointed at the goal |
| RoleSync.SyncsConverge | apps/bot/src/sync.ts:56-115 | no interleaving moves a role away from the goal or touches another role; once any sync finished with every call ok the goal is met and a further sync makes no calls |
| RoleSync.MetIsQuiet | apps/bot/src/roles.ts:252-281 | a sync makes no calls exactly when the member holds what the goal says |
| RoleSync.SweepIsACleanSync | apps/bot/src/sync.ts:56-115 | the set a sweep leaves is what a run of one sync leaves when its read and every call are answered ok |
| RoleSync.SettlesExactlyWhenPossible | apps/bot/src/roles.ts:176-240 | a fault-free sync leaves nothing to do exactly when no id is asked for both ways |
| RoleSync.SharedIdAlternates | apps/bot/src/roles.ts:252-281 | an id asked for both ways is given and taken by successive fault-free sweeps forever |
| RoleSync.TwoNamesOneId | apps/bot/src/roles.ts:176-240 | two names for one id, in a map the parser accepts, on which sweeps alternate forever |
| Registry.ParseGuildRegistry | apps/bot/src/roles.ts:176-207 | the loops over guilds and entries compute the registry, or the first refusal, that the three theorems below are about |
| RegistryProofs.RegistryParses | apps/bot/src/roles.ts:188-204 | a setting is accepted exactly when every field is an object whose every entry gives one of the nine names a nonempty id; its guilds are exactly the names of the fields |
| RegistryProofs.RegistryReads | apps/bot/src/roles.ts:188-204 | a guild has a role exactly when an entry of its last field names it, with the id of the last such entry |
| RegistryProofs.RegistryComplains | apps/bot/src/roles.ts:188-201 | a refusal is about the first field that is no guild's, and in it about the first entry that gives no name an id |
| RegistryProofs.OtherSettings | apps/bot/src/roles.ts:176-186 | a blank setting has no guilds; text that is no JSON, and JSON that is no object, are refused as such |
| Registry.AcceptedIffProper | apps/bot/src/roles.ts:192-201 | a guild's entries are accepted exactly when each names a managed role and holds a nonempty id: no clash of ids is refused |
| Registry.EveryMapIsAccepted | apps/bot/src/roles.ts:192-201 | every role map, ids that clash included, is read back from some setting |
| Reconcile.DiscordApi.GetMemberRoles | apps/bot/src/discord-api.ts:138-144 | a 404 is a member who is not in the guild; otherwise the roles read are those held |
| Reconcile.DiscordApi.RoleCall | apps/bot/src/discord-api.ts:571-592 | a role call changes at most its own member and role, and only an ok answer, a lost one, or the removal of a role Discord does not know, may have changed anything |
| Reconcile.SyncMemberInGuild | apps/bot/src/sync.ts:56-115 | the calls made are the diff in order, the counts are their answers, other members and ids the goal does not speak of are untouched, and with every call ok the goal is met |
| Reconcile.SyncMemberEverywhere | apps/bot/src/sync.ts:124-138 | in every guild, from what the member held there: its own goal's diff in order at one place in the log, its counts and the one membership role held; where nothing was refused or failed no unwanted id is left, and with every call ok the goal is met |
| Reconcile.RunReconcile | apps/bot/src/reconcile.ts:71-188 | at each member's last entry every registered guild was synced towards the goal of the state given there, with those counts, and met it if every call was ok; the summary is what the attempts add up to, and a member reported cleared holds nothing managed anywhere |
| Reconcile.TotalsMatchChanges | apps/bot/src/reconcile.ts:95-153 | the summary's totals are the sums over the changes listed |
| Reconcile.ChangesAreExact | apps/bot/src/reconcile.ts:112-153 | the changes list exactly the swept entries with a nonzero count |
| Reconcile.ClearedIsExact | apps/bot/src/reconcile.ts:168-174 | cleared lists exactly the tombstones for whom nothing was refused or failed |
| Reconcile.TallyIsExact | apps/bot/src/sync.ts:80-109 | the four counters are the additions and the removals answered ok, the refusals and the failures; a 404 is none of them |
| Reconcile.ThrowsAreReported | apps/bot/src/reconcile.ts:115-129 | a sync that threw is listed as one failure of its member |
| Reconcile.AbsencesAreCounted | apps/bot/src/reconcile.ts:131-153 | the absences are counted over all guilds of all syncs that returned |
| Reconcile.MembershipIsTheirOwn | apps/bot/src/roles.ts:252-281 | no goal of a member who is neither banned nor gone asks for or against a membership role, unless the guild gave a swept role its id |
| Reconcile.BannedKeepsOnlyLinked | apps/bot/src/roles.ts:131-136 | a fully successful sync leaves a banned member with linked alone among everything the map names |
| Setup.KeysAreDistinct | apps/bot/src/setup.ts:56-58 | no two managed roles share a normalised display name |
| Setup.DisplayNamesAreProper | apps/bot/src/setup.ts:56-58 | normalising tells the managed roles' display names apart under JavaScript's lower-casing |
| Setup.PlanSetup | apps/bot/src/setup.ts:102-143 | bucketing the guild's roles and placing each managed role gives the plan the theorems below speak of |
| SetupProofs.PlanCoversOnce | apps/bot/src/setup.ts:102-143 | every managed role is in exactly one of the four lists, once |
| SetupProofs.PlanIsExact | apps/bot/src/setup.ts:117-141 | matched exactly when one usable role has the name, created exactly when none has it |
| SetupProofs.RefusalsAreExact | apps/bot/src/setup.ts:117-141 | refused, and for which reason, exactly when the one role of the name is Discord's own or not below the bot; left to be chosen exactly when several have it, with their names in order |
| SetupProofs.MatchedIdsAreDistinct | apps/bot/src/setup.ts:102-143 | with distinct role ids no id is matched to two managed roles |
| SetupProofs.SecondPlanAdopts | apps/bot/src/commands.ts:3169-3194 | after creating what was missing below the bot, a second plan creates nothing and adopts exactly the matched and created roles |
| SetupProofs.SetupMapIsInjective | apps/bot/src/commands.ts:3169-3194 | matched plus freshly created ids form an injective map, so no sweep over it can alternate |
| InsertionOrder.TrimKeepsNewest | apps/data-api/src/rate-limit.ts:44-48 | deleting the first key while there are too many keeps exactly the newest ones, with their values |
| RateLimit.GainIsProduct | apps/data-api/src/rate-limit.ts:38-38 | the gain the proofs count millisecond by millisecond is the source's product of time and rate |
| RateLimitProofs.WindowGivesCapacity | apps/data-api/src/rate-limit.ts:29-29 | the configured rate gives exactly one capacity in a window |
| RateLimit.TokenBuckets.Refill | apps/data-api/src/rate-limit.ts:32-50 | topping up, moving to the young end and evicting the oldest, as one change of the table |
| RateLimit.TokenBuckets.Take | apps/data-api/src/rate-limit.ts:57-64 | a take answers from the topped-up bucket and spends only when it accepts |
| RateLimit.TokenBuckets.Check | apps/data-api/src/rate-limit.ts:67-70 | a check gives the answer a take would, and spends nothing |
| RateLimitProofs.HandleLookup | apps/data-api/src/rate-limit.ts:32-50 | a call changes its own bucket and otherwise only forgets; the table stays bounded |
| RateLimitProofs.OutcomesAreIndependent | apps/data-api/src/rate-limit.ts:29-70 | if only buckets that are full by then are evicted, every answer is that of a bucket of its own offered nothing but that id's takes: refinement of unbounded independent buckets, in which checks change nothing |
| RateLimitProofs.ForgettableIffFull | apps/data-api/src/rate-limit.ts:44-48 | with a whole capacity, forgetting a bucket changes no answer of any continuation exactly when the bucket is full at that moment |
| RateLimitProofs.IdleEvictionsAreFull | apps/data-api/src/rate-limit.ts:44-48 | an id that called nothing for a whole window is full, so evicting only such ids evicts only full buckets |
| RateLimitProofs.FractionsHideEvictions | apps/data-api/src/rate-limit.ts:44-48 | with capacity one half the equivalence fails: an empty bucket is forgotten unseen |
| RateLimitProofs.EvictionForgives | apps/data-api/src/rate-limit.ts:44-48 | without that condition it fails: in a table of one, an evicted busy id is let in again at once |
| RateLimitProofs.RateIsKept | apps/data-api/src/rate-limit.ts:57-64 | between evictions of an id, its accepted takes are at most the capacity and what the rate gives in that time |
| RateLimitProofs.RetryAfterIsLeast | apps/data-api/src/rate-limit.ts:52-54 | waiting n whole seconds suffices exactly when n is at least the advised number (which is at least 1) and the capacity is at least one |
| AccessProofs.GateIsExact | apps/data-api/src/server.ts:722-736 | a request the cache does not answer asks the limiter once and spends nothing; with a token it begins a read of its key and waits, without one it is told to wait and nothing is read; what the cache held of the key is gone |
| AccessProofs.AdviceIsLeast | apps/data-api/src/rate-limit.ts:52-54 | the wait it is told is the least number of whole seconds after which its bucket holds a token |
| AccessProofs.AnswersAreExact | apps/data-api/src/server.ts:736-742 | an awaited answer lets the request in as whoever the first row names, or turns it away and its address pays; a failed read costs nothing |
| Authentication.Handler.Authenticate | apps/data-api/src/server.ts:722-736 | a request up to the database read it may wait for: which are gated, which pay, and with what answer, over the verifier's and the limiter's own state |
| Authentication.Handler.Answered | apps/data-api/src/server.ts:736-742 | what follows the database's answer, in whatever order answers come, is the step AccessProofs.AnswersAreExact and the runs are about |
| AuthenticationProofs.WastedArePaid | apps/data-api/src/server.ts:732-741 | however requests overlap, over any stretch of a run the lookups an address wastes are at most those already beyond its tokens and, for each payment its bucket accepted, the most in flight at once |
| AuthenticationProofs.GuessingIsRationed | apps/data-api/src/server.ts:732-741 | while the address is not evicted, that is at most the most in flight times a full bucket and what the rate gives between the stretch's first and last limiter calls, plus those already beyond its tokens |
| OverlapProofs.OverlapMultiplies | apps/data-api/src/server.ts:732-741 | the bound is met for every number n of overlapping requests and k of rounds: n * k lookups wasted on k payments |
| OverlapProofs.AdditiveBoundFails | apps/data-api/src/server.ts:732-741 | the waste of those runs is within a full bucket and what the rate gives in their time exactly when n is one, and within that and the n in flight added once exactly when (n - 1) * (k - 1) is at most one |
| CachedKeyProofs.CachedKeysAreFree | apps/data-api/src/server.ts:722-736 | in every run a request is let in at once exactly when the database's latest answer about its key confirmed it less than 30 s ago and no other key pushed that answer out, and then nothing is charged, read or changed |
| CachedKeyProofs.RefusedKeysPay | apps/data-api/src/server.ts:722-741 | a request is refused at once exactly when it carries no key, or the latest answer refused its key less than 5 s ago and was not pushed out; it then makes one take and no read |
| CachedKeyProofs.PushedOutIsOldest | apps/data-api/src/auth.ts:68-76 | in every run a key is pushed out only by the answer about a key not held when a thousand are, and then it was the oldest |
| Json.EscapeIsPrefixFree | apps/data-api/src/rpc-cache.ts:36-36 | no escape of one character begins that of another (section 7 of RFC 8259) |
| Json.ValuesArePrefixFree | apps/data-api/src/rpc-cache.ts:36-36 | a JSON text read from its start can be only one value's |
| Json.StringifyIsInjective | apps/data-api/src/rpc-cache.ts:36-36 | two argument lists print alike exactly when they are the same |
| Json.ValueIsPrintable | apps/data-api/src/rpc-cache.ts:36-36 | printed JSON holds no control character, so the separator in the key cannot be forged |
| RpcCacheProofs.KeyIsInjective | apps/data-api/src/rpc-cache.ts:36-36 | a cache key names one function and one argument list |
| RpcCache.Store.Get | apps/data-api/src/rpc-cache.ts:35-50 | an unexpired entry is returned; anything else starts a load, replaces the entry at the young end and evicts |
| RpcCache.Store.OnRejected | apps/data-api/src/rpc-cache.ts:45-47 | the rejection handler drops the entry only while it is the one its load made |
| RpcCache.Evict | apps/data-api/src/rpc-cache.ts:57-62 | walking the keys and deleting until few enough remain keeps the newest |
| RpcCacheProofs.AnswersAreFresh | apps/data-api/src/rpc-cache.ts:35-50 | every answer is a load of exactly that function and arguments started less than one lifetime before, or now |
| RpcCacheProofs.ReloadsHaveAReason | apps/data-api/src/rpc-cache.ts:35-50 | a second load of one key within a lifetime happens only after the first was rejected or evicted |
| RpcCacheProofs.SharingIsSameCall | apps/data-api/src/server.ts:650-653 | two calls share an answer only if function and arguments agree, so different consumers never do |
| RpcCacheProofs.OldestExpiresFirst | apps/data-api/src/rpc-cache.ts:56-62 | entries stay ordered by expiry and bounded, so eviction takes what would expire next |
| RpcCacheProofs.RejectedAnswersNobody | apps/data-api/src/rpc-cache.ts:45-47 | in every run, once a load was rejected no later call is answered by it |
| RpcCacheProofs.EvictionIsForRoom | apps/data-api/src/rpc-cache.ts:56-62 | in every run a load was evicted only after as many later loads as the cache may hold |
| KeyVerifierProofs.TokenIsExact | apps/data-api/src/auth.ts:46-49 | only the bearer word and a well-formed key reach the cache or the database |
| KeyVerifier.Verifier.Inspect | apps/data-api/src/auth.ts:46-55 | an unexpired entry answers; an expired one is dropped |
| KeyVerifier.Verifier.Remember | apps/data-api/src/auth.ts:58-78 | an answer is read by the function KeyVerifierProofs.VerifiedIsTheRow is about and kept for its own lifetime, an entry set again keeps its place, the oldest are evicted |
| KeyVerifierProofs.VerifiedIsTheRow | apps/data-api/src/auth.ts:59-67 | an answer verifies a key exactly when its first row is an object with the consumer's id and the key's id as texts and an array of scopes; it names those, and the scopes are the texts of that array, each where its predecessors leave it |
| AccessProofs.AccessRestsOnAConfirmation | apps/data-api/src/auth.ts:46-78 | in every run of overlapping, gated requests, one let in at t rests on a read that confirmed its own key and began after t - 30 s - that read's own duration, and is let in as whoever the first row answered to that read names |
| AccessProofs.RefusalRestsOnARead | apps/data-api/src/auth.ts:46-78 | a request is refused only for a header without a key, or on a read of its key that did not confirm it, less than 5 s old |
| AccessProofs.RevocationTakesEffect | apps/data-api/src/auth.ts:13-15 | a revoked key stops working at most one lifetime and one longest read later |
| AccessProofs.CacheIsBounded | apps/data-api/src/auth.ts:72-76 | the cache never exceeds 1000 entries |
| Outbox.Runner.ClaimOutboxMessages | apps/bot/src/api.ts:1119-1130 | claiming takes the rows in the statement that returns them |
| Outbox.Runner.RelayOne | apps/bot/src/outbox.ts:226-340 | one claimed row: edit or post, the one retry without buttons, the count and the recording |
| Outbox.Runner.RunOutbox | apps/bot/src/outbox.ts:183-343 | a run over the guilds is the fold its totals and safety are proved about |
| OutboxProofs.CopiesAreFaults | apps/bot/src/outbox.ts:226-340 | in every run of ticks, crashes at any row, expiring claims and re-queued messages, the copies of a row in Discord are exactly the one on record, the posts whose answer was lost and those whose recording never took effect |
| OutboxProofs.RetriesAreLicensed | apps/bot/src/outbox.ts:240-268 | a retry without buttons follows only a refusal of the post, or a failed edit of the same message, with them |
| OutboxProofs.EditsNeverPost | apps/bot/src/outbox.ts:230-251 | handling a row that carries a message id creates no message |
| OutboxProofs.OnceOnRecordNeverPosted | apps/bot/src/outbox.ts:230-251 | once a message is on record it is never posted again in any continuation of the run |
| OutboxProofs.TallyIsComplete | apps/bot/src/outbox.ts:195-204 | sent + failed is the rows claimed plus the claims that failed |
| OutboxProofs.ClaimsAreExclusive | apps/bot/src/api.ts:1119-1130 | one claim gives no row twice and none that is held |
| OutboxAnswers.ClosesExactlyWhenSaid | apps/bot/src/outbox.ts:226-340 | a row is closed exactly when Discord took an edit of its message or created its post, with the buttons or on the one retry without, and that was recorded; it carries that message |
| OutboxAnswers.CallsAreTheAnswers | apps/bot/src/outbox.ts:226-340 | the calls made for a row: first with its own buttons to its own message if it has one, at most one retry without, then the record |
| OutboxAnswers.HistoriesAreExplained | apps/bot/src/outbox.ts:226-340 | in every run each call in a row's history is followed by its retry exactly when it may be retried and otherwise by the record of its own outcome; a closed row was closed by a record of the message it carries |
| OutboxAnswers.SentAreSaid | apps/bot/src/outbox.ts:279-299 | a run counts as sent exactly the rows whose words Discord took |
| OutboxAnswers.WaitingAreGiven | apps/bot/src/api.ts:1119-1130 | a claim gives every row that was offered and waiting, and no other |
| OutboxAnswers.GuildHandles | apps/bot/src/outbox.ts:206-343 | every row a claim gives is handled once, from what it was, and no other row is touched |
| ScheduledEvents.Calendar.FetchActions | apps/player/src/app/api/discord/tournament-events/route.ts:279-430 | the diff: which tournaments are owed a create, an update or a cancel, as ScheduledEventDisplay.RunShows tells from what is then shown |
| ScheduledEvents.Calendar.RunAction | apps/bot/src/scheduled-event-sync.ts:142-249 | one action: Discord first, then the mapping, then one count |
| ScheduledEvents.Calendar.RunScheduledEventSync | apps/bot/src/scheduled-event-sync.ts:69-254 | a run over the guilds is the fold the theorems below are about |
| ScheduledEventProofs.LiveEventsStayMapped | apps/player/src/app/api/discord/tournament-events/route.ts:270-420 | in every run the mapping of an event that still exists is never cleared, and a mapping is pointed elsewhere exactly by a turn whose reading left it out, that owes its source a creation, and whose creation takes and is recorded |
| ScheduledEventProofs.LiveEventsAreFaults | apps/bot/src/scheduled-event-sync.ts:189-245 | live events of a source are at most one more than the creations whose answer or recording was lost and the times its mapping was pointed elsewhere, with any number of mappings |
| ScheduledEventProofs.UncutIsNotRedirected | apps/player/src/app/api/discord/tournament-events/route.ts:62-76 | with at most 150 mappings whenever a sync starts, no mapping is ever pointed elsewhere |
| ScheduledEventProofs.EveryActionIsCounted | apps/bot/src/scheduled-event-sync.ts:91-250 | every action is counted once; a failed guild read counts one; a missing permission counts its actions as failed |
| ScheduledEventProofs.CountersAreExact | apps/bot/src/scheduled-event-sync.ts:142-249 | which counter each action goes to, by its kind, its answer and, for an update, whether the event was still there |
| ScheduledEventProofs.GuildsAreApart | apps/bot/src/scheduled-event-sync.ts:89-97 | a run does to each guild what that guild's own turns do, in order |
| ScheduledEventProofs.LaterReadingOwes | apps/player/src/app/api/discord/tournament-events/route.ts:296-430 | after a fault-free sync, with any number of mappings, a later reading of the same tournaments owes a source nothing exactly when its mapping, if read, was read before too or is of an announced tournament, and if none is read its tournament is not wanted |
| ScheduledEventProofs.FaultlessSyncSettles | apps/player/src/app/api/discord/tournament-events/route.ts:296-430 | with at most 150 mappings before and after, a later reading after a fault-free sync owes nothing |
| ScheduledEventLimit.PastTheLimitEventsAreDoubled | apps/player/src/app/api/discord/tournament-events/route.ts:62-76 | two syncs of 151 running tournaments with every answer ok: the first of them ends with two live events, its mapping names the second, and nothing was lost |
| ScheduledEventDisplay.RunShows | apps/player/src/app/api/discord/tournament-events/route.ts:296-430 | in every run without faults, whatever is deleted by hand, a source is mapped exactly when the tournaments read so far say so, with the values they say, and its event shows what they say |
| ScheduledEventDisplay.UpdatesShow | apps/player/src/app/api/discord/tournament-events/route.ts:375-429 | after such a turn the event of an announced tournament that is not over carries its name; its times are the tournament's, the start no earlier than two minutes from now, exactly when something differed and neither start had passed, and otherwise they are as they were |
| ScheduledEventDisplay.CreationsShow | apps/player/src/app/api/discord/tournament-events/route.ts:341-374 | a tournament with no mapping read gets an event with its name, its end, and its start or two minutes from now; without an announcement it stays as it was |
| ScheduledEventDisplay.EventsShowTheirRecord | apps/player/src/app/api/discord/tournament-events/route.ts:381-402 | in every such run a live mapped event carries the recorded name and, unless the source was renamed after a start had passed, the recorded end and the recorded start or two minutes after it was sent |
| ScheduledEventDisplay.LateRenamingIsExact | apps/player/src/app/api/discord/tournament-events/route.ts:388-410 | such a renaming puts the record out of step with what is shown exactly when it comes with another end or a start that would not have been sent as the same |
| ScheduledEventDisplay.MovedTwiceIsMissed | apps/player/src/app/api/discord/tournament-events/route.ts:397-412 | a tournament renamed as it is moved into the past and again as it is moved to next week is announced for tomorrow, and no later reading owes it anything |
| ButtonIds.PagerRow | apps/bot/src/commands.ts:1607-1643 | no buttons at one page; otherwise previous and next, then go and find when given |
| ButtonIdProofs.AtMostOneGuard | apps/bot/src/commands.ts:4801-4836 | however an id came about, at most one prefix guard accepts it |
| ButtonIdProofs.GuardIsFirstSlot | apps/bot/src/commands.ts:4801-4836 | a guard accepts exactly the ids whose first slot is its word |
| ButtonIdProofs.NumberReads | apps/bot/src/commands.ts:1577-1580 | a printed number reads back as itself |
| ButtonIdProofs.ButtonRoundTrip | apps/bot/src/commands.ts:1555-1586 | an id reads back to its prefix, origin, action, number and location; the location exactly when it is not empty, not a dash and has no colon |
| ButtonIdProofs.ModalRoundTrip | apps/bot/src/commands.ts:1912-1975 | a modal keeps the action and the location slot of the button that opened it |
| ButtonIdProofs.IdsAreDistinct | apps/bot/src/commands.ts:1747-1768 | no two controls of one message share an id, whatever the pages and the location |
| ButtonIdProofs.PagingAsksForTheNeighbour | apps/bot/src/commands.ts:2073-2117 | a click on a pager asks for the page beside the one shown, under the same filter |
| ListAnswers.PagersAnswer | apps/bot/src/commands.ts:2073-2117 | previous and next, on every list: the page asked for, of the same list, in place of a private message and as a private one otherwise |
| ListAnswers.LocationAnswers | apps/bot/src/commands.ts:2252-2276 | the location select: the first page of the place chosen, with the old filter replaced, and no filter when nothing was chosen |
| ListAnswers.SearchesOpen | apps/bot/src/commands.ts:1912-1975 | go and find open the list's own modal, which carries which of them it was and the list's filter |
| ListAnswers.StrangersAreAcknowledged | apps/bot/src/commands.ts:4801-4836 | an id no list wrote, or a control a list has not got, changes nothing |
| ListAnswers.SubmitsAnswer | apps/bot/src/commands.ts:2124-2155 | a submitted modal answers its sender alone, with the list at the page asked for or with what the search found |
| ListAnswers.CommandsAnswer | apps/bot/src/commands.ts:2045-2060 | the two commands give their caller a private list |
| ListAnswers.PostAnswers | apps/bot/src/commands.ts:2195-2215 | the public snapshot is fetched as nobody and carries the controls of its list with public ids |
| ListMessages.RunIsSafe | apps/bot/src/commands.ts:1715-1905 | public messages only ever carry public ids, in every run of posts, ticks, clicks and submits |
| ListMessages.PrivateIdsSitOnPrivateMessages | apps/bot/src/commands.ts:1800-1868 | a message that ever carried an e-origin id is ephemeral |
| ListMessages.ClicksLeavePublicMessagesAlone | apps/bot/src/commands.ts:1715-1718 | no click or modal submit ever edits a message others can see |
| ListMessages.RowsStayWithTheirReader | apps/bot/src/commands.ts:2225-2290 | rows fetched for one member are shown on no message another can read |
| ListMessages.PagersTurnPages | apps/bot/src/commands.ts:1715-1727 | in every run, previous and next turn the page of the private message they are clicked on, and give a private copy when the message is public |
| ListMessages.CommandsShow | apps/bot/src/commands.ts:2045-2060 | in every run the two commands give their caller a private message with the page, or a line that there is none |
| ListMessages.PublicMessagesShow | apps/bot/src/commands.ts:2195-2215 | in every run the board and the snapshot show nobody's own rows and carry the controls of their list, and an edit of the board replaces them |
| CommandDiff.DiffCommandSets | apps/bot/src/register-commands.ts:268-298 | the three loops and the truncation compute the report the theorems are about |
| CommandDiffProofs.NormalizedAgree | apps/bot/src/register-commands.ts:191-211 | two options normalise alike exactly when every compared key agrees, at every depth below |
| CommandDiffProofs.FirstDifferenceIsExact | apps/bot/src/register-commands.ts:214-255 | a command has no difference exactly when every compared field agrees and Discord reports dm_permission |
| CommandDiffProofs.EmptyMeansSame | apps/bot/src/register-commands.ts:268-298 | the report is empty exactly when both sides name the same commands and every pair agrees |
| CommandReport.DifferenceIsTheFirst | apps/bot/src/register-commands.ts:214-255 | the difference named is exactly the first field, in the order they are compared, that does not agree; of the options the first that do not, at any depth |
| CommandReport.LinesAreExact | apps/bot/src/register-commands.ts:278-294 | there is a line for every command that is missing, that differs, with its first difference, or that is no longer defined, and no other |
| CommandReport.ReportIsShortened | apps/bot/src/register-commands.ts:296-298 | more than five lines become the first five and how many there were besides |
| CommandReport.RegisteredAreNamed | apps/bot/src/register-commands.ts:272-276 | of what Discord reports exactly the commands with a name are compared |
| CommandReport.DefinedAreAll | apps/bot/src/register-commands.ts:280-283 | what is defined here is all compared, a command without a name under the stand-in |
| CommandDiffProofs.MaxLengthChangeIsMissed | apps/bot/src/commands.ts:881-883 | two sets that differ only in max_length give an empty report |

## Left out

- Two board ticks at once from two processes: the in-flight flag is not a lock, as its own comment says.
- Store writes and board edits that land after a later tick began: assumed away, as stated above.
- RateLimit.TokenBuckets.Take: a bucket is a value written back under its id while it is still in the table, not a shared object; a bucket evicted in the call that topped it up is spent on unseen in the source, which no later call can tell.
- RateLimit.TokenBuckets.Refill: floating-point rounding is not modelled; tokens are real numbers and times whole milliseconds.
- KeyVerifier.Verifier.Inspect: the digest is an injective constructor rather than SHA-256, and the header is one string.
- Json.StringifyIsInjective: lone surrogates do not exist in Dafny strings, a number is held as the text it prints as, and a property holding `undefined`, which printing leaves out, is not represented.
- ButtonIdProofs.NumberReads: numbers past 2^53, where JavaScript loses digits, read back exactly here.
- ScheduledEvents.Calendar.FetchActions: the order in which the app lists its actions is the environment's, dates are already instants, and the number of skipped sources is given rather than counted.
- Outbox.Runner.ClaimOutboxMessages: the SQL that stops offering a row after three failures is the environment's choice of offers.
- GatewayConnection.Connection.Connect: the trace says whether a socket is opened to resume, not the text of the address; the log lines are not modelled.
- Reconcile.RunReconcile: members are given as a list; reading them from the app page by page is not modelled.
- Registry.ParseGuildRegistry: starts from the JSON value; the reading of the text itself and the wording of the refusals are not modelled, and names given twice in one object come in order.
- Message wording, embeds, modal fields and audit entries.
- `rpcPrefer` and its 60-second memory of a missing v2 function: one map with a deadline.
- The club-events source of the event sync, the announcement, feedback, match-result and session-ping relays: the same loop with other words.
- Elo, brackets, SQL functions, middleware, HTTP servers, logging, signatures and hashing.
