# Forge runtime: verified models

Dafny models of the stateful components of the Forge runtime, with proofs of what those components
are for. `dafny verify dfyconfig.toml` checks everything.

The project follows the program's own structure. A component whose methods change state is a class
here, and each of its methods is proved against a function that gives the new state; the theorems are
about those functions and about whole runs of them. The three concurrent protocols (squad pool, web
sessions, squad tasks) and the durable sessions are step systems: every critical section is one atomic
step, waits and timeouts are steps of their own, and the theorems hold in every interleaving.

| module | models |
|---|---|
| `Json`, `Canonical`, `CanonicalWriter`, `JsonParser` | the canonical JSON printer, as a specification and as the loop that writes into a buffer, and a parser that undoes it (strings as in section 7 of RFC 8259) |
| `Hashing`, `Ledger` | the hash chain of the ledger and the table behind it |
| `Chat`, `PromptCache` | requests, turns, the cache key and the caching generator |
| `EventStore`, `DurableSession` | the append-only store with optimistic heads, and any number of sessions over it |
| `AgentLoop`, `Lifetime` | the tool-use loop, and the life of a conversation through runs, compactions, persists, crashes and reopens |
| `Permission`, `RuleStore` | first-match evaluation and the persisted rules laid over a profile |
| `RateLimiter` | the sliding window |
| `SquadPool` | semaphore and free list, with failing acquires |
| `Broadcast`, `SessionHub`, `SessionTasks` | web sessions: log, subscribers, permission requests; and the same hub under its busy discipline |
| `SquadHub` | squad tasks: log, subscribers, human gate, kill switch |
| `Text`, `Sse`, `OpenAi`, `Anthropic`, `Gateway`, `Provider` | the streaming parser, both aggregators, the loop that connects them |
| `LspFraming`, `LspSession` | Content-Length framing on bytes, and a language-server session over it |
| `Diff` | the line diff, and reading it back as a patch |

## What the proofs say about the code

* **The ledger.** The hash is any function onto 64-character digests. Nothing is assumed about
  collisions (an injective function onto digests does not exist); every theorem says "or here are two
  different texts of these tables with one digest". The module comment of
  crates/forge-store/src/ledger.rs:3 promises that `verify_chain` detects any retroactive change. It does
  not: it accepts exactly the tables whose hash columns an honest run of appends of the same contents would
  have written (`AcceptedExactlyIfAppended`), so a table cut short, or with rows rewritten up to the last
  together with their hashes, still verifies (`PrefixVerifies`, `RewrittenTailVerifies`). What is detected is
  a content that no longer fits the hash columns, at its own row (`EditBreaksChainThere`). A remembered head
  hash tells every change of content (`HeadBindsTable`). The row number `seq` is not hashed.
* **The cache key** omits `max_tokens` (crates/forge-cli/src/cache.rs:34-39), so "the same request" means
  agreement on the five keyed fields; a temperature that is absent and one that is not a finite number
  share a key.
* **Server-sent events.** The comment at crates/forge-llm/src/sse.rs:27 says "\r\n\r\n" is tolerated as the end
  of an event. It is not: an event ends exactly where two line feeds are adjacent
  (`WaitsExactlyWithoutBlank`), so a stream written with carriage returns and line feeds throughout delivers
  nothing at all (`CrLfDeliversNothing`). Writing an event and reading it gives it back exactly when its name is
  trimmed and on one line and no line of its data ends in a carriage return (`RoundTripExactly`).
* **Fallback between providers.** `generate` goes on to the next provider after one that failed, whatever that
  one has already streamed. What a person saw is then the text of the failed ones followed by that of the turn,
  and agrees with the turn exactly if the failed ones showed nothing (`TurnIsAllShownExactly`).
* **The squad pool.** An acquire that fails after its pop gives the permit back but not the slot. The promise
  in the `expect` message at crates/forge-sidecar/src/service.rs:240 holds exactly as long as no slot has leaked
  (`PanicExactlyAfterLeak`), and one failure breaks it (`FailureLeadsToPanic`).
* **Web sessions.** `request_permission` clears whatever is pending at its end. Under the busy discipline this is its
  own request; without it two overlapping calls, which the hub permits (`OverlapHappens`), silence each other
  (`OverlappingCallsCollide`). In any schedule at all, the answer to a request counts exactly until another call
  enters its session, a call of the session leaves, or it is answered (`AcceptedExactlyIfUndisturbed`).
  `subscribe` creates sessions without asking for the limit, so no bound on their number is claimed. A subscriber
  loses events exactly when one comes while 256 are waiting for it (`LosesExactlyWhenFull`, `SubscriberSeesTheLog`).
* **Squad tasks.** Anybody may subscribe under any name, and the subscription creates the task
  (crates/forge-cli/src/squad_agent.rs:157-172, 647-651). If the name is one the hub has still to issue,
  `new_task` later overwrites that entry: a task finished and stopped under it is live and not stopped again,
  and its subscribers are cut off (`SubscribedNameComesBack`), each having been sent the log of the old task
  unless it fell 256 events behind (`CutOffHasTheLog`). Exactly those names come back to life
  (`LiveAgainExactlyIfIssuable`). "Names that can no longer be issued" are the names of tasks already inserted
  (`IssuedOnce`) and all names of another form; for them a finish and a stop are for good. A second abort
  handle, or a new task under the name, displaces the first handle, which the kill switch then misses; nothing
  else does (`StopAfterRegister`). A gate asked for after the kill switch is still put up and can be granted
  (`GateAfterStopCanBeGranted`).
* **Messages aggregation** goes to the block started last, whatever index a delta names. This is the same as
  honouring the index exactly as long as every delta names that block or would change neither that block nor
  the one it names (`AgreesExactlyIfHarmless`), in particular on streams whose blocks arrive one after
  another. Text behind a block of another kind is shown but not kept, and text a block opens with is kept but
  not shown; nothing else makes the turn differ from what was shown (`ShownIsKeptExactly`).
* **Agent loop.** A turn that stops for another reason than tool use may leave tool uses unanswered, and
  after a compaction two user messages may be adjacent. So what is proved is pairing of uses and results, not
  alternation of roles.
* **The line diff** is called "not an applicable patch" in its own comment
  (crates/forge-tools/src/diff.rs:8-10). It is one: read by position alone it turns the old lines into the new
  ones and back (`ExactPatch`), and no hunk that does so is smaller (`SmallestChange`).
* **Rate limiter.** A poll reads the clock before it takes the lock (crates/forge-llm/src/rate_limit.rs:60-61), so
  the readings behind the lock need not be in order. In order, the promise holds (`RunNeverExceeds`,
  `DecidesByHistory`). When a reading may be behind by some lag, it holds for intervals shorter than the window
  by that lag and for no longer ones; only with a maximum of one does the lag cost nothing (`LagCosts`). With a
  maximum of zero every poll panics, otherwise none does (`PanicsExactlyAtZero`).

Histories carried along with a state (`answers`, `closedAt`, message origins, the admissions of a
limiter) are read by no modelled code; they only let a theorem speak about the past.

## Model

| member | source | states |
|---|---|---|
| Decimal.ValueOfPrint | crates/forge-schemas/src/canonical.rs:48 | a printed natural number reads back as itself |
| Decimal.ParseIntOfPrintInt | crates/forge-schemas/src/canonical.rs:48 | a printed signed integer reads back as itself |
| Json.DenoteMembersAt | crates/forge-schemas/src/canonical.rs:24-34 | an object read as a finite map gives every key of the list its own value |
| Json.SameKeysSameMap | crates/forge-schemas/src/ledger.rs:46-53 | two records with the same keys mean the same exactly when they agree field by field |
| Canonical.SortSorts | crates/forge-schemas/src/canonical.rs:26-27 | sorting the members of an object gives the same members in strictly ascending key order |
| Canonical.NormalizeCorrect | crates/forge-schemas/src/canonical.rs:22-50 | sorting at every level yields a normal form with the meaning of the value |
| Canonical.NormalFormUnique | crates/forge-schemas/src/canonical.rs:22-50 | two normal forms with one meaning are one value, so insertion order leaves no trace |
| CanonicalWriter.SortedLookup | crates/forge-schemas/src/canonical.rs:27-34 | looking up the sorted keys one by one visits the members of the normal form in order |
| CanonicalWriter.WriteCanonical | crates/forge-schemas/src/canonical.rs:22-50 | the recursive writer appends exactly the canonical text to the buffer |
| CanonicalWriter.WriteMembers | crates/forge-schemas/src/canonical.rs:24-37 | the key loop appends the sorted members with commas and braces |
| CanonicalWriter.WriteItems | crates/forge-schemas/src/canonical.rs:38-47 | the item loop appends the items with commas and brackets |
| CanonicalWriter.CanonicalText | crates/forge-schemas/src/canonical.rs:16-20 | the text in a new buffer is the canonical text |
| JsonParser.ParseCharsOfEscape | crates/forge-schemas/src/canonical.rs:32 | unescaping an escaped string up to the closing quote gives the string back |
| JsonParser.ParsePrint | crates/forge-schemas/src/canonical.rs:22-50 | the parser recovers every printed value followed by any delimiter, and the rest of the input |
| JsonParser.PrintInjective | crates/forge-schemas/src/canonical.rs:22-50 | two values print alike only if they are the same value |
| JsonParser.CanonicalInjective | crates/forge-schemas/src/canonical.rs:16-50 | two values have the same canonical text exactly when they are equal with objects read as finite maps |
| JsonParser.ParseCanonical | crates/forge-schemas/src/canonical.rs:16-20 | parsing the canonical text of a value gives a value of the same meaning and the rest of the input |
| Ledger.BodyInjective | crates/forge-schemas/src/ledger.rs:45-55 | two entries have the same body text exactly when they have the same kind, actor, payload, override, marker and time |
| Ledger.PreimageInjective | crates/forge-schemas/src/ledger.rs:58-60 | previous hash and body can be told apart in their concatenation |
| Ledger.HashBindsHistory | crates/forge-store/src/ledger.rs:110-140 | one entry hash in two verified tables stands in the same row over the same contents, or the tables exhibit a collision |
| Ledger.HeadBindsTable | crates/forge-store/src/ledger.rs:110-140 | verified tables end in the same hash if and only if they have the same length and the same content in every row, unless they exhibit a collision |
| Ledger.AcceptedExactlyIfAppended | crates/forge-store/src/ledger.rs:110-140 | verification accepts a table if and only if its hash columns are those of a run of appends of its own contents |
| Ledger.RewrittenTailVerifies | crates/forge-store/src/ledger.rs:110-140 | any rows cut from the end and any contents chained in their place are accepted; the last hash differs unless nothing changed or a collision is found |
| Ledger.EditBreaksChainThere | crates/forge-store/src/ledger.rs:125-135 | rewriting the content of one row and leaving both hash columns alone breaks the chain at that row and no other, unless nothing changed or a collision is found |
| Ledger.PrefixVerifies | crates/forge-store/src/ledger.rs:110-140 | a table cut short still verifies, but ends in another head hash, or exhibits a collision |
| Ledger.AppendKeepsChain | crates/forge-store/src/ledger.rs:57-79 | the row an append writes keeps a verified table verified |
| Ledger.RunOfAppends | crates/forge-store/src/ledger.rs:57-79 | every run of appends gives a verified table that holds exactly the appended contents, numbered from one |
| Ledger.LedgerStore.Append | crates/forge-store/src/ledger.rs:57-79 | adds one row chained to the last, whatever derived fields the entry came with, and keeps a verified table verified |
| Ledger.LedgerStore.VerifyChain | crates/forge-store/src/ledger.rs:110-140 | succeeds exactly on a chain, with its length; otherwise reports the first row that breaks it and the hash expected there |
| Chat.MessageInjective | crates/forge-cli/src/cache.rs:34-39 | two messages have the same JSON meaning exactly when they are the same up to key order in tool inputs |
| Chat.KeyTextInjective | crates/forge-cli/src/cache.rs:31-42 | two requests have the same key text exactly when they agree on model, system, tools, messages and temperature |
| PromptCache.CachedGenerator.Get | crates/forge-store/src/prompt_cache.rs:33-45 | the stored turn of a key, or nothing |
| PromptCache.CachedGenerator.Put | crates/forge-store/src/prompt_cache.rs:47-53 | replaces the row of one key |
| PromptCache.CachedGenerator.Generate | crates/forge-cli/src/cache.rs:46-87 | answers from the table when it can, else asks and stores only a success; a failing read is a miss and a failing write is ignored |
| PromptCache.TableBacked | crates/forge-cli/src/cache.rs:81-85 | every stored turn was a real answer to a request with that key |
| PromptCache.AnswersAreReal | crates/forge-cli/src/cache.rs:46-87 | every answer has the content, stop reason and usage of a real answer to a request that agrees on the keyed fields (or collides), from its provider or that name with one "+cache"; errors come only from asking |
| PromptCache.AskedOncePerRequest | crates/forge-cli/src/cache.rs:53-86 | without storage faults a request answered once is not sent again |
| EventStore.AppendCorrect | crates/forge-store/src/events.rs:108-154 | an append adds its whole batch behind its aggregate's log or changes nothing; other aggregates are untouched and both tables stay in step |
| EventStore.RunConsistent | crates/forge-store/src/events.rs:108-154 | after any run of appends every aggregate holds exactly seqs one to head |
| EventStore.HeadsGrow | crates/forge-store/src/events.rs:108-154 | heads and logs only grow along a run |
| EventStore.OneWinnerPerHead | crates/forge-store/src/events.rs:122-128 | of the writers holding one head at most one gets a non-empty batch in |
| EventStore.Store.Append | crates/forge-store/src/events.rs:108-154 | the insert loop with its running number yields the specified tables and result, conflict included |
| EventStore.Store.HeadSeq | crates/forge-store/src/events.rs:185-194 | the head of an aggregate, zero if it has none |
| EventStore.Store.Read | crates/forge-store/src/events.rs:157-182 | the rows of one aggregate after a number, in order and without gap |
| DurableSession.ReplayIsLastEpoch | crates/forge-core/src/session.rs:73-95 | replaying a log leaves exactly the messages since its last epoch event |
| DurableSession.ReplayMessages | crates/forge-core/src/session.rs:141-158 | replaying a log with messages appended gives the replay followed by those messages |
| DurableSession.OpenedFaithful | crates/forge-core/src/session.rs:46-104 | opening with any head read earlier, others having committed since, gives a session that is current only if it holds the committed history |
| DurableSession.OpensExactly | crates/forge-core/src/session.rs:46-104 | a session that was new when its head was read starts the log unless somebody did in between; any other gets the messages since the last epoch as they now are, against the head read first, or names the first message that cannot be read |
| DurableSession.PersistedFaithful | crates/forge-core/src/session.rs:141-158 | persisting keeps the session faithful; if it was current the committed history becomes its messages; a conflict changes nothing |
| DurableSession.PersistsExactly | crates/forge-core/src/session.rs:141-158 | with messages pending, persisting succeeds if and only if the head is current; then the log grows by exactly those messages in order, their number is returned, and nothing is pending at the new head; a refusal names both heads, and with nothing pending nothing happens |
| DurableSession.CompactedFaithful | crates/forge-core/src/session.rs:110-132 | compaction replaces history and log by the summary together, or changes nothing |
| DurableSession.CompactsExactly | crates/forge-core/src/session.rs:110-132 | a compaction succeeds if and only if the head is current; then the log grows by the epoch and its baseline, and the session holds the baseline alone, at the new head, one epoch later |
| DurableSession.StepKeepsInv | crates/forge-core/src/session.rs:46-158 | every step of any session keeps every session faithful, and logs only grow |
| DurableSession.RunKeepsInv | crates/forge-core/src/session.rs:46-158 | in every interleaving a session whose head is the store's head holds the replay of the log and its number of epochs |
| DurableSession.ReopenRestores | crates/forge-core/src/session.rs:46-104 | after a crash a session opened anew gets exactly the committed history, epoch and head of the lost one |
| DurableSession.WorkSurvives | crates/forge-core/src/session.rs:46-158 | what a current session adds and persists is there when it crashes and another one opens, with nobody in between |
| DurableSession.ReplayEvents | crates/forge-core/src/session.rs:73-95 | the replay loop computes replay and epoch count, or reports the first message that cannot be read |
| DurableSession.Session.FinishOpen | crates/forge-core/src/session.rs:53-104 | the second statement of opening, on the store as it then is |
| DurableSession.Session.Compact | crates/forge-core/src/session.rs:110-132 | session and store move together as specified, nothing moves on a conflict, which occurs exactly as `CompactsExactly` says |
| DurableSession.Session.PersistNew | crates/forge-core/src/session.rs:141-158 | session and store move together as specified, nothing moves on a conflict, which occurs exactly as `PersistsExactly` says |
| Permission.FirstMatchDecides | crates/forge-core/src/permission.rs:34-45 | the least matching rule decides, and with no match the answer is to ask |
| Permission.OverlayDecides | crates/forge-core/src/permission.rs:51-55 | overrides decide wherever one of them matches, else the base |
| RuleStore.RunValid | crates/forge-store/src/rule_store.rs:97-147 | after any run of sets and removals, keys (profile, tool, scope) and ids are unique |
| RuleStore.ListingOrdered | crates/forge-store/src/rule_store.rs:163-172 | the listing of a profile puts scoped rules first and newer ones before older ones |
| RuleStore.KeyedEvaluation | crates/forge-cli/src/web_agent.rs:648-656 | the newest scoped rule whose prefix fits decides, else the matrix rule of the tool, else the profile's first match |
| RuleStore.SetTakesEffect | crates/forge-store/src/rule_store.rs:97-125 | a set decides every scope it covers at once and changes no other decision of any tool, profile or scope |
| RuleStore.MatrixSetYields | crates/forge-store/src/rule_store.rs:163-172 | setting a matrix rule changes nothing where a scoped rule applies |
| RuleStore.RemoveTakesEffect | crates/forge-store/src/rule_store.rs:142-147 | removing a rule changes nothing where it did not decide |
| RuleStore.RemoveReveals | crates/forge-store/src/rule_store.rs:142-147 | removal leaves exactly the rules of other ids; where the removed rule decided, the next one in rank decides, or the profile if no other applies |
| RuleStore.Store.Set | crates/forge-store/src/rule_store.rs:97-125 | deletes the rule of that key, adds the new one under a fresh id, keeps keys unique |
| RuleStore.Store.Remove | crates/forge-store/src/rule_store.rs:142-147 | removes the rule of an id and says whether there was one |
| RuleStore.Store.ListForProfile | crates/forge-store/src/rule_store.rs:163-172 | yields the ordered listing of a profile |
| AgentLoop.RunTool | crates/forge-core/src/agent_loop.rs:183-249 | the model is told a whole output unchanged, a truncated one with a note that names the file with the rest, a failure by its message, an unknown or refused tool by its name; start and finish are reported with the success, the changes and the first line; the person is asked exactly when the rules ask |
| AgentLoop.ResultTells | crates/forge-core/src/agent_loop.rs:183-249 | what every call hands back to the model, case by case |
| AgentLoop.EventsReport | crates/forge-core/src/agent_loop.rs:183-249 | what every call reports: nothing, a refusal, or its start and then its finish with success, changes and the beginning of the first line or the error |
| AgentLoop.RunsByFirstRule | crates/forge-core/src/agent_loop.rs:190-204 | a registered call runs exactly if the first rule that fits its own scope allows it, or asks, or no rule fits, and the person says yes |
| AgentLoop.RunTools | crates/forge-core/src/agent_loop.rs:164-173 | the tool uses of a turn are answered one by one, in order |
| AgentLoop.ContinueRun | crates/forge-core/src/agent_loop.rs:117-249 | appends whole rounds of turn and answers and at most one final turn, the turns being those generated, with at most the step limit of generate calls and exactly two messages per step when it runs out; each generate call is sent the whole conversation so far; the results tell what became of each call; the tools started are in order exactly the calls registered and allowed, or asked and told yes; the questions put are in order exactly the calls that ask; every start is followed by its finish; the text shown is what the generate calls streamed, and every turn that ends well is reported |
| Lifetime.TurnKeepsPaired | crates/forge-core/src/agent_loop.rs:152-178 | a user turn, however it ends, keeps tool uses and results paired |
| Lifetime.SafeBoundaryCutsNothing | crates/forge-core/src/compaction.rs:55-63 | at a safe boundary every tool use of a turn that stopped for tool use has been answered |
| Lifetime.StepKeepsLife | crates/forge-cli/src/main.rs:543-576 | every step of every session keeps every conversation and every committed history paired |
| Lifetime.LifeStaysPaired | crates/forge-cli/src/main.rs:621-635 | in every interleaving of runs, failures, compactions, persists, crashes and reopens, results directly follow the uses they answer, same ids in order |
| Lifetime.CompactionIsSafe | crates/forge-cli/src/main.rs:555-565 | compaction never runs on a conversation that ends in a tool use, and cuts off no answer |
| Lifetime.MaybeCompact | crates/forge-cli/src/main.rs:544-576 | a compaction happens if and only if it is forced or due, at a safe boundary, with a summary, and nobody else has committed; then conversation and history are one message that ends with the summary; otherwise nothing changes and the error says which failed |
| Lifetime.RunAndPersist | crates/forge-cli/src/main.rs:622-635 | what is added is the text of the person and behind it exactly what this run of the loop appends, with how it ends; all of it is committed if and only if nobody else has committed, and nothing otherwise; the conversation stays paired |
| Lifetime.UserTurn | crates/forge-cli/src/main.rs:621-635 | one round of the program: given up exactly if a due compaction fails, with nothing changed; otherwise the text and the run behind it follow the conversation, or the summary if it was compacted, and are committed exactly if the head was current |
| SquadPool.StepKeepsInv | crates/forge-sidecar/src/service.rs:232-272 | every step keeps free, held and leaked slots a partition without repeats and the permits counted |
| SquadPool.SlotsMatchPermits | crates/forge-sidecar/src/service.rs:232-241 | free plus leaked slots equal free permits plus clients between permit and pop or push and release |
| SquadPool.NoLeakNoPanic | crates/forge-sidecar/src/service.rs:237-241 | without failing acquires a client with a permit always finds a slot |
| SquadPool.LeakLeadsToPanic | crates/forge-sidecar/src/service.rs:256-262 | from any state with a leaked slot, a schedule without further failure reaches the panic |
| SquadPool.PanicExactlyAfterLeak | crates/forge-sidecar/src/service.rs:237-262 | the panic is reachable without further failure if and only if a slot has leaked |
| SquadPool.FailureLeadsToPanic | crates/forge-sidecar/src/service.rs:232-262 | from a new pool of any capacity one failing acquire leaks a slot and makes the panic reachable |
| SquadPool.PoolSafety | crates/forge-sidecar/src/service.rs:232-323 | in every interleaving no slot has two holders, counts add up, and without failures nobody panics |
| SquadPool.SquadPool.PopFree | crates/forge-sidecar/src/service.rs:237-241 | takes the last free slot, as the step system says |
| SquadPool.SquadPool.DropLease | crates/forge-sidecar/src/service.rs:318-323 | pushes the slot before the permit is released |
| SquadPool.SquadPool.DropPermit | crates/forge-sidecar/src/service.rs:256-262 | a failing acquire returns the permit alone |
| RateLimiter.AtMostMaxPerWindow | crates/forge-llm/src/rate_limit.rs:25-28 | admissions spaced a window apart up to a slack never exceed the maximum in any half-open interval a slack shorter than the window |
| RateLimiter.AdmissionKeepsSpacing | crates/forge-llm/src/rate_limit.rs:62-72 | an admission by the queue, its reading behind by at most a lag, keeps every admission a window after those a maximum or more before, up to that lag |
| RateLimiter.RunNeverExceeds | crates/forge-llm/src/rate_limit.rs:59-82 | for every run of polls in clock order no window of any position holds more than the maximum of admissions |
| RateLimiter.LagCosts | crates/forge-llm/src/rate_limit.rs:60-72 | the clock is read before the lock is taken: when readings may be behind by a lag, an interval of a length never holds more admissions than the maximum in any run if and only if it is that lag shorter than the window (or no longer than the window, if the maximum is one) |
| RateLimiter.DecidesByHistory | crates/forge-llm/src/rate_limit.rs:59-82 | in clock order the pruned queue decides as counting all past admissions would; waits lie in (0, window] and are exact; an error exactly when the wait exceeds the bound |
| RateLimiter.PanicsExactlyAtZero | crates/forge-llm/src/rate_limit.rs:73 | after any run of polls the `expect` on the front of the queue fails if and only if the maximum is zero |
| RateLimiter.WaitIsExact | crates/forge-llm/src/rate_limit.rs:73-81 | the returned wait is exact: a later poll is admitted if and only if it comes that much later |
| RateLimiter.WaitedPoll | crates/forge-llm/src/rate_limit.rs:73-81 | a waiting poll that meets nobody is admitted if and only if the front of the queue is a window old by then; the time it was told is exact unless it read the clock before that front |
| RateLimiter.RefusedOnlyIfShort | crates/forge-llm/src/rate_limit.rs:74-92 | whatever others poll meanwhile and however clocks are read, a call is refused only if the bound is below the window |
| RateLimiter.AloneWithinTwoPolls | crates/forge-llm/src/rate_limit.rs:85-92 | a call that sleeps as told and meets nobody between its polls has its place, or an error, within two polls |
| RateLimiter.Limiter.Poll | crates/forge-llm/src/rate_limit.rs:59-82 | for any queue and reading, the queue and the outcome of the functions the theorems are about, the panic included |
| RateLimiter.Limiter.Prune | crates/forge-llm/src/rate_limit.rs:62-68 | the loop pops the longest run from the front that is a window old or older |
| RateLimiter.Limiter.Acquire | crates/forge-llm/src/rate_limit.rs:85-92 | polls until admitted, refused or still asleep when the schedule ends, with any polls of others in between |
| Broadcast.LosesExactlyWhenFull | crates/forge-cli/src/web_agent.rs:145-222 | a subscriber loses something if and only if some event comes while its buffer of 256 is full; otherwise it has, taken or waiting, every event that came, in order |
| SessionHub.StepKeepsInv | crates/forge-cli/src/web_agent.rs:186-308 | every step keeps requests, pending marks, answers and subscribers consistent |
| SessionHub.GrantedOnlyByItsAnswer | crates/forge-cli/src/web_agent.rs:228-308 | in every interleaving a request returns true only if an accepted answer named its own id on its session with allow, and no id is answered twice |
| SessionHub.StaleAnswerChangesNothing | crates/forge-cli/src/web_agent.rs:287-308 | an answer is accepted exactly when it names the pending request; a wrong or stale one changes nothing |
| SessionHub.AnswerIsReturned | crates/forge-cli/src/web_agent.rs:253-259 | a request answered before it wakes can only return that answer, whatever happens |
| SessionHub.PeopleSeeWhatTheyAllow | crates/forge-cli/src/web_agent.rs:228-260 | in every interleaving a waiting request is shown in its session's log, and an id shown anywhere is that of a request of that session for exactly the tool and scope shown |
| SessionHub.AskedForGood | crates/forge-cli/src/web_agent.rs:228-259 | in every interleaving a request keeps the session, tool and scope it was asked with |
| SessionHub.SubscriberSeesTheLog | crates/forge-cli/src/web_agent.rs:198-222 | in every interleaving, from the moment it attaches, a subscriber has lost something if and only if some event came while 256 were waiting; otherwise snapshot, events taken and events waiting are the log |
| SessionHub.SessionHub.EnsureSession | crates/forge-cli/src/web_agent.rs:186-196 | finds the session, creates it, or refuses at the limit |
| SessionHub.SessionHub.Publish | crates/forge-cli/src/web_agent.rs:198-204 | the log grows and subscribers hear of it together |
| SessionHub.SessionHub.Subscribe | crates/forge-cli/src/web_agent.rs:210-222 | the snapshot handed out is the log at the moment the subscription starts |
| SessionHub.SessionHub.BeginRequest | crates/forge-cli/src/web_agent.rs:229-244 | a fresh number, then the request becomes the pending one |
| SessionHub.SessionHub.EndRequest | crates/forge-cli/src/web_agent.rs:253-259 | the answer sent, or a refusal; and whatever was pending is cleared |
| SessionHub.SessionHub.ResolvePermission | crates/forge-cli/src/web_agent.rs:287-308 | takes the pending request and answers it if the id matches, else changes nothing |
| SessionHub.SessionHub.TryStart | crates/forge-cli/src/web_agent.rs:263-273 | sets the busy mark of an idle session, else refuses |
| SessionHub.SessionHub.FinishBusy | crates/forge-cli/src/web_agent.rs:277-282 | clears the busy mark |
| SessionTasks.MovesKeep | crates/forge-cli/src/web_agent.rs:515-611 | runs under the busy discipline keep one task per session and each open request the pending one |
| SessionTasks.OneTaskPerSession | crates/forge-cli/src/web_agent.rs:263-282 | no session ever has two running tasks, and it accepts one exactly when it has none |
| SessionTasks.AnswerInTimeCounts | crates/forge-cli/src/web_agent.rs:228-308 | while a task waits, the matching answer is accepted and is the one returned in every continuation |
| SessionTasks.OverlapHappens | crates/forge-cli/src/web_agent.rs:228-252 | the hub itself lets a second call begin while the first waits |
| SessionTasks.OverlappingCallsCollide | crates/forge-cli/src/web_agent.rs:239-259 | two calls that overlap in one session silence each other |
| SessionTasks.AcceptedExactlyIfUndisturbed | crates/forge-cli/src/web_agent.rs:228-305 | without the busy discipline, in every schedule: from its entry on, the answer naming a request is accepted if and only if no other call has entered its session, no call of it has left, and no answer to it was accepted |
| SquadHub.HexInjective | crates/forge-cli/src/squad_agent.rs:125 | task numbers print to distinct names |
| SquadHub.StepKeepsInv | crates/forge-cli/src/squad_agent.rs:124-291 | every step keeps logs, subscribers, pending gates and answers consistent |
| SquadHub.IssuedOnce | crates/forge-cli/src/squad_agent.rs:125-127 | the name of an inserted task is not issued again |
| SquadHub.NeverLiveAgain | crates/forge-cli/src/squad_agent.rs:146-151 | under a name that can no longer be issued, the live sender of a finished task never comes back |
| SquadHub.LiveAgainExactlyIfIssuable | crates/forge-cli/src/squad_agent.rs:124-151 | for every name: a finished task comes back to life in some run if and only if its name is that of a number drawn and not inserted, or still to be drawn |
| SquadHub.SubscriberSeesTheLog | crates/forge-cli/src/squad_agent.rs:131-172 | from the moment it attaches to a live task, while no new task is inserted under the name, a subscriber has lost something if and only if some event came before the finish while 256 were waiting; otherwise snapshot, events taken and events waiting are the log up to the finish |
| SquadHub.StaysExactlyWithoutInsertion | crates/forge-cli/src/squad_agent.rs:123-172 | in every run a subscriber stays in the table if and only if no new task is inserted under the name |
| SquadHub.CutOffHasTheLog | crates/forge-cli/src/squad_agent.rs:123-172 | a subscriber that such an insertion cuts off has been sent the whole log of the old task up to the finish unless some event found 256 waiting, and the new entry starts without log and subscribers |
| SquadHub.StopAfterRegister | crates/forge-cli/src/squad_agent.rs:238-266 | for every name and every run in between: a handle registered once is aborted by a later kill switch if and only if the task was already stopped, or no other registration and no new task under the name came before the first kill switch |
| SquadHub.RegisterAfterStop | crates/forge-cli/src/squad_agent.rs:238-266 | for every name and every run in between: a handle registered after a kill switch is aborted at once if and only if no new task under the name took the stop mark away; under a name that can no longer be issued it always is |
| SquadHub.AnswerIsReturned | crates/forge-cli/src/squad_agent.rs:179-206 | an answer while a gate is pending and has not returned is accepted and is what the gate returns, whatever happens afterwards |
| SquadHub.PendingGateRefusedAtStop | crates/forge-cli/src/squad_agent.rs:260-268 | a gate pending at the kill switch never returns true |
| SquadHub.OrphanIsRefused | crates/forge-cli/src/squad_agent.rs:180-191 | a gate displaced by a later one never returns true |
| SquadHub.GrantedOnlyByAnswer | crates/forge-cli/src/squad_agent.rs:179-206 | a gate returns true only if true was accepted for its task while it was pending, and no gate gets two answers |
| SquadHub.SquadHub.CreateTask | crates/forge-cli/src/squad_agent.rs:124-129 | draws a fresh number, then puts an empty live task under its name |
| SquadHub.SquadHub.Publish | crates/forge-cli/src/squad_agent.rs:131-139 | the log always grows, subscribers hear of it while the task is live |
| SquadHub.SquadHub.FinishTask | crates/forge-cli/src/squad_agent.rs:146-151 | drops the live sender and nothing else |
| SquadHub.SquadHub.Subscribe | crates/forge-cli/src/squad_agent.rs:157-172 | the log so far, and a receiver exactly while the task is live |
| SquadHub.SquadHub.BeginGate | crates/forge-cli/src/squad_agent.rs:180-187 | the gate becomes the pending one, stopped or not |
| SquadHub.SquadHub.ResolveHitl | crates/forge-cli/src/squad_agent.rs:196-206 | answers the pending gate once, refuses when there is none |
| SquadHub.SquadHub.Register | crates/forge-cli/src/squad_agent.rs:238-247 | keeps the handle, or aborts it at once if the task was stopped |
| SquadHub.SquadHub.EmergencyStop | crates/forge-cli/src/squad_agent.rs:254-283 | marks, aborts, refuses the pending gate, publishes the notice and finishes; nothing for an unknown task |
| Sse.DrainSplit | crates/forge-llm/src/sse.rs:24-35 | draining a piece early or together with the next one yields the same events and buffer |
| Sse.DrainIsComplete | crates/forge-llm/src/sse.rs:28-33 | no complete event stays in the buffer |
| Sse.DeliversNothingExactly | crates/forge-llm/src/sse.rs:37-55 | a block delivers no event if and only if it has neither a data line nor an event line |
| Sse.LastNameWins | crates/forge-llm/src/sse.rs:41-44 | the name of an event is that of its last event line |
| Sse.PushAllIsOnePush | crates/forge-llm/src/sse.rs:24-35 | for every split of a text the events and the final buffer are those of one push |
| Sse.ChunkingIndependent | crates/forge-llm/src/sse.rs:24-35 | two cuts of one text cannot be told apart |
| Sse.WaitsExactlyWithoutBlank | crates/forge-llm/src/sse.rs:27-33 | a text waits in the buffer as it is if and only if no two of its line feeds are adjacent |
| Sse.CrLfDeliversNothing | crates/forge-llm/src/sse.rs:27-33 | a text with every line feed written as carriage return and line feed delivers nothing, however it is cut |
| Sse.RoundTripExactly | crates/forge-llm/src/sse.rs:37-55 | an encoded event parses back to itself, followed by the rest, if and only if its name is trimmed and on one line and no line of its data ends in a carriage return |
| Sse.SseParser.Push | crates/forge-llm/src/sse.rs:24-35 | the drain loop returns the complete events and keeps the rest |
| Sse.SseParser.ParseBlock | crates/forge-llm/src/sse.rs:37-55 | the line loop finds the last name and all data lines of a block |
| OpenAi.CallsByIndex | crates/forge-llm/src/openai.rs:166-183 | tool call i is put together from the fragments of index i alone, in order, however they interleave |
| OpenAi.InterleavingIndependent | crates/forge-llm/src/openai.rs:166-183 | two streams that agree on the fragments of every index yield the same calls |
| OpenAi.Aggregated | crates/forge-llm/src/openai.rs:148-190 | after any stream the text is the concatenation of the returned deltas and every call is assembled by its index |
| OpenAi.TurnOfStream | crates/forge-llm/src/openai.rs:148-217 | the finished turn says exactly the deltas and uses exactly the assembled calls in index order |
| OpenAi.LastCounts | crates/forge-llm/src/openai.rs:148-217 | stop reason and token counts of the turn are the last ones sent, and the defaults if none were |
| OpenAi.UseOf | crates/forge-llm/src/openai.rs:200-209 | a tool use has the id and name of its call, and the arguments read as JSON or an empty object |
| OpenAi.StopOf | crates/forge-llm/src/openai.rs:210-217 | which finish reasons stop for tools, for length, or end the turn |
| OpenAi.TurnAggregator.Handle | crates/forge-llm/src/openai.rs:148-190 | one datum updates text, calls, reason and usage as specified and returns its delta |
| OpenAi.TurnAggregator.MergeFragments | crates/forge-llm/src/openai.rs:166-183 | the loops that grow the list and append to its entries compute the merge |
| OpenAi.TurnAggregator.Finish | crates/forge-llm/src/openai.rs:192-217 | text first if there is any, then every call, with the mapped stop reason |
| Anthropic.LastBlockIsIndexed | crates/forge-llm/src/anthropic.rs:106-138 | on streams whose blocks arrive one after another, appending to the last block agrees with honouring the index |
| Anthropic.BlocksAssembled | crates/forge-llm/src/anthropic.rs:106-138 | after any stream there is one block for each opened, in order; each is what it was opened with and, in order, the deltas of its kind that arrived while it was the last |
| Anthropic.TurnOfStream | crates/forge-llm/src/anthropic.rs:155-179 | the content of the finished turn is one block for each opened, a tool use with its id and name and the arguments that arrived for it read as JSON or an empty object; the tool uses are those blocks in order |
| Anthropic.LastCounts | crates/forge-llm/src/anthropic.rs:100-179 | stop reason and token counts of the turn are the last ones sent, and the defaults if none were |
| Anthropic.AgreesExactlyIfHarmless | crates/forge-llm/src/anthropic.rs:106-138 | on every stream that numbers its blocks in order, appending to the last block agrees with honouring the index all along if and only if every delta names the last block or would change neither that block nor the one it names |
| Anthropic.ShownIsKeptExactly | crates/forge-llm/src/anthropic.rs:106-138 | the text shown so far is the text kept so far, all along, if and only if no block opens with text and no text arrives where the last block is not text |
| Anthropic.TurnAggregator.Handle | crates/forge-llm/src/anthropic.rs:97-153 | one event updates blocks, stop reason and usage as specified and returns its delta |
| Gateway.CallProvider | crates/forge-llm/src/gateway.rs:125-152 | turn and deltas depend only on the text received, and the call fails exactly when a piece does, with the error of the first that does |
| Gateway.DeliveryIndependent | crates/forge-llm/src/gateway.rs:125-152 | two deliveries of one text build the same aggregate and show the same deltas |
| Provider.TurnSaysWhatWasShown | crates/forge-llm/src/gateway.rs:140-151 | chat completions: for any delivery the text of the turn is what was shown while it streamed |
| Provider.MessagesSayWhatIsShown | crates/forge-llm/src/gateway.rs:128-139 | messages: for any delivery the turn says what was shown, all along, if and only if no block opens with text and no text arrives behind another kind of block |
| Provider.CallWith | crates/forge-llm/src/gateway.rs:83-153 | one provider call, whichever stream it speaks: turn or error, and the deltas shown up to then |
| Provider.CallExactly | crates/forge-llm/src/gateway.rs:83-153 | a call fails exactly without a response or at a break, and says why; what it shows is all text of the events received by then |
| Provider.Generate | crates/forge-llm/src/gateway.rs:157-173 | the turn is that of the first provider that succeeds and the deltas are those of all that were tried; without a success the error names every failure, without a provider there is an error of its own |
| Provider.BarredConcat | crates/forge-llm/src/gateway.rs:172 | the failures of two lists of providers are joined by a bar |
| Provider.ChatCallSaysWhatItShowed | crates/forge-llm/src/gateway.rs:140-151 | a chat-completions call that succeeds returns the text it showed |
| Provider.MessagesCallSaysWhatItShowed | crates/forge-llm/src/gateway.rs:128-139 | so does a messages call whose blocks open without text and whose text meets text blocks only |
| Provider.TurnIsAllShownExactly | crates/forge-llm/src/gateway.rs:157-173 | what was shown is what the failed providers showed followed by the text of the turn, and is that text if and only if the failed ones showed nothing |
| LspFraming.MessageRoundTrip | crates/forge-tools/src/lsp.rs:435-463 | a written message is read back and not one byte more is consumed |
| LspFraming.FramingRoundTrip | crates/forge-tools/src/lsp.rs:435-463 | any list of bodies written one after another is read back, consuming exactly its bytes |
| LspFraming.FramingInjective | crates/forge-tools/src/lsp.rs:435-440 | two lists of bodies that write the same bytes are the same |
| LspFraming.OtherHeaderSkipped | crates/forge-tools/src/lsp.rs:445-460 | header lines of other names change nothing |
| LspFraming.CutMessage | crates/forge-tools/src/lsp.rs:442-464 | a message cut short is not taken for a message, except an empty one that lacks only its last line feed |
| LspFraming.Pipe.ReadMsg | crates/forge-tools/src/lsp.rs:442-464 | the header loop reads exactly one body, or reports the failure of the specification |
| LspSession.RequestMembers | crates/forge-tools/src/lsp.rs:197-203 | a request carries its id, method and parameters, and no reader takes it for an answer |
| LspSession.RequestIsAnswerable | crates/forge-tools/src/lsp.rs:216-220 | a request of that form, sent by the server, is one the client answers |
| LspSession.AnswerOf | crates/forge-tools/src/lsp.rs:211-214 | an answer with an error is that error, else its result, else null |
| LspSession.DiagnosticsRecognized | crates/forge-tools/src/lsp.rs:221-232 | diagnostics as a server publishes them are recognized, for their document, and ask for no reply |
| LspSession.OpenMembers | crates/forge-tools/src/lsp.rs:181-190 | an announcement is a notification with name, language and text of its document |
| LspSession.RepliesMatchRequests | crates/forge-tools/src/lsp.rs:468-484 | each answerable request of the server gets one reply, in order, under its own id; configuration requests get one null per item |
| LspSession.LastDiagnosticsKept | crates/forge-tools/src/lsp.rs:221-232 | the map holds the last diagnostics published for a document, or the old ones if none were |
| LspSession.IncomingOfWritten | crates/forge-tools/src/lsp.rs:435-464 | what a server writes with a codec that undoes itself is what the client reads |
| LspSession.LspProc.Request | crates/forge-tools/src/lsp.rs:197-234 | under a fresh id, returns the first answer to that id and no other message, having answered every server request before it and kept the diagnostics; else the reason reading stopped |
| LspSession.LspProc.Receive | crates/forge-tools/src/lsp.rs:216-232 | a message that is not the answer is answered, stored or ignored |
| LspSession.LspProc.EnsureOpen | crates/forge-tools/src/lsp.rs:177-192 | announces a document the first time and remembers it |
| LspSession.OpenedOnce | crates/forge-tools/src/lsp.rs:177-192 | however often documents are asked for, each is announced once, with its first text, unless open before |
| Diff.LineDiff | crates/forge-tools/src/diff.rs:25-78 | both scans and the output compute the specified diff of the two line lists |
| Diff.ReadWritten | crates/forge-tools/src/diff.rs:53-77 | the entries alone, by position, determine the hunk with its two counts of lines left out |
| Diff.ExactPatch | crates/forge-tools/src/diff.rs:25-78 | applied to the old lines the diff gives the new lines, and backwards the old lines |
| Diff.EmptyExactlyWhenEqual | crates/forge-tools/src/diff.rs:42-46 | the diff is empty exactly when the line lists are equal |
| Diff.SmallestChange | crates/forge-tools/src/diff.rs:29-41 | prefix and then suffix are maximal: no hunk that patches the old lines into the new removes or adds fewer lines |
| Diff.TwoLinesOfContext | crates/forge-tools/src/diff.rs:47-77 | two lines of context on each side, or all there are; the rest is counted |

## Left out

- SHA-256 itself, clocks and id generators: the hash is an arbitrary function, times and numbers are inputs.
- SQLite: a transaction either commits or has no effect; serialized bodies are assumed to read back as they were stored.
- HTTP handlers, event-stream transport, process spawning and kills, sandboxes, terminal and web front ends.
- `needs_compaction`, `estimate_tokens` and the summary request: a floating-point threshold on a length; whether compaction is due is an input, and so is the summary or its failure.
- `LedgerStore::recent`, `RuleStore::list_all`, `EventStore::aggregates`, `format_diff`: plain queries and formatting.
- The inbox of a squad task and its two methods: a queue beside the protocol.
- `ensure_started`, `position_query` and `diagnostics` of the language-server session: the handshake and time-bounded retries around `request`.
- Write failures of the language-server pipe, and file reads before opening a document.
- Fairness of waiters and real time in pool, limiter and hubs.
- A web task that panics before it clears its busy mark.
- LspFraming.Pipe.ReadMsg: a header line with a byte outside ASCII is refused here; the original accepts such a line when it is UTF-8.
- Sse.SseParser.Push: works on characters; the original decodes each piece of bytes on its own, so a cut inside one multi-byte character is outside the theorem.
- Anthropic.TurnAggregator.Handle: events arrive decoded; which JSON shape decodes to which event is not modelled, and likewise for OpenAi.TurnAggregator.Handle.
