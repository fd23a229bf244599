# Verified core of self-quant

Dafny models of the parts of the self-quant backend whose guarantees only show over whole runs, and proofs
of those guarantees. Where a component is a protocol, its atomic sections and transactions are steps of a
state machine, a run is any interleaving of them, and the theorems quantify over every run. Where a
component is an object or a loop, it is a class or a method proved against the step function or the
specification that the theorems are about. Times are integers, rates are reals.

`dafny verify dfyconfig.toml` checks everything.

## What is modelled

- **Conversations of the assistant** (`Conversations`, `ConversationInvariants`, `ConversationRuns`,
  `ConversationTheorems`, `ConversationLimits`, `ConversationRepository`, `SummaryCandidates`,
  `SummaryRisk`, `LateAnswer`): turns, leases, retries, summaries and pruning. Message rows are held with their
  conversation row, whose lifetime they share. The summariser's two reads and its update are separate
  steps. Message serials may be interleaved with those of other conversations.
- **Token arithmetic and the prompt** (`TokenEstimate`, `PromptAssembly`): the estimate is proved to be the
  cost of the cheapest cutting of the text into tokens, and everything else about it follows from that.
- **Contract resolver** (`ResolverQueue`, `AliasCache`, `AliasRace`): the job queue with its in-flight and follow-up
  sets and its one-slot wake channel, the alias cache, and the store behind it.
- **Funding spreads** (`Pairing`, `SpreadBuilder`): the grouped, sorted and deduplicated pairing against
  the naive set of all pairable pairs.
- **Listing identity** (`ListingClaims`, `ListingIdentity`): the claim book, its agreement rule and the resolver.
- **Cursors** (`TradeFillSync`, `LighterHistory`): overlapping fill windows with an atomic cursor, and
  backward paging against an arbitrary venue.
- **Guards in time** (`RateLimiter`, `DailyClaim`, `SessionCache`): the sliding window, the once-a-day claim
  of many processes, and the session status cache.

## What does not hold, and exactly when it does

- A completed answer can be pruned without ever having been summarised (`LateAnswer.CompletedAnswerCanBeLost`).
  When its candidates are read, an attempt can still lose exactly the answers that are at risk then: complete
  ones before the previous summary, and unfinished ones whose turn holds the lease or whose question survives
  (`SummaryRisk.SelectedLosableExactlyWhenAtRisk`). User messages are never lost.
- A request can exceed the token budget, for every context, summary and prompt under some budget
  (`PromptAssembly.SummaryCanCrowdPrompt`). It does so exactly when the summary was included and leaves the prompt no room (`PromptAssembly.AssembledIsWithinBudgetUnlessCrowded`).
- Lighter history can miss one row that lies exactly on the start of the window (`LighterHistory.SkipHappens`);
  `LighterHistory.NewestExactlyUnlessSkipped` gives the exact case, which cannot arise for rows two or more
  seconds apart (`LighterHistory.SpacedHistoryIsExact`).
- The daily sync can be queued twice for one day when a call stalls between its check and its lock attempt
  (`DailyClaim.StalledCallQueuesTwice`). A run stays within once per day exactly when no step of it takes the free
  lock of a day whose queuer has gone on to a later day (`DailyClaim.OncePerDayExactlyWhenNeverReopened`), so prompt
  calls queue once (`DailyClaim.QueuedAtMostOncePerDay`).
- Explicit constituent edges can depend on the order of the instruments in the catalogues
  (`ListingIdentity.OrderCanDecide`). They do not exactly when no contract is given two listings
  (`ListingIdentity.EdgesIgnoreOrderExactlyWhenSingleValued`).
- Concurrent workers can leave a cached contract that is no longer found under its own name, because a job reads
  the cache three times (`AliasRace.SelfListingBreaks`). Jobs of ordinary references suffice. It happens exactly when some stored contract lists its own
  name as an alias (`AliasRace.InOrderExactlyWhenNoContractListsItself`), as rows merged by the canonical migration
  do; it cannot happen with one worker at a time (`AliasCache.SoleReachable`).
- Merging jobs loses instruments exactly when the first job has instruments but an empty key
  (`ResolverQueue.MergeConservesExactlyWhenKeyed`); a reference's cache key is never empty.
- A fill can fall behind the sync windows without being stored, and then stays missing while the venue keeps to the
  windows and no sync asks for an end before the cursor (`TradeFillSync.LongerDelayLosesAFill`). This happens exactly when fills may stay hidden for more than four minutes and a nanosecond
  (`TradeFillSync.NothingFallsBehindExactlyWithinFourMinutes`): of the five minutes of overlap, one is used up by
  requests that run ahead of the clock.

## Model

| member | source | states |
|---|---|---|
| `ConversationRuns.Reachable` | backend/internal/ai/conversation_repository.go:265-593 | After every run each conversation has unique turns and client ids, an answer row behind every user message, no user message inside the summary, and a pending answer behind its lease; each pending summary attempt still fits its conversation |
| `ConversationRuns.StepKeeps` | backend/internal/ai/conversation_repository.go:82-611 | Every transaction keeps all of that, and a conversation only evolves: rows keep identity, complete rows keep everything, version and covered id never go back |
| `ConversationRuns.LeasedAnswerIsPending` | backend/internal/ai/conversation_repository.go:424-455 | The row a committed finish writes is the pending answer of the active turn |
| `ConversationTheorems.ActiveTurnIsPending` | backend/internal/ai/conversation_repository.go:265-461 | In every reachable state the active turn has its answer row, and that row is pending |
| `ConversationTheorems.FinishesConsumeGrants` | backend/internal/ai/conversation_repository.go:265-461 | In every run, committed finishes of a turn plus the lease it still holds never exceed the lease grants it received |
| `ConversationTheorems.CompletedIsFinal` | backend/internal/ai/conversation_repository.go:265-461 | A complete message is identical in every later state in which it still exists, whatever finishes, resumes or new turns happen in between |
| `ConversationTheorems.GoneStaysGone` | backend/internal/ai/conversation_repository.go:360-378 | A message number that is gone from a conversation is never used again in it |
| `ConversationTheorems.OnlySummariesPrune` | backend/internal/ai/conversation_repository.go:549-593 | A message leaves a surviving conversation only by a committed summary update that covers it, and only when complete |
| `ConversationTheorems.UpdateAdvances` | backend/internal/ai/conversation_repository.go:549-593 | Every committed update strictly increases both version and covered id, however stale its reads were |
| `ConversationTheorems.SurvivorsArePastSummary` | backend/internal/ai/conversation_repository.go:577-585 | Every surviving user message lies past the covered id and still has a later answer row |
| `ConversationTheorems.SummarisedTurnsAreNotResumed` | backend/internal/ai/conversation_repository.go:280-318 | A resumed turn's user message always lies past the summary |
| `ConversationTheorems.NewestSurvive` | backend/internal/ai/conversation_repository.go:514-530 | When at least R messages were complete at the second read, the R newest of them survive that attempt's update |
| `ConversationTheorems.PrunedExceptLateAnswers` | backend/internal/ai/summary.go:77-138 | Every pruned user message is in the transcript; what the transcript holds is what is pruned; a pruned answer is absent exactly when it was not complete at the read or lies before the last summary |
| `SummaryRisk.LosableExactlyWhenAtRisk` | backend/internal/ai/summary.go:77-138 | At the moment the candidates are read: some continuation of the run lets this attempt lose an answer if and only if the attempt is still open and the answer is complete but before the last summary, or unfinished with its lease held or its question surviving |
| `SummaryRisk.SelectedLosableExactlyWhenAtRisk` | backend/internal/ai/summary.go:77-138 | The same right after every successful second read of the candidates, from every run |
| `SummaryRisk.LostWasAtRisk` | backend/internal/ai/conversation_repository.go:265-593 | Over every later run, what an attempt loses was at risk when its candidates were read |
| `SummaryRisk.AtRiskCanBeLost` | backend/internal/ai/conversation_repository.go:280-318 | From every answer at risk a continuation that loses it: the lease holder gives up, the question is resent, the turn finishes, the update prunes |
| `SummaryRisk.AbandonedStays` | backend/internal/ai/conversation_repository.go:265-461 | An unfinished answer whose turn holds no lease and has no question left is never completed in any run |
| `LateAnswer.CompletedAnswerCanBeLost` | backend/internal/ai/summary.go:77-138 | A run that ends in a complete answer being pruned though no transcript ever held it |
| `ConversationLimits.UnexpiredAreCapped` | backend/internal/ai/conversation_repository.go:82-122 | In every run no owner has more unexpired conversations than the maximum |
| `ConversationLimits.ExpiredStaysExpired` | backend/internal/ai/conversation_repository.go:320-331 | An expired conversation is never revived |
| `ConversationLimits.MessagesAreCounted` | backend/internal/ai/conversation_repository.go:341-395 | In every run the raw messages stay within their cap and the counter equals surviving plus pruned messages |
| `ConversationRepository.Repository.CreateConversation` | backend/internal/ai/conversation_repository.go:82-122 | The counting transaction is the creation step and keeps all rows sound |
| `ConversationRepository.Repository.CountUnexpired` | backend/internal/ai/conversation_repository.go:98-106 | The count is the number of the owner's conversations that have not expired |
| `ConversationRepository.Repository.BeginTurn` | backend/internal/ai/conversation_repository.go:265-405 | Retry, resume, new turn and every refusal, with their rollbacks, are the begin step, and all rows stay sound |
| `ConversationRepository.Repository.StartTurn` | backend/internal/ai/conversation_repository.go:320-405 | A full conversation rolls the lease back; otherwise abandoned answers are stopped and the new pair is added |
| `ConversationRepository.Repository.ResumeTurn` | backend/internal/ai/conversation_repository.go:280-318 | A complete turn is only reported, a busy conversation refused, and an unfinished turn reopened |
| `ConversationRepository.FindClient` | backend/internal/ai/conversation_repository.go:627-670 | The lookup finds the one row with the client's id |
| `ConversationRepository.Repository.FinishTurn` | backend/internal/ai/conversation_repository.go:407-461 | The answer is written only if the turn still holds the lease; otherwise nothing changes |
| `ConversationRepository.Repository.UpdateSummary` | backend/internal/ai/conversation_repository.go:549-593 | Version check, summary and pruning are one step, which keeps all rows sound for any id the conversation has reached |
| `ConversationRepository.Repository.DeleteConversation` | backend/internal/ai/conversation_repository.go:198-213 | Only the owner's unexpired conversation goes, with its messages |
| `ConversationRepository.Repository.DeleteExpired` | backend/internal/ai/conversation_repository.go:595-611 | At most the limit is removed, only expired ones, earliest first, and all of them if the limit was not reached |
| `Conversations.AtOffsetCounts` | backend/internal/ai/conversation_repository.go:520-526 | The id at an offset has exactly that many newer ids; there is none exactly when there are too few |
| `SummaryCandidates.LoadCandidates` | backend/internal/ai/conversation_repository.go:503-547 | The ascending list of the oldest candidates up to the limit, complete when below it |
| `SummaryCandidates.PrefixIsTranscript` | backend/internal/ai/summary.go:101-116 | Each prefix of that list is exactly the complete messages past the last summary up to its last message |
| `TokenEstimate.EstimateTokens` | backend/internal/ai/summary.go:23-48 | Rounding up whole ASCII runs when they end costs the same as charging each character that opens a token |
| `TokenEstimate.NoCuttingIsCheaper` | backend/internal/ai/summary.go:23-48 | No way of cutting a text into tokens costs less than its estimate |
| `TokenEstimate.EstimateIsCheapest` | backend/internal/ai/summary.go:23-48 | Some cutting costs exactly the estimate, so the estimate is the minimum |
| `TokenEstimate.EstimateSubadditive` | backend/internal/ai/summary.go:23-48 | A joined text never costs more than its parts |
| `TokenEstimate.EstimateMonotone` | backend/internal/ai/summary.go:23-48 | A prefix never costs more than the text |
| `TokenEstimate.LongestPrefix` | backend/internal/ai/summary.go:50-65 | For any measure that grows with prefixes the binary search finds the longest prefix within the budget |
| `TokenEstimate.TruncateToTokenBudget` | backend/internal/ai/summary.go:50-65 | For the token estimate the result is the longest prefix within the budget, and empty when the budget is negative |
| `TokenEstimate.Transcribe` | backend/internal/ai/summary.go:101-116 | For any subadditive measure the loop keeps as many whole lines as fit and the joined text fits too |
| `TokenEstimate.BuildTranscript` | backend/internal/ai/summary.go:94-116 | As many whole lines as fit, in order; the joined transcript is within the limit though only its parts were measured; the covered id is that of the last line |
| `PromptAssembly.GroupTurns` | backend/internal/ai/service.go:444-462 | Turns in order of first appearance, each with its last user and assistant text |
| `PromptAssembly.SelectPairs` | backend/internal/ai/service.go:463-476 | The kept turns are the newest complete ones, as many as fit and are allowed, and no longer suffix fits |
| `PromptAssembly.AppendHistory` | backend/internal/ai/service.go:477-482 | The selection is put back in chronological order |
| `PromptAssembly.Open` | backend/internal/ai/service.go:428-442 | The longest context that fits beside the prompt, then the summary exactly when it still fits |
| `PromptAssembly.AssembleProviderMessages` | backend/internal/ai/service.go:419-485 | Context, summary, the longest fitting chronological suffix of complete turns, and the prompt, in this order |
| `PromptAssembly.AssembledIsWithinBudgetUnlessCrowded` | backend/internal/ai/service.go:240-244 | What is assembled for an accepted prompt exceeds the budget if and only if the included summary leaves the prompt no room; then no history is kept and the excess is below the prompt's own tokens |
| `PromptAssembly.OverBudgetExactlyWhenSummaryCrowdsPrompt` | backend/internal/ai/service.go:419-485 | The same bound for any estimate and any request made of these parts |
| `PromptAssembly.SummaryCanCrowdPrompt` | backend/internal/ai/service.go:434-442 | For the code's own estimate and every context, non-empty summary, history and prompt: a budget that accepts the prompt, leaves the context whole, includes the summary and is exceeded by the assembled request |
| `ResolverQueue.TradefiService.Enqueue` | backend/internal/funding/tradefi.go:194-212 | A job joins its in-flight follow-up, its queued twin, or the queue, and only the last one signals |
| `ResolverQueue.TradefiService.Pop` | backend/internal/funding/tradefi.go:243-253 | The oldest job leaves the queue and its key becomes in flight |
| `ResolverQueue.TradefiService.Finish` | backend/internal/funding/tradefi.go:255-263 | The key leaves flight and its follow-up, if any, is queued |
| `ResolverQueue.MergeConservesExactlyWhenKeyed` | backend/internal/funding/tradefi.go:214-226 | Merging keeps all instruments of both jobs, in order, if and only if the first job has a key or no instruments |
| `ResolverQueue.Reachable` | backend/internal/funding/tradefi.go:183-263 | Under every interleaving queued keys are distinct and not in flight, follow-ups are in flight, each key has one worker, no wake-up is lost, and per key the submitted instruments are those handed over, then held, then waiting, in order |
| `ResolverQueue.OneResolvePerKey` | backend/internal/funding/tradefi.go:228-263 | Two workers never resolve one key at a time |
| `ResolverQueue.QuiescentMeansAllHanded` | backend/internal/funding/tradefi.go:183-263 | When the wake slot is empty and no worker drains, every submitted instrument was handed to resolve once and in order, and the queue state is blank |
| `ResolverQueue.EveryStepReducesWork` | backend/internal/funding/tradefi.go:183-263 | Without further submissions every step of a worker strictly reduces the work left |
| `ResolverQueue.WorkersDrainEverything` | backend/internal/funding/tradefi.go:183-263 | From every reachable state the workers alone come to rest with everything submitted handed over, once and in order |
| `ResolverQueue.LoopWillSee` | backend/internal/funding/tradefi.go:183-212 | Without synchronous drains, whenever jobs are queued the wake slot is full or the loop itself is inside drain |
| `ResolverQueue.ReferencesAreKeyed` | backend/internal/exchange/underlying.go:101-104 | Jobs submitted under the cache keys of references always have a key |
| `AliasCache.Cache.Remember` | backend/internal/funding/tradefi.go:514-532 | Old copies of the resolution go and it is found under exactly its symbol and non-empty aliases |
| `AliasCache.RememberKeepsCacheOk` | backend/internal/funding/tradefi.go:514-532 | Every key names its value and the value's symbol slot holds the same value, before and after |
| `AliasCache.Cache.Restore` | backend/internal/funding/tradefi.go:113-141 | After a restart every contract row is found under its symbol, every row without one is served under its key by itself or by a contract that took the key, and nothing but rows is cached |
| `AliasCache.Restart` | backend/internal/funding/tradefi.go:113-141 | A new cache filled from the rows of a canonical store is in order and holds only stored rows, which is where the runs start |
| `AliasCache.CanonicalOwners` | backend/internal/funding/tradefi.go:285-294 | The list holds every entry stored under its own symbol, once |
| `AliasCache.MergeAliases` | backend/internal/funding/repository.go:1324-1338 | The first occurrences of the non-empty aliases, in order |
| `AliasCache.FirstOccurrencesContents` | backend/internal/funding/repository.go:1324-1338 | Those are the same aliases, without repetition |
| `AliasCache.SavedIsCanonical` | backend/internal/funding/repository.go:1184-1312 | Saving a canonical resolution leaves a canonical store |
| `AliasCache.ContractsOnlyGain` | backend/internal/funding/repository.go:1259-1338 | A contract never loses an alias or a pair, whatever is saved |
| `AliasCache.DecimalInjective` | backend/internal/funding/repository.go:1241-1241 | Different contract ids have different symbols |
| `AliasCache.ReferenceKeysArePlain` | backend/internal/exchange/underlying.go:101-104 | The cache keys of routable references never look like the name of a contract |
| `AliasCache.Reachable` | backend/internal/funding/tradefi.go:321-366 | When no stored contract lists its own name, cache and store stay canonical under every interleaving of any number of workers, each with its three separate reads, its lookups, its save and its store |
| `AliasCache.SoleReachable` | backend/internal/funding/tradefi.go:321-366 | With one worker at a time, as the started service has, they stay so from every canonical store |
| `AliasCache.CacheStaysOk` | backend/internal/funding/tradefi.go:321-366 | In both cases every key names its value and every value is found under its own symbol, in every run |
| `AliasCache.EachResolutionIsPublishedOnce` | backend/internal/funding/tradefi.go:285-294 | In both cases the published list is exactly the cached resolutions, each once, at most one per contract id |
| `AliasRace.InOrderExactlyWhenNoContractListsItself` | backend/internal/funding/tradefi.go:321-366 | From a restored cache, any number of workers on jobs of routable references keep it in order (every key names its value, and the value's symbol slot holds that value) in every run if and only if no stored contract lists its own name as an alias |
| `AliasRace.SelfListingBreaks` | backend/internal/funding/tradefi.go:321-366 | From any cache and any store with such a contract, a run of jobs of routable references after which a cached contract is not found under its own name |
| `Pairing.PairableIsSymmetric` | backend/internal/funding/pairing.go:53-160 | Pairability does not depend on the order of the rates |
| `Pairing.PairableShareSymbol` | backend/internal/funding/pairing.go:31-86 | Any two pairable rates share a pairing symbol |
| `Pairing.SpreadKeyIsSymmetric` | backend/internal/funding/pairing.go:162-169 | The key does not depend on the order of the rates |
| `Pairing.SpreadKeyIsInjective` | backend/internal/funding/pairing.go:162-169 | Equal keys mean the same two identities, in one order or the other |
| `SpreadBuilder.SortSorts` | backend/internal/funding/spread.go:67-72 | The stable sort orders by exchange, then symbol |
| `SpreadBuilder.SortContents` | backend/internal/funding/spread.go:67-72 | The sort keeps the multiset of rates |
| `SpreadBuilder.GroupRates` | backend/internal/funding/spread.go:47-55 | Each symbol's group is its usable rates in order |
| `SpreadBuilder.Deduplicate` | backend/internal/funding/spread.go:74-79 | The first rate of each exchange |
| `SpreadBuilder.RepresentativesAreOnePerExchange` | backend/internal/funding/spread.go:66-79 | Representatives come from the group and have strictly increasing exchanges |
| `SpreadBuilder.RepresentativeIsLeast` | backend/internal/funding/spread.go:66-79 | Every rate of a group has a representative of its exchange with no larger symbol |
| `SpreadBuilder.EmitGroup` | backend/internal/funding/spread.go:80-92 | The inner loops emit only offers of this symbol with new keys, and leave no offer without its key |
| `SpreadBuilder.BuildSpreads` | backend/internal/funding/spread.go:46-95 | The spreads realise emissions with distinct keys that are exactly the offers of all symbols, each under its first symbol |
| `SpreadBuilder.EachPairExactlyOnce` | backend/internal/funding/spread.go:46-95 | For well-formed rates with one rate per exchange and symbol each pairable pair is emitted exactly once |
| `SpreadBuilder.OnlyPairablePairs` | backend/internal/funding/spread.go:46-95 | Nothing but pairs of usable, pairable input rates is emitted |
| `SpreadBuilder.SpreadEarnsItsFundingGap` | backend/internal/funding/spread.go:97-137 | The annualised spread is the absolute hourly gap scaled to a year, so it is never negative, and unless both fund equally the spread does not depend on the order |
| `ListingClaims.ClaimBook.Add` | backend/internal/exchange/identity.go:46-65 | One claim is one step of the book |
| `ListingClaims.CollectedRepresents` | backend/internal/exchange/identity.go:41-65 | A key is poisoned exactly when one source made two different claims under it; otherwise the book holds exactly the claims made |
| `ListingClaims.BookIgnoresOrder` | backend/internal/exchange/identity.go:41-65 | The same claims in any order and with any repetition give the same book |
| `ListingClaims.ClaimBook.Agree` | backend/internal/exchange/identity.go:67-90 | Whatever the order of the map walk, a listing is returned exactly when no key is poisoned, all entries name it and two venues made them |
| `ListingClaims.AgreesExactlyWhenUnanimous` | backend/internal/exchange/identity.go:41-90 | In terms of the claims alone: agreement if and only if every acceptable claim under the keys names the listing and two venues made such claims |
| `ListingIdentity.CollectEvidence` | backend/internal/exchange/identity.go:113-147 | The loop collects the claims and edges of the catalogue |
| `ListingIdentity.CatalogueOrderIsIrrelevant` | backend/internal/exchange/identity.go:113-147 | Catalogues with the same instruments give the same claim book |
| `ListingIdentity.OrderCanDecide` | backend/internal/exchange/identity.go:113-140 | Any two different listings under one contract give a two-instrument catalogue whose edge is the last one's, so swapping the instruments changes it |
| `ListingIdentity.EdgesIgnoreOrderExactlyWhenSingleValued` | backend/internal/exchange/identity.go:113-140 | The edges of a catalogue are the same for every order of its instruments if and only if no contract is given two listings |
| `ListingIdentity.ApplyIdentities` | backend/internal/exchange/identity.go:96-107 | Every target gets the resolver's verdict on the collected evidence |
| `ListingIdentity.PassIgnoresOrder` | backend/internal/exchange/identity.go:96-147 | When no contract is given two listings, a whole pass does not depend on the order of the catalogues |
| `ListingIdentity.AppliedIsReadBack` | backend/internal/exchange/identity.go:210-269 | An applied listing is routable and is read back unchanged |
| `ListingIdentity.AssignedExactlyWhenEveryWitnessAgrees` | backend/internal/exchange/identity.go:149-208 | The proposed listing is assigned if and only if every native, edge, present, previous and annotated listing is that one; otherwise the identity becomes unroutable |
| `ListingIdentity.ClaimedListingIsUnanimous` | backend/internal/exchange/identity.go:184-208 | Without own evidence an instrument changes only when the claims of at least two venues are unanimous, and takes their listing unless something standing contradicts it |
| `ListingIdentity.UntouchedOtherwise` | backend/internal/exchange/identity.go:150-152 | Ineligible instruments and those without a proposal are returned untouched |
| `ListingIdentity.ConflictIsRejected` | backend/internal/exchange/identity.go:158-170 | Conflicting constituents always give an unroutable identity |
| `ListingIdentity.FailedRequestKeepsPrevious` | backend/internal/exchange/identity.go:153-157 | A failed request keeps the routable previous identity unless an annotation contradicts its listing |
| `TradeFillSync.Repository.SaveFills` | backend/internal/account/trade_repository.go:50-113 | New ids are inserted, known ones kept, the count is the growth of the store, and the cursor moves with them |
| `TradeFillSync.Repository.SaveSyncError` | backend/internal/account/trade_repository.go:115-132 | A recorded error leaves the fills and the cursor as they were |
| `TradeFillSync.SyncRecord` | backend/internal/account/report_source.go:102-127 | One sync asks for the overlapped window and either stores it and moves the cursor to its end, or changes neither |
| `TradeFillSync.InsertAllContents` | backend/internal/account/trade_repository.go:64-83 | Inserting keeps what was stored and adds every missing id |
| `TradeFillSync.StoredFillsStay` | backend/internal/account/trade_repository.go:50-113 | No step of any run changes or removes a stored fill |
| `TradeFillSync.Reachable` | backend/internal/account/report_source.go:76-127 | Under every interleaving of syncs of one account the stored history has no hole up to five minutes before the cursor |
| `TradeFillSync.EveryFillIsStored` | backend/internal/account/report_source.go:76-127 | Each fill between the start of the stored history and five minutes before the cursor is stored under its id, when fills become visible within four minutes; one nanosecond more of delay costs only the last nanosecond |
| `TradeFillSync.LongerDelayLosesAFill` | backend/internal/account/report_source.go:76-127 | For every longer delay a run after which a fill of the stored history is missing, lies before every window the next sync can choose, and is stored by no continuation whose fetches keep to their windows and whose ends are not before the cursor |
| `TradeFillSync.StaysMissing` | backend/internal/account/report_source.go:76-127 | A fill that cursor and windows have passed is not stored by any such continuation, overlapping and failed syncs included |
| `TradeFillSync.NothingFallsBehindExactlyWithinFourMinutes` | backend/internal/account/report_source.go:76-127 | No fill falls behind in any run of any market if and only if all fills become visible within four minutes and a nanosecond |
| `LighterHistory.Absorb` | backend/internal/exchange/lighter.go:502-528 | One page adds exactly its new in-window stamps, without duplicates, and yields its earliest stamp |
| `LighterHistory.FetchHistory` | backend/internal/exchange/lighter.go:471-546 | Against any venue the loop ends with distinct ascending rows inside the window; against a venue that serves a history it returns its newest rows except in the skip case |
| `LighterHistory.ServingIsHonest` | backend/internal/exchange/lighter.go:487-498 | Every history of positive times has a venue that serves it |
| `LighterHistory.NewestIsUnique` | backend/internal/exchange/lighter.go:483-537 | The newest rows of a window are uniquely determined |
| `LighterHistory.NewestExactlyUnlessSkipped` | backend/internal/exchange/lighter.go:483-537 | A complete run returns the newest rows if and only if it is not the skip case |
| `LighterHistory.SpacedHistoryIsExact` | backend/internal/exchange/lighter.go:483-537 | Rows two or more seconds apart always come back complete |
| `LighterHistory.SkipHappens` | backend/internal/exchange/lighter.go:483-546 | A fetch from an honest venue that lacks exactly the row on the start of the window, though far fewer rows than wanted were returned |
| `RateLimiter.Limiter.Allow` | backend/internal/gateway/broker_auth.go:159-176 | One call prunes the key's hits and records itself exactly when it is allowed |
| `RateLimiter.Compact` | backend/internal/gateway/broker_auth.go:164-169 | Compaction inside one buffer keeps exactly the recent hits in order |
| `RateLimiter.StoredSeesHistory` | backend/internal/gateway/broker_auth.go:148-176 | Pruning is invisible: stored hits and the whole history of allowed calls agree from the latest cutoff on |
| `RateLimiter.AllowedExactlyWhenRoom` | backend/internal/gateway/broker_auth.go:148-176 | In every clocked run a call is allowed if and only if fewer than the limit of allowed calls of its key lie strictly inside the trailing window |
| `RateLimiter.WindowIsRespected` | backend/internal/gateway/broker_auth.go:148-176 | Any limit + 1 consecutive allowed calls of one key span at least the window |
| `DailyClaim.Reachable` | backend/internal/account/fee_sync.go:219-278 | In every run of any number of processes locks and holders match, and each process holds the lock of the newest day it queued |
| `DailyClaim.OncePerDayExactlyWhenNeverReopened` | backend/internal/account/fee_sync.go:219-278 | In every run of any number of processes, each day is queued at most once and no pending claim is about to repeat one if and only if no step took the free lock of a day whose queuer had gone on to a later day |
| `DailyClaim.QueuedAtMostOncePerDay` | backend/internal/account/fee_sync.go:219-278 | When lock attempts are made on the day their call started, all processes together queue each day at most once |
| `DailyClaim.LockReopensExactlyWhenHolderMovedOn` | backend/internal/account/fee_sync.go:242-255 | A day queued once can be locked again if and only if its process has queued a later day |
| `DailyClaim.StalledCallQueuesTwice` | backend/internal/account/fee_sync.go:225-255 | A run in which one day is queued twice, because a step of it reopened that day |
| `DailyClaim.LockTable.TryLock` | backend/internal/account/trading_repository.go:658-679 | The day's lock is taken exactly when it was free |
| `DailyClaim.FeeSync.Check` | backend/internal/account/fee_sync.go:220-230 | The call goes on only at hour eight and on a day this process has not settled |
| `DailyClaim.FeeSync.Claim` | backend/internal/account/fee_sync.go:242-255 | The process takes over the new lock and releases its old one, or gives the new one back if the day was settled meanwhile |
| `SessionCache.StatusCache.Validate` | backend/internal/account/service.go:157-218 | A live entry decides alone; otherwise the row decides and is remembered from the start of the call |
| `SessionCache.StatusCache.Invalidate` | backend/internal/account/service.go:220-228 | The named entry goes and no other changes |
| `SessionCache.Reachable` | backend/internal/account/service.go:157-229 | Under every interleaving of clock readings, cache lookups, row reads, late stores, invalidations and row changes, whatever is cached or answered was the row's value when it was read, less than a TTL before |
| `SessionCache.AnswersAreRecent` | backend/internal/account/service.go:185-218 | Every answer is a value the row had less than one TTL before the call started, or during it |
| `SessionCache.RejectedAfterTtl` | backend/internal/account/service.go:157-229 | Once no later row value accepts a token, every call that starts a TTL later rejects it |
| `SessionCache.SupersededTokenDies` | backend/internal/account/tenancy_repository.go:126-172 | A token older than a bumped version is rejected by every call that starts a TTL after the bump, for good |
| `SessionCache.BumpSupersedesExactlyWhenPositive` | backend/internal/account/token.go:46-51 | A bump raises the version that tokens are compared with if and only if the stored version was at least one |
| `SessionCache.BumpRetiresEarlierTokens` | backend/internal/account/tenancy_repository.go:126-172 | In every run of an account that starts at version one or later, each bump retires every token accepted before it, for every call that starts a TTL later |

## Left out

- Conversation titles, previews, model aliases, listings and renames: no guarantee beyond storing a text.
- Row locks and snapshots below a transaction: each transaction is one step, and its clock is the time of that step.
- The text of summaries and the provider calls: any text may be stored, and any prefix of the candidates may become the transcript.
- The finish paths of the stream handler: any reply may be passed to a finish at any time.
- Unicode script tables: the token estimate holds for any set of characters counted like the East Asian ones.
- Trimming and case folding of texts: texts are taken as already normalised.
- Float rounding: rates and multipliers are reals.
- The sorts of the spread builder and of Lighter history are functions on sequences, so their work in place is not captured.
- The Interactive Brokers lookups, the pair texts and the published rows of the resolver: lookups are arbitrary answers and pair matches are opaque texts.
- Cancellation of the resolver's worker loop, and un-migrated resolution rows: the store starts canonical, and a row without a contract is not named like one.
- Parsing of constituents, annotations, contract keys and listed currency pairs: instruments carry what was parsed.
- Venue clients, decoding of responses and per-venue instrument parsing: a page request is an arbitrary function.
- Hash collisions of the advisory locks and a crash of the process that holds one.
- Cryptography and expiry of tokens: a token is its claims.
- Hard deletion and re-creation of an account under the same name.
- Gateway routing, configuration, migrations, the web interface, and the trader, ranking and report services.
