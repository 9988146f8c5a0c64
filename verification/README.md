# Verified models of a game server's ranking, matchmaking and gateway logic

This project models five parts of the server in Dafny and proves what they promise.

**Leaderboard ranks.** `SkipListShape` and `SkipList` are the ranked skip list of `internal/skiplist`: nodes with
one forward link a level, each link carrying the number of elements it skips. The list refines a sorted sequence:
`Insert`, `Delete` and `Remove` keep every link and every span of every level exact, so that reading a rank by
summing spans gives the position. `RankOrder` and `Uuids` are the order of the records. `RankBoard` says what a rank
means (one more than the number of owners with a better record). `RankWarmup` is the life of one leaderboard's rank
cache as a state machine: submissions and deletions interleaved in any way with the start-up worker, which reads rows
one by one and ranks them a batch at a time. `RankCache` is that cache over the skip list.

**Matchmaking.** `MatchmakerGroups` holds the two searches over sub-collections of tickets, `MatchmakerAges` says
which group of tickets is dropped and how long its tickets have waited, and `MatchmakerPool` says what a match is.
`MatchmakerPacking` says how search hits are packed into parties and when a party is full, `MatchmakerTrimming` when a
party can be cut down to a multiple and what is left of it, both as functions and relations on tickets.
`MatchmakerProcess` is what the default matchmaker does for one active ticket, proved against them, and
`MatchmakerPass` is one whole pass, for every order of the active tickets, every search result and every outcome of the
query comparisons, and what a ticket meets with over several passes.

**REST gateway.** `PathTemplates` compiles path templates to opcode programs and runs the programs on a stack
machine; `RequestPaths` splits and joins paths; `QueryFilter` is the double-array trie that names the fields a query
may not set; `Dispatch` is the multiplexer. `RouteTable` holds the 93 registered endpoints (template, stored
program, what the handler reads); `RouteChecks` and `RouteDispatch` prove facts about all of them.
`RequestAssembly` builds the request message from body, path and query. `HandlerFamilies` holds what the handlers that
call the server directly read, endpoint by endpoint, and relates them to the handlers that call it over a connection.
`EndpointConnection` is the dialled connection, in every interleaving with the context and the closing goroutine.

**Command-line flags.** `SliceFlags` models Go slices as windows on a backing array, with what earlier `Get` results
see later; `IntegerFlags` the bounded integer flags.

**Installation id.** `Cookie` is the file the id is kept in, over every sequence of starts with failing reads and
failing or truncated writes.

`Options`, `Sequences` and `Powers` hold shared vocabulary.

## What turned out not to hold

- **Ranks after start-up.** A row the worker has read is overtaken when, at the time its batch is ranked, its owner is
  not cached with that very record: because of a submission or a deletion since it was read, or of another record that
  was cached before. The batch ranks it all the same, and the stale entry stays on the list for the rest of the
  cache's life (`ExcessStays`, `RunKeepsExcess`). Over every run, with any number of batches, the list agrees with the
  owners at the end if and only if no batch was ranked with an overtaken row (`WarmUpMirrorsIff`).
  `OvertakenRowMisplaces` is a run in which the leader is placed second; the count of entries a reader is given is
  then too large (`CountTellsAgreement`).
- **Deletions during start-up** do not last: a row of the owner that is read afterwards brings it back
  (`RemovedOwnerReturns`). An owner is cached at the end of a run if and only if a submission or a row of it is followed
  by no deletion (`CachedIff`).
- **`Remove` of the skip list** is documented to remove any element of the list. It does so if and only if the element
  leads the elements equal to it (`SkipLists.SkipList.Remove`, `LeadsIff`). Equal elements arise when an overtaken
  record is submitted again (`OvertakenRowDoubles`); `SecondEqualStays` reaches that list through the cache's own
  operations and asks for the second element to be removed, which stays.
- **`combineIndexes`** is meant to yield all combinations in a size range and yields none at all from 63 tickets on,
  because `1 << length` is not positive any more. `CombineCompleteIff` states exactly when it is complete, and
  `CombineMisses` takes 63 one-player tickets, of which each alone is a combination that is not yielded.
- **Trimming a combination** is meant to keep the longest-waiting tickets, but the groups are sorted the other way
  round. While the totals of creation times fit into 64 bits, the group dropped is an oldest by the true mean of its
  creation times, up to truncation (`OldestDropped`), and one that is wholly younger than another is never dropped
  (`YoungerNotDropped`). For groups whose ages truncation can tell apart, what is dropped is a youngest if and only if
  all groups are of the same age (`KeepsLongestWaitingIff`). When a single player has to go, the longest-waiting
  tickets are kept if and only if all one-player tickets were created at the same time, whatever the creation times
  (`KeepsLongestWaitingOneIff`); of two the older goes (`OlderTicketDropped`). Totals that do not fit can turn the sort
  round again (`OverflowDropsYounger`).
- **The last interval** of a ticket is meant to make a match of any combination that satisfies the minimum. The test is
  reached only if the last hit is considered, and only for the combination that hit joined: if its size suits everyone,
  or that of what trimming leaves does, there is a match. If the last hit is not considered no match below the maximum
  is made (`MatchmakerProcess.ProcessActive`).
  `LastHitTurnedAway` is a ticket with a suitable partner and no match, because the last hit is another ticket of the
  same player.
- **The average creation time** overflows: joining a ticket to a group gives the right average if and only if the total
  fits into 64 bits (`JoinExactIff`). With creation times in nanoseconds since 1970 six tickets are enough to give a
  negative average (`SixTicketsOverflow`).
- **An installation id** that was stored in full is replaced by a start that cannot read the file but can write it
  (`UnreadableStartReplaces`). `KeepsIff` and `SticksIff` give the exact condition under which it survives, and
  `SameTextIff` the exact condition for two starts to return the same text.

## Assumptions about code outside the repository

The gateway runtime is a library. Its pattern loader and matcher (`NewPattern`, `Match`), its trie lookup
(`HasCommonPrefix`) and its query population are written out in the model: opcode 1 pushes a path component, 2 matches
and pushes a literal, 4 joins the top of the stack, 5 captures; the trie steps to `Base[i] + code` when `Check` there
is `i + 1`, and its terminator has the code `len(Encoding)`. Decoding a body and parsing a form are parameters, of
which nothing is assumed; an empty body decodes to the empty message. Captured text converts to a string field without
fail. `strconv` and `fmt` are written out for base 10.

## Model

| member | source | states |
|---|---|---|
| Uuids.CompareEqual | server/leaderboard_rank_cache.go:59 | comparing owner ids gives 0 exactly for equal ids |
| Uuids.CompareTransitive | server/leaderboard_rank_cache.go:86 | the comparison of owner ids is transitive |
| Uuids.CompareAtFirst | server/leaderboard_rank_cache.go:59 | the first byte in which two owner ids differ decides their order, the smaller byte first |
| RankOrder.LessTrichotomy | server/leaderboard_rank_cache.go:41-87 | of two records of one sort order, exactly one is less, or they are the same record |
| RankOrder.LessTransitive | server/leaderboard_rank_cache.go:41-87 | the order of records is transitive, ascending and descending |
| RankOrder.MixedKindsAreUnordered | server/leaderboard_rank_cache.go:42-45 | records of different sort orders are each less than the other, so a board must keep one |
| RankOrder.LowerBoundCuts | internal/skiplist/skiplist.go:150-160 | in a sorted list the elements less than a value are exactly those before the place where the search stops |
| RankOrder.MemberAtLowerBound | internal/skiplist/skiplist.go:140-147 | a value is in a sorted list exactly when the element where the search stops is not greater, and then it is that element |
| RankOrder.AddSorted | internal/skiplist/skiplist.go:51-97 | putting a record where the search stops keeps the list sorted |
| RankOrder.DropCounts | internal/skiplist/skiplist.go:129-137 | deleting removes exactly one occurrence of the record, and nothing if there is none |
| RankOrder.SortedUnique | server/leaderboard_rank_cache.go:563-568 | one collection of records has one sorted list, so the order of insertion does not matter |
| SkipListShape.NextUnique | internal/skiplist/skiplist.go:60-63 | the next node of a level is the only one that is tall enough with nothing tall enough before it |
| SkipListShape.PrevIffJumps | internal/skiplist/skiplist.go:53-65 | a node is the last of its level up to a place exactly when its link jumps over that place |
| SkipLists.LinkAfterPut | internal/skiplist/skiplist.go:79-92 | what inserting a node does to the next node and the span of every other node, level by level |
| SkipLists.LinkOfPut | internal/skiplist/skiplist.go:80-86 | the link and span a new node must have on each of its levels |
| SkipLists.LinkAfterCut | internal/skiplist/skiplist.go:101-108 | what deleting a node does to the next node and the span of every other node, level by level |
| SkipLists.SplicedConsistent | internal/skiplist/skiplist.go:79-92 | after the two loops of an insertion every link of every level leads to the next node of that level and spans exactly that far |
| SkipLists.UnsplicedConsistent | internal/skiplist/skiplist.go:100-108 | the same after the first loop of a deletion |
| SkipLists.RaiseKeepsConsistent | internal/skiplist/skiplist.go:70-77 | taking an unused level into use with a span of the whole length keeps all links exact |
| SkipLists.LowerKeepsConsistent | internal/skiplist/skiplist.go:110-112 | giving up an empty top level keeps all links exact |
| SkipLists.SkipList.constructor | internal/skiplist/skiplist.go:19-28 | a new list is well formed and empty |
| SkipLists.SkipList.Walk | internal/skiplist/skiplist.go:60-63 | walking along a level stops at the last node before the value and adds up the positions crossed |
| SkipLists.SkipList.Descend | internal/skiplist/skiplist.go:52-65 | on every level the trail holds the last node before the insertion point, and `rank` its position |
| SkipLists.SkipList.FindFirst | internal/skiplist/skiplist.go:150-160 | the first element not less than the value, or nil |
| SkipLists.SkipList.Find | internal/skiplist/skiplist.go:140-147 | an element holding the value exactly when the list holds it |
| SkipLists.SkipList.GetRank | internal/skiplist/skiplist.go:165-180 | a 1-based position at which the value stands, 0 exactly when it is not in the list |
| SkipLists.SkipList.GetElementByRank | internal/skiplist/skiplist.go:184-199 | the element at a 1-based position, the header for 0, nil for every other number |
| SkipLists.SkipList.RaiseLevel | internal/skiplist/skiplist.go:70-77 | new levels start at the header, the trail and ranks cover them, the list is unchanged |
| SkipLists.SkipList.Splice | internal/skiplist/skiplist.go:79-92 | the loops over the levels of an insertion change exactly the links the insertion calls for |
| SkipLists.SkipList.Insert | internal/skiplist/skiplist.go:51-97 | for every height, the list stays well formed, and a new element that holds the value stands in its place between the old elements, which all stay |
| SkipLists.SkipList.SpliceOut | internal/skiplist/skiplist.go:101-108 | the loop over the levels of a deletion changes exactly the links the deletion calls for |
| SkipLists.SkipList.LowerLevel | internal/skiplist/skiplist.go:110-112 | no empty level above the first stays in use, and the list is unchanged |
| SkipLists.SkipList.DeleteElement | internal/skiplist/skiplist.go:100-114 | exactly the given element leaves, the others keep their order, the list stays well formed |
| SkipLists.SkipList.Delete | internal/skiplist/skiplist.go:129-137 | reports whether the value was there and takes out its first occurrence, and no other element |
| SkipLists.SkipList.Remove | internal/skiplist/skiplist.go:118-126 | an element is removed, and no other, exactly when it is in the list and the one before it holds another value |
| SkipLists.SkipList.LeadsIff | internal/skiplist/skiplist.go:116-120 | which elements those are, position by position |
| RankBoard.PositionIsRank | server/leaderboard_rank_cache.go:193-223 | when the list ranks exactly the owners' records, an owner's position is one more than the number of owners with better records |
| RankBoard.RanksFollowScores | server/leaderboard_rank_cache.go:41-87 | on a descending board the owner with the higher score has the smaller rank, on an ascending one the larger; at equal scores the subscore decides in the same way, and at equal subscores the first byte in which the owner ids differ; no two owners share a rank |
| RankBoard.RankBelongsToOne | server/leaderboard_rank_cache.go:225-260 | each rank from 1 to the size belongs to exactly one owner, the one whose record stands there |
| RankBoard.RanksRunToSize | server/leaderboard_rank_cache.go:284-285 | the length of the list is the number of owners |
| RankWarmup.SubmitMirrors | server/leaderboard_rank_cache.go:344-361 | a submission on a list that agrees with the owners leaves it agreeing |
| RankWarmup.RemoveMirrors | server/leaderboard_rank_cache.go:388-397 | so does a deletion |
| RankWarmup.RunSound | server/leaderboard_rank_cache.go:438-577 | in every interleaving of submissions, deletions and the worker's steps the list stays sorted and every cached owner's record is ranked or waiting in the batch |
| RankWarmup.RunNothingStale | server/leaderboard_rank_cache.go:522-569 | as long as no batch is ranked with an overtaken row, nothing is ranked that is not current, and nothing twice |
| RankWarmup.ServingMirrors | server/leaderboard_rank_cache.go:311-397 | after every run of submissions and deletions the list ranks exactly the current records, each once |
| RankWarmup.FlushMirrorsIff | server/leaderboard_rank_cache.go:561-569 | after a batch the list agrees with the owners if and only if no row of the batch has been overtaken |
| RankWarmup.ExcessStays | server/leaderboard_rank_cache.go:344-397 | an entry that is not current, or one too many, survives every submission, deletion and batch, and every row read but its own |
| RankWarmup.RunKeepsExcess | server/leaderboard_rank_cache.go:438-577 | so it survives every run that does not read its record again |
| RankWarmup.PagingScansOnce | server/leaderboard_rank_cache.go:500-507 | pages that ascend by score, subscore and owner read no record twice |
| RankWarmup.NothingStaleIff | server/leaderboard_rank_cache.go:497-575 | over every run, with any number of batches, nothing stale is ranked at the end if and only if no batch was ranked with an overtaken row |
| RankWarmup.WarmUpMirrorsIff | server/leaderboard_rank_cache.go:497-575 | over every run of submissions, deletions and any number of batches, interleaved in any way, with no batch under way at the end: the list ranks exactly the current records if and only if no batch was ranked with an overtaken row |
| RankWarmup.CountTellsAgreement | server/leaderboard_rank_cache.go:284-292 | with no batch under way the list has at least one entry an owner, and exactly one each if and only if it agrees with the owners |
| RankWarmup.CachedIff | server/leaderboard_rank_cache.go:533-543 | over every run an owner is cached at the end if and only if a submission or a row of it is followed by no deletion |
| RankWarmup.CachedFrom | server/leaderboard_rank_cache.go:344-357 | after every run an owner is cached with the record and the generation that one submission or one row brought together, and since then it was neither removed nor submitted with a higher generation |
| RankWarmup.NewestCached | server/leaderboard_rank_cache.go:344-357 | no submission since the owner's last deletion is more recent than what the owner is cached with |
| RankWarmup.RemovedOwnerReturns | server/leaderboard_rank_cache.go:388-394 | a run in which a deleted owner is cached and ranked again |
| RankWarmup.OvertakenRowMisplaces | server/leaderboard_rank_cache.go:534-568 | a run in which an overtaken row is ranked and the leader is placed second |
| RankWarmup.OvertakenRowDoubles | server/leaderboard_rank_cache.go:344-357 | a run in which an overtaken record is ranked, submitted again, and then on the list twice |
| RankCaches.RankCache.constructor | server/leaderboard_rank_cache.go:334-337 | a new cache is empty and agrees with its owners |
| RankCaches.RankCache.Insert | server/leaderboard_rank_cache.go:341-364 | an older or equal generation changes nothing; a newer one gives the owner exactly these scores and generation, in the board's sort order, and no other owner a change; agreement is kept; the result is the owner's rank if it now has these scores, else 0 |
| RankCaches.RankCache.Get | server/leaderboard_rank_cache.go:212-222 | a position of the owner's record, 0 without one; the owner's rank when list and owners agree |
| RankCaches.RankCache.GetDataByRank | server/leaderboard_rank_cache.go:239-259 | the record at that position for the board's own sort order, an error for every other number or order; the record of the one owner with that rank when list and owners agree |
| RankCaches.RankCache.Fill | server/leaderboard_rank_cache.go:284-308 | every record whose owner parses and is cached gets that owner's rank, the others keep theirs; the result is the number of owners when list and owners agree |
| RankCaches.RankCache.Delete | server/leaderboard_rank_cache.go:388-397 | the owner and its record go, agreement is kept |
| RankCaches.RankCache.ScanRow | server/leaderboard_rank_cache.go:534-543 | a row is cached unless its owner already is; refines the worker's reading step |
| RankCaches.RankCache.FlushBatch | server/leaderboard_rank_cache.go:561-569 | in whatever order the batch is iterated, the skip list ends up as the state machine's batch step says |
| RankCaches.SecondEqualStays | internal/skiplist/skiplist.go:116-126 | on the list that run leads to, through the cache's own operations, the second element is not removed when asked for |
| MatchmakerGroups.GroupSound | server/matchmaker.go:122-157 | every group found is a choice of the tickets whose sizes add up to the number asked for, and carries the average of their creation times |
| MatchmakerGroups.GroupComplete | server/matchmaker.go:122-157 | every choice of tickets whose sizes add up to the number is found, with its average |
| MatchmakerAges.JoinExactIff | server/matchmaker.go:146-147 | joining a ticket to a group gives the right average if and only if the total fits into 64 bits |
| MatchmakerAges.AverageDrift | server/matchmaker.go:142-150 | while totals fit, the average of n tickets is never above the true mean and below it by at most (n - 1) / 2 |
| MatchmakerAges.AverageBetween | server/matchmaker.go:142-150 | while totals fit, the average of a group lies between the creation times of its tickets |
| MatchmakerAges.SixTicketsOverflow | server/matchmaker.go:146-147 | six tickets of one present-day instant have a negative average |
| MatchmakerAges.OldestDropped | server/matchmaker_process.go:243-248 | while totals fit, the group that sorts first is no younger, by the true mean of creation times and up to truncation, than any other candidate |
| MatchmakerAges.YoungerNotDropped | server/matchmaker_process.go:243-248 | while totals fit, a group all of whose tickets are younger than all of another candidate never sorts first |
| MatchmakerAges.KeepsLongestWaitingIff | server/matchmaker_process.go:243-248 | for groups whose totals fit and whose ages truncation can tell apart, the group that sorts first is a youngest by true mean if and only if all groups are of the same age |
| MatchmakerAges.OneTicketGroups | server/matchmaker.go:122-157 | when one player has to go, the candidates are exactly the one-player tickets, each with its own creation time |
| MatchmakerAges.KeepsLongestWaitingOneIff | server/matchmaker_process.go:243-248 | when one player has to go, the ticket dropped is a youngest if and only if all one-player tickets were created at the same time |
| MatchmakerAges.OlderTicketDropped | server/matchmaker_process.go:243-248 | of two one-player tickets the older one is dropped |
| MatchmakerAges.OverflowDropsYounger | server/matchmaker_process.go:243-248 | of six present-day one-player tickets and an older six-player ticket the six are dropped, because their average overflows |
| MatchmakerGroups.Collect | server/matchmaker_process.go:600-614 | a bit pattern's tickets are collected, or given up exactly when they hold too many players |
| MatchmakerGroups.SkipLosesNothing | server/matchmaker_process.go:595-598 | a combination of more tickets than players allowed holds too many players |
| MatchmakerGroups.CombineIndexes | server/matchmaker_process.go:584-618 | for up to 62 tickets all bit patterns in range, in order; nothing from 63 tickets on |
| MatchmakerGroups.CombinationsSound | server/matchmaker_process.go:594-614 | every combination yielded is the choice of a bit pattern and within the size range |
| MatchmakerGroups.CombineComplete | server/matchmaker_process.go:591-592 | every non-empty choice of tickets within the size range is among the bit patterns |
| MatchmakerGroups.CombinationsInOrder | server/matchmaker_process.go:594-616 | the combinations come in strictly ascending order of their bit patterns, one for every non-empty choice in range |
| MatchmakerGroups.CombineCompleteIff | server/matchmaker_process.go:584-618 | all choices in range are yielded if and only if there are at most 62 tickets or no choice is in range |
| MatchmakerGroups.SixtyThreeTickets | server/matchmaker_process.go:594 | of 63 one-player tickets each alone is a choice in range |
| MatchmakerGroups.CombineMisses | server/matchmaker_process.go:594-615 | and none of them is yielded |
| MatchmakerPool.MatchSessionsDiffer | server/matchmaker_process.go:141-163 | no player is in a match twice, not even through different tickets |
| MatchmakerPool.GatherCut | server/matchmaker_process.go:247-257 | taking a ticket out of a party takes out exactly its players |
| MatchmakerPacking.CheckIsFriendly | server/matchmaker_process.go:158-191 | a hit meets no conflict in a combination exactly when it may play with every ticket in it |
| MatchmakerPacking.ConsideredIff | server/matchmaker_process.go:116-151 | a hit that the active ticket accepts is considered exactly when it accepts the active ticket, shares no player with it, and is not better off waiting for a larger match |
| MatchmakerPacking.FitIsFirst | server/matchmaker_process.go:153-212 | a hit joins a combination with room and with no conflict, and passes by none before it that it could have joined, unless it met one of its own players earlier |
| MatchmakerPacking.PackHoldsConsidered | server/matchmaker_process.go:153-212 | the combinations hold exactly the hits considered so far, each once |
| MatchmakerPacking.PackTogether | server/matchmaker_process.go:153-212 | hits that may all play together and fit into one match are packed into one combination |
| MatchmakerPacking.TogetherFills | server/matchmaker_process.go:153-219 | considered hits that may all play together, accept the maximum and add up to it at some hit are the first combination to be full, at that hit |
| MatchmakerPacking.FillsAtFills | server/matchmaker_process.go:116-219 | the same said of the hits alone, without naming which are considered |
| MatchmakerTrimming.DivisibleIff | server/matchmaker_process.go:224-242 | the search among the small tickets finds a group exactly when some tickets of the combination add up to the excess |
| MatchmakerProcess.Conflicts | server/matchmaker_process.go:158-191 | the loop over the entries stops at the first conflict and reports its kind, and reads no emptied slot |
| MatchmakerProcess.Place | server/matchmaker_process.go:153-212 | the hit joins the combination that packing gives, the first that has room and no conflict unless it met one of its own players before, and otherwise starts its own; all tickets of it may play together and the other combinations are unchanged |
| MatchmakerProcess.Eligible | server/matchmaker_process.go:224-236 | the tickets of the combination that are small enough to be dropped, each once |
| MatchmakerProcess.DropTicket | server/matchmaker_process.go:249-256 | the in-place removal leaves exactly the entries of other tickets |
| MatchmakerProcess.DropGroup | server/matchmaker_process.go:248-257 | what is left are the players of exactly the other tickets, fewer by the group's size |
| MatchmakerProcess.Trim | server/matchmaker_process.go:220-265 | succeeds exactly when some tickets of the combination make up the excess; the group dropped is one of least average creation time among the small tickets, and exactly the other tickets stay, a party smaller by the excess |
| MatchmakerProcess.MultipleBelow | server/matchmaker_process.go:259-265 | after trimming the size is a multiple and still not below the minimum |
| MatchmakerProcess.SuitsAll | server/matchmaker_process.go:268-282 | holds exactly when the size suits every ticket of the combination |
| MatchmakerProcess.Decide | server/matchmaker_process.go:219-285 | what becomes a match is one; a combination whose size is a multiple becomes one exactly when the size suits all its tickets; any other is trimmed, and is a match if whichever group is dropped leaves a size that suits everyone left |
| MatchmakerProcess.Try | server/matchmaker_process.go:214-219 | a combination is trimmed at the last hit only, so that no later hit meets an emptied slot; a full one becomes a match exactly when the size suits all its tickets; one below the maximum only on the last interval and at the last hit, and then whenever it, or what trimming leaves of it, is of a size that suits everyone |
| MatchmakerPass.FilterHits | server/matchmaker_process.go:98-112 | exactly the hits other than the active ticket and the tickets already taken, in their order |
| MatchmakerProcess.ProcessActive | server/matchmaker_process.go:114-311 | a match found is one, made of hits only; it is exactly the first combination to be full and of a size that suits everyone, if packing the hits gives one; otherwise one is found only on the last interval and if the last hit is considered, from the combination which that hit joined, and then whenever that combination, or what trimming leaves of it, is of a size that suits everyone |
| MatchmakerProcess.NoneBetterOffWaiting | server/matchmaker_process.go:136-139 | every ticket of a match accepts no more than the active ticket's maximum or has waited more passes than the maximum of intervals |
| MatchmakerProcess.LastIntervalMatches | server/matchmaker_process.go:153-219 | on its last interval a ticket is matched with all of its hits, if these may all play together and with it and their size suits everyone |
| MatchmakerProcess.LastHitTurnedAway | server/matchmaker_process.go:141-151 | on its last interval a ticket goes unmatched beside a suitable partner, because the last hit is turned away |
| MatchmakerPass.ProcessTurn | server/matchmaker_process.go:98-311 | the tickets of a match were free and are now taken, and no others; the match, or that there is none, is what packing the free hits gives |
| MatchmakerPass.ProcessDefault | server/matchmaker_process.go:13-320 | over a whole pass: every match is of whole tickets that may all play together and of a size that suits each, no ticket is in two matches, the tickets taken are exactly those of the matches; what comes of every turn is what packing the hits then still free gives; no found ticket that alone would fill an active ticket's match is left behind together with it; the tickets in their last interval, and only they, expire unless taken; every active ticket that is not taken has been through one more pass |
| MatchmakerPass.FullMatchMade | server/matchmaker_process.go:98-219 | in every turn in which hits still free may play together and fill the match to the brim, a match of the maximum size is made |
| MatchmakerPass.LastMatchMade | server/matchmaker_process.go:98-219 | in every turn that is a ticket's last, and in which all hits still free make up one match with it, that match is made |
| MatchmakerPass.MatchesPatient | server/matchmaker_process.go:39-219 | a match below the active ticket's maximum is made in its last interval only, and a ticket that accepts more than the active one is in a match only after the passes it should wait |
| MatchmakerPass.ExpiresInPass | server/matchmaker_process.go:39-45 | over consecutive passes a ticket that stays unmatched is reported expired in exactly those passes whose number has reached the maximum of intervals, or in all if it accepts one size only |
| PathTemplates.CompiledLoads | apigrpc/apigrpc.pb.gw.go:8314-8500 | every compiled template loads: no operand is out of range and the stack never underflows |
| PathTemplates.CompileCorrect | apigrpc/apigrpc.pb.gw.go:8314-8500 | for every template and path, the compiled program accepts exactly the paths the template describes, binds exactly the variables' components, and never crashes |
| RequestPaths.SplitJoin | apigrpc/apigrpc.pb.gw.go:8425-8447 | splitting a joined path gives its components back |
| RequestPaths.JoinSplit | apigrpc/apigrpc.pb.gw.go:8425-8447 | joining the components of a split path gives the path back, and no component holds a '/' |
| RequestPaths.FillMatches | apigrpc/apigrpc.pb.gw.go:8425-8447 | a template filled with values matches, and captures those values |
| RequestPaths.MatchIsFilling | apigrpc/apigrpc.pb.gw.go:8425-8447 | every matching path is the template filled with its captures |
| RequestPaths.RouteRoundTrip | apigrpc/apigrpc.pb.gw.go:8425-8447 | filling any template with values free of '/', joining, splitting and running the compiled program binds the variables to the same values, each to its own |
| RequestPaths.AcceptedIsRendered | apigrpc/apigrpc.pb.gw.go:8425-8447 | a path text that a compiled program accepts is the template filled with exactly the values bound |
| QueryFilter.StoredArrays | apigrpc/apigrpc.pb.gw.go:2283 | the arrays of the filters in use are the general form for 0, 1 and 2 names |
| QueryFilter.FilterIsSet | apigrpc/apigrpc.pb.gw.go:2283 | for any number of names and any field path, the trie answers yes exactly when the first name is listed |
| QueryFilter.LeafStops | apigrpc/apigrpc.pb.gw.go:73 | below a listed name the trie follows nothing |
| Dispatch.OverlapIsCommonPath | apigrpc/apigrpc.pb.gw.go:3897-6225 | two templates clash, segment by segment, exactly when some path matches both |
| Dispatch.ServeFinds | apigrpc/apigrpc.pb.gw.go:3897-6225 | the route served is in the table and matches with the right captures; none is served only if none matches |
| Dispatch.OrderIrrelevant | apigrpc/apigrpc.pb.gw.go:3897-6225 | every reordering of a table without clashes serves every request alike |
| RouteChecks.CompileNewNames | apigrpc/apigrpc.pb.gw.go:8314-8500 | a template whose names are all different compiles to the plain operations over the list of its names |
| RouteChecks.TableChecked | apigrpc/apigrpc.pb.gw.go:8314-8500 | every stored program is the compilation of its template, and every handler reads and protects only what it should |
| RouteDispatch.ClassifyFinds | apigrpc/apigrpc.pb.gw.go:3897-6225 | a path that an endpoint's template matches is that endpoint's alone |
| RouteDispatch.EndpointsDisjoint | apigrpc/apigrpc.pb.gw.go:3897-6225 | no two of the 93 endpoints answer the same request, over paths of any length |
| RouteDispatch.RegistrationOrderIrrelevant | apigrpc/apigrpc.pb.gw.go:6263-8310 | every reordering of the registrations serves every request alike |
| RouteDispatch.ServedParametersPresent | apigrpc/apigrpc.pb.gw.go:2286-2327 | the stored program captures every parameter the served endpoint's handler looks up |
| RequestAssembly.Build | apigrpc/apigrpc.pb.gw.go:3066-3101 | the handlers' step by step filling with early returns gives the outcome of the three stages |
| RequestAssembly.QueryIsPlain | apigrpc/apigrpc.pb.gw.go:2444-2479 | reading the query through the trie is reading it against the list of names |
| RequestAssembly.PlainAt | apigrpc/apigrpc.pb.gw.go:2469-2474 | a field has what the query says about it, or else what it had before |
| RequestAssembly.PlainBuiltIff | apigrpc/apigrpc.pb.gw.go:2472-2474 | reading the query fails exactly when an entry outside the list does not fit the message |
| RequestAssembly.ProvidedFieldsKept | apigrpc/apigrpc.pb.gw.go:3062-3101 | for every endpoint and request, whatever the query contains: a path parameter has its path value; where the body is the whole message, every other field has the body's value; where the body is one field, that field is exactly the body |
| RequestAssembly.OtherFieldsFromQuery | apigrpc/apigrpc.pb.gw.go:2444-2479 | for every endpoint and request, any other field has a value exactly when the endpoint reads the query and the form has that value for the field, and none within a path parameter |
| RequestAssembly.OutcomeIff | apigrpc/apigrpc.pb.gw.go:3062-3101 | for every endpoint and request which way it goes: a bad body exactly when the endpoint takes one and decoding failed, then the first missing parameter, then an unreadable form or an unlisted entry that does not fit, and otherwise a message |
| RequestAssembly.ServedNeverMissing | apigrpc/apigrpc.pb.gw.go:2286-2327 | a dispatched request never ends with a missing parameter |
| RequestAssembly.FormOrderIrrelevant | apigrpc/apigrpc.pb.gw.go:2472-2474 | the outcome does not depend on the order in which the form is iterated |
| RequestAssembly.StorageHandlers | apigrpc/apigrpc.pb.gw.go:2444-2559 | the two storage listing handlers read the collection, and the collection and the user |
| RequestAssembly.StorageListingsAgree | apigrpc/apigrpc.pb.gw.go:2444-2559 | listing by collection and user builds what listing by collection with the user in the query builds, error or message |
| HandlerFamilies.HandlersAlike | apigrpc/apigrpc.pb.gw.go:2448-2512 | each endpoint's direct and remote handler read the same things in the same order |
| HandlerFamilies.FamiliesSimulate | apigrpc/apigrpc.pb.gw.go:3897-8310 | whatever the order of registration and of form iteration on either side, both families give every request the same reply: not found, the same error, or the same message for the same operation |
| HandlerFamilies.NeverMissing | apigrpc/apigrpc.pb.gw.go:2286-2370 | no reply of either family reports a missing parameter |
| EndpointConnection.InvHolds | apigrpc/apigrpc.pb.gw.go:6229-6250 | what the state remembers of the steps taken, in every interleaving |
| EndpointConnection.ClosedAtMostOnce | apigrpc/apigrpc.pb.gw.go:6229-6250 | no interleaving has two closing steps |
| EndpointConnection.ClosedWhen | apigrpc/apigrpc.pb.gw.go:6234-6247 | a close by the deferred function comes after a failed registration and before the return, a close by the goroutine after a successful registration and once the context is done |
| EndpointConnection.ClosedBeforeReturn | apigrpc/apigrpc.pb.gw.go:6234-6250 | when the call returns, the deferred function has closed the connection exactly when registration failed, and the goroutine has been started for a dialled connection exactly when it has not |
| EndpointConnection.NeverStuck | apigrpc/apigrpc.pb.gw.go:6241-6246 | a goroutine that was started and has not closed the connection can do so once the context is done |
| EndpointConnection.CanReturn | apigrpc/apigrpc.pb.gw.go:6229-6250 | every run can be continued to the call's return |
| SliceFlags.Append | flags/vars.go:169 | appending writes one cell in place while there is room, and otherwise leaves the old array alone |
| SliceFlags.SliceFlag.constructor | flags/vars.go:156-161 | a new flag holds its default and has handed nothing out |
| SliceFlags.SliceFlag.Set | flags/vars.go:163-170 | a refused text changes nothing; the first accepted one clears the default in place; slices handed out since then keep their contents and stay prefixes |
| SliceFlags.SliceFlag.Get | flags/vars.go:172-174 | hands out the current slice and remembers what it held |
| SliceFlags.ParseOne | flags/vars.go:193-204 | one more argument, accepted or refused, against the array the flag started on |
| SliceFlags.Parse | flags/vars.go:193-208 | over any command line the flag holds the accepted values in order, or is untouched without any; of the default's array exactly the first cells up to its capacity are overwritten |
| Powers.WrapIs | flags/vars.go:66-73 | converting to a signed width gives the number in the signed range that differs by a multiple of two to the width |
| IntegerFlags.NarrowKeeps | flags/vars.go:66-73 | the conversion to the flag's width never changes an accepted value |
| IntegerFlags.RangeIsKept | flags/vars.go:66-127 | a flag's range is exactly the values that the conversion to its width keeps |
| IntegerFlags.ParseOfFormat | flags/vars.go:139-145 | every value of every width is read back from its own text |
| IntegerFlags.AcceptedExactlyNumerals | flags/vars.go:66-127 | a text is accepted with a value exactly when it is digits, after one optional sign for the signed kinds, that stand for the value, and the value is in range |
| IntegerFlags.AcceptedSixKinds | flags/vars.go:66-127 | the six kinds in use accept exactly the numerals from -128 to 127, 0 to 65535 and so on, and no others |
| IntegerFlags.ValueIsPositional | flags/vars.go:66-127 | digits stand for the sum of their values by place |
| IntegerFlags.NumeralUnique | flags/vars.go:66-127 | no text stands for two numbers |
| IntegerFlags.AcceptedExactlyInRange | flags/vars.go:66-127 | the values some text is accepted for are exactly those in the flag's range |
| IntegerFlags.IntegerFlag.Set | flags/vars.go:66-127 | an accepted text becomes the value, a refused one changes nothing |
| IntegerFlags.IntegerFlag.String | flags/vars.go:139-145 | the text of a flag parses to its value |
| IntegerFlags.ParseAll | flags/vars.go:66-127 | over any command line the flag holds the last accepted value, or its initial one |
| Cookie.DataDir.NewOrLoadCookie | main.go:293-305 | the text returned and the file left behind by every start, disabled ones included |
| Cookie.NewV4IsVersion4 | main.go:301 | a new id has version 4 and the RFC variant (section 5.4 of RFC 9562) and is not nil |
| Cookie.NewV4KeepsBits | main.go:301 | a new id has the random bits everywhere but in the six bits of version and variant |
| Cookie.FreshTextsIff | main.go:301-304 | two enabled starts that find no id return the same text exactly when they draw the same random bits |
| Cookie.TextInjective | main.go:304 | the text of an id determines it |
| Cookie.TextIs | main.go:304 | the text has 36 characters, dashes at positions 8, 13, 18 and 23, and the two lower-case hexadecimal digits of each byte at its place |
| Cookie.RunStarts | main.go:293-305 | the texts a sequence of starts returns and the file it leaves, with any failures |
| Cookie.NeverNil | main.go:293-305 | for every start of every sequence: a disabled one returns the empty text and leaves the file alone; an enabled one returns the text of the id in the file exactly when it can read one there, leaving the file alone, and otherwise that of a new version 4 id, never the text of the nil id |
| Cookie.SameTextIff | main.go:293-305 | of any two enabled starts of a sequence the later returns the same text as the earlier if and only if it can read the file, the id was stored and no start between overwrote it, provided the id is not drawn again |
| Cookie.KeepsIff | main.go:298-303 | one start keeps a stored id if and only if it is disabled, can read it, cannot open the file, or redraws it |
| Cookie.StoredIdSticks | main.go:298-304 | while no start overwrites it, every later start that can read the file uses the stored id |
| Cookie.SticksIff | main.go:298-303 | unless it is drawn again, a stored id survives a sequence of starts if and only if no start failed to read the file and opened it for writing |
| Cookie.WrittenIdSticks | main.go:301-304 | an id that was drawn and written in full is the id of the later starts |
| Cookie.UnreadableStartReplaces | main.go:300-303 | one start that cannot read but can write replaces the id |

## Left out

- The map of leaderboards to rank caches, its blacklist, expiry trimming and reset schedules: lookups in front of the cache that is modelled.
- Locks: each critical section is one step; that `GetDataByRank` reads the list without taking the cache's lock is not modelled.
- SkipLists.SkipList.Insert: the random height of a skip list node is a parameter, so that every height is covered; its distribution, and with it the running time, is not.
- Skip list `Init`, `Front`, `Len` and `Next`: one-line reads.
- RankCaches.RankCache.Insert: asks for a record of the board's own sort order, which is fixed for a leaderboard; mixed orders have no order at all (`MixedKindsAreUnordered`).
- RankWarmup.RunSound: assumes that the rows of one batch have different owners, as the uniqueness of owner, leaderboard and expiry time in the table gives; reading from the database and its errors are not modelled.
- RankWarmup.WarmUpMirrorsIff: assumes that no record is read twice, as the ascending page key gives (`PagingScansOnce`).
- Record scores are unbounded integers: they are only compared.
- The custom matchmaker (`processCustom`) and the hooks it calls: only `combineIndexes` is modelled of it.
- MatchmakerProcess.Eligible: lists the small tickets in the order in which they stand in the combination, where the source iterates over a map; what is proved of trimming (`TrimmedTo`, `TrimsWell`) is stated for every order.
- MatchmakerPass.ProcessDefault: takes search results and query comparisons as given and relies on hits accepting the active ticket's query; tickets are assumed as `Add` and the request validation leave them (different sessions, sizes that are multiples).
- Ticket bookkeeping (`Add`, `Remove`, sessions, parties), the search index and matchmaker statistics.
- The gateway runtime's opcode 3, path verbs after ':', URL escaping, JSON-name aliases of query keys and the POST-as-GET fallback: no pattern here uses them, or they are handled by the library.
- Templates are given as lists of segments rather than as text.
- Marshalling, annotating contexts, gRPC transport and writing responses.
- Float flags and the printing of slice flags: slice flags are generic over the parser.
- Cookie: a failing random source, which stops the program.
- Everything else the server does: sessions, chat, parties, storage, the console, runtimes and start-up wiring.
