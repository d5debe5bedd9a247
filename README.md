# zkpy distributed lock, modelled in Dafny

zkpy's `Lock` is the client half of the ZooKeeper lock recipe. Every
contender owns one ephemeral, sequential marker node under a shared parent,
named `lock-<session id>-<sequence number>`. A ranking pass lists the
parent's children and sorts them by the number after the last dash. The
contender whose marker comes first owns the lock. Every other contender arms
an existence watch on the marker just before its own, unless it already
armed one on that marker, and answers False. When the watch fires, or the
connection comes back, the pass runs again.

The model has seven modules:

- `Wrappers`: `Option` and `Result`.
- `Names`: the marker name and its decimal parts. It covers how a name is
  built from a session id and a counter, Python's `rfind`, slicing and
  `startswith`, and parsing the number after the last dash.
- `Ranking`: the pure half of a pass. It parses a listing, sorts it stably
  by sequence number, scans it for the lock's own marker and its
  predecessor, and proves lemmas about the lowest child and the
  predecessor.
- `Coordination`: the ZooKeeper client as seen by the lock. The class
  `Service` holds:
  - the parent node, its ACL and children;
  - the session and the connection flags;
  - the sequence counter;
  - the registered global watchers and the armed existence watches.

  Every request appends itself, with its answer, to a ghost `log`.
  Contenders act on the parent between requests. Their changes wait in
  `pending`, and one is applied at the start of every round trip, so no
  contract assumes that the children are still as the lock last saw them.
- `RunLog`: the requests one run of the ranking loop makes, pass by pass,
  as values. It names the errors `_lock` can raise and the reasons a pass
  starts another, and says which requests are the lock's own.
- `RunLogFacts`: lemmas about those requests. They cover how a pass's
  requests are put together and where each pass's listing lies in a run.
  They also show that every request of a run is one the lock may make.
- `DistributedLock`: the `Lock` class. Its fields `id`, `lastOwner` and
  `watchedNeighbor` are the three Python fields. It also has:
  - ghost counters for the observer's `lock_acquired` and `lock_released`
    callbacks;
  - the last listing read and its parse.

  Each Python method that changes the lock or the service becomes a method
  with a `modifies` clause. `is_owner` and `waiting_to_be_owner` read state
  and become predicates; `_id_to_node_prefix` computes a name and becomes
  the function `Names.NodePrefix`. `_lock` is split into a loop (`TryLock`),
  one turn of it (`Attempt`) and one pass (`RankingPass`). `TryLock` also
  returns, as a ghost result, every pass that started another, with its
  reason, the `_last_owner` it left, the marker it ranked, and the requests it
  made (its marker step and the names its listing answered). The log since
  the run began is exactly those passes' requests followed by the final
  pass's, so each recorded pass is one that ran. Every pass ranks either the
  marker held when it began or exactly the one its marker step answered
  (`RunLog.RanksMarker`), and the marker held before a pass is the one the
  previous retry left (`RunLog.MarkerBefore`). Between passes the loop keeps the
  facts of the ghost predicate `Looping`. A pass is split into `ListMarkers` (hold a marker with
  `EnsureMarker`, then list and parse the children with `ListChildren`) and
  `SettleListing` (rank the listing with `RankListed`). `CreateMarker` is the creating half of
  `_get_or_create_lock_node`. The pure function `Ranking.Judge` says what a
  pass should conclude from a listing, with its cases in
  `Ranking.JudgeCases`; `RankListed` is proved against it case by case.
  The ghost predicate `PassOutcome` states what every caller of `_lock` can
  rely on. It relates the lock's fields to a snapshot `Start` taken when
  the run began and to the requests logged since then.

Notes on the code's behaviour:

- A ranking run that raises (NoNode on the listing, an unparsable name, or
  RuntimeError after ten passes) can leave `id` set. Only an empty listing
  or a listing without the own marker clears it.
- `watchedNeighbor` is never cleared, not by `release` and not by an
  expired session.
- `release` fires `lock_released` only when it gets as far as the delete.
  Without a marker, or without a connection, it returns before the
  `try`/`finally` and fires nothing.
- An expired session fires `lock_released` whether or not a marker was held.
- Two different exceptions named NoNodeException can leave a ranking run.
  zkpy's own is raised when no marker can be found or created (line 164).
  The client library's escapes from the listing of the children (line 168).
  The model keeps them apart as `NoNode` and `ServiceNoNode`.
- Because `watchedNeighbor` survives an expired session, a later run that
  finds the same predecessor answers False without a new `exists` call. It
  then relies on a watch armed by the expired session.

## Model

| member | source | states |
|---|---|---|
| Names.NodePrefix | zkpy/lock.py:64-65 | `lock-<session id>-`: starts with `lock-`, ends with a dash, and the digits between denote the session id |
| Names.NatToDecimal | zkpy/lock.py:65 | `str(session_id)` is a non-empty digit string whose decimal value is the id |
| Names.SeqDigits | zkpy/lock.py:105-108 | the sequence suffix a sequential create appends is at least ten digits and denotes the counter |
| Names.SliceFrom | zkpy/lock.py:110 | Python's `s[n:]`: the rest of the string after `n` characters, or empty when `n` is past the end |
| Names.LastDash | zkpy/lock.py:167 | `rfind('-')`: -1 when there is no dash, otherwise the position of a dash with no dash after it |
| Names.SeqSuffix | zkpy/lock.py:167 | `name[name.rfind('-') + 1:]`: a dash-free tail of the name, preceded by a dash unless it is the whole name |
| Names.SeqSuffixAfterLastDash | zkpy/lock.py:167 | the suffix taken from the end of the name is exactly Python's slice `name[name.rfind('-') + 1:]` |
| Names.ParseSeq | zkpy/lock.py:167 | `int(name[name.rfind('-') + 1:])` succeeds only on a non-empty all-digit suffix, with its decimal value |
| Names.JoinedPath | zkpy/lock.py:110 | `<path>/<name>` minus its first `len(path) + 1` characters is `name` again |
| Names.SequentialPath | zkpy/lock.py:105-110 | a created sequential node, stripped of `<path>/`, is the prefix followed by the digits, so it starts with the prefix |
| Names.PrefixIdentifiesSession | zkpy/lock.py:99-102 | a marker of session `b` starts with the prefix `lock-<a>-` exactly when `a == b`, so recovery never adopts another session's marker |
| Names.MarkerSeqRoundTrip | zkpy/lock.py:167 | parsing a created marker `lock-<session>-<counter>` gives back the counter |
| Ranking.ParseListing | zkpy/lock.py:167-168 | parsing succeeds exactly when every name parses, and keeps the names in order with their numbers; otherwise it fails on an unparsable listed name |
| Ranking.Insert | zkpy/lock.py:176 | inserting into a sorted listing keeps it sorted and adds exactly the one child |
| Ranking.SortBySeq | zkpy/lock.py:176 | the sorted listing is ordered by sequence number and is a permutation of the listing |
| Ranking.InsertKeepsDistinct | zkpy/lock.py:176 | inserting a child with a new number keeps the numbers distinct |
| Ranking.SortKeepsDistinct | zkpy/lock.py:176 | sorting keeps distinct numbers distinct |
| Ranking.Rank | zkpy/lock.py:177-187 | on a sorted listing: the lowest child is the first; the own marker is found exactly when it is listed; a predecessor exists exactly when the marker is found and is not the lowest, and is the child just before it |
| Ranking.ParsedNamesNonEmpty | zkpy/lock.py:167-168 | every child of a parsed listing has a non-empty name, since a name that parses has a digit |
| Ranking.JudgeCases | zkpy/lock.py:169-194 | what a pass concludes from a listing: no children exactly for an empty one, not listed exactly when no child has the held name, otherwise lowest (owner is the held name) or behind a neighbour other than itself, with non-empty names |
| Ranking.LowestIsMinimal | zkpy/lock.py:176-177 | `_last_owner` is a listed child whose number is no larger than any other |
| Ranking.ScanForNeighbor | zkpy/lock.py:179-187 | the scan reports "not found" exactly when no child has the own name; otherwise it stops at the first match holding the name just before it, or nothing when the match is first |
| Ranking.NoPredecessorIffLowest | zkpy/lock.py:179-194 | with distinct numbers, the own marker has no predecessor exactly when its number is below every other child's |
| Ranking.PredecessorIsNextLower | zkpy/lock.py:179-194 | with distinct numbers, the predecessor has the largest number below the own marker's |
| DistributedLock.Lock.constructor | zkpy/lock.py:37-43 | a new lock has no marker, no last owner, no watched neighbour and no callbacks yet |
| DistributedLock.NewLock | zkpy/lock.py:46-49 | construction reads the parent's ACL once, fails with NoNode exactly when the parent is missing, and otherwise yields a fresh lock that keeps the parent's ACL |
| DistributedLock.Lock.IsOwner | zkpy/lock.py:224-229 | ownership implies waiting to be owner and that the own marker is the last lowest |
| DistributedLock.Lock.WaitingToBeOwner | zkpy/lock.py:231-235 | waiting implies a live connection and a non-empty marker name |
| Names.StartsWith | zkpy/lock.py:100 | Python's `str.startswith`: true exactly when the prefix fits and agrees with the string character by character, and then the string is the prefix followed by the rest |
| RunLog.Truthy | zkpy/lock.py:157 | Python truthiness of an optional name (also lines 194, 227-228 and 239): false exactly for None and the empty name, so a true one has a non-empty name |
| Names.PrefixIndex | zkpy/lock.py:99-102 | the position of the first child starting with the prefix, with no earlier child starting with it, or the list's length when none does |
| DistributedLock.Lock.GetOrCreateLockNode | zkpy/lock.py:91-112 | an existing child with the prefix is returned with one listing request and nothing created; otherwise exactly one create follows, and the created path minus `<path>/` is returned; the result always starts with the prefix |
| DistributedLock.Lock.EnsureMarker | zkpy/lock.py:157-164 | a held marker is kept without any request; otherwise the session id is read, then exactly the requests of `_get_or_create_lock_node` with the session's prefix follow; the pass goes on exactly when that call answered a marker, `id` becomes exactly that answer (which starts with the prefix), and NoNode leaves `id` as it was, only with the parent missing, and right after a request the service answered with NoNode |
| DistributedLock.Lock.CreateMarker | zkpy/lock.py:104-112 | one create of `<path>/<prefix>`; NoNode only when the parent is missing; otherwise the created path minus `<path>/`, which starts with the prefix |
| DistributedLock.Lock.ListMarkers | zkpy/lock.py:157-168 | a held marker is kept; without one, the new marker is exactly `_get_or_create_lock_node`'s answer, and NoNode (line 164) is raised exactly when that call answered none, after a logged NoNode answer, leaving `id` unset; a pass that gets past the listing has just listed the children and returns exactly their parse; the client's NoNode (line 168) only with the parent missing and ValueError only for a name of the listing just read, both with a marker held; a failure leaves the last parse as it was |
| DistributedLock.Lock.ListChildren | zkpy/lock.py:166-168 | exactly one listing request is appended to the log, whatever the outcome. Its answer is None for the client's NoNode and the names read otherwise. On success the names are the parent's children and their parse is returned. Otherwise it fails with the client's NoNode, only when the parent is missing, or with ValueError for a name of that listing. A failure leaves the last parse as it was |
| DistributedLock.Lock.RankedSettled | zkpy/lock.py:169-220 | what `RankListed` promises about a parsed listing gives everything `SettleListing` promises: a settled answer or a justified retry, and the requests after the listing |
| DistributedLock.Lock.RankedLogged | zkpy/lock.py:169-211 | a retry's reason, `_last_owner` and marker fit the listing it ranked. After ranking, the log is the log before it plus exactly the requests the outcome needs: the `exists` that found a neighbour gone for that retry, nothing for the other retries, and the watch a False answer armed |
| DistributedLock.Lock.ListingFailed | zkpy/lock.py:157-168 | a pass that failed before ranking returns that failure. Its cause is logged, `_last_owner` and the last parse are unchanged, and only the requests of the marker step and the listing were appended |
| DistributedLock.Lock.ListingFailedLogged | zkpy/lock.py:157-168 | a pass that failed before ranking appended exactly its marker step's requests for zkpy's NoNode, or its prelude and one listing otherwise. Those requests show the failure's cause |
| DistributedLock.Lock.ListingFailedState | zkpy/lock.py:157-168 | a pass that failed before ranking leaves `_last_owner`, the watched neighbour, the callbacks and the last parse as they were. It keeps a held marker, and holds one unless the failure is zkpy's NoNode |
| RunLogFacts.BehindLogged | zkpy/lock.py:193-211 | a marker behind a neighbour appends no request when that neighbour is already watched. Otherwise it appends one `exists`: found present gives False, found gone gives a retry |
| DistributedLock.Lock.ListingRanked | zkpy/lock.py:166-220 | a pass that ranked its listing ends as one pass of `_lock` promises, in both the lock's fields and the log |
| DistributedLock.Lock.ListingRankedState | zkpy/lock.py:169-220 | after a pass that ranked its listing, its own marker is kept or cleared as the outcome says. `_last_owner`, the watched neighbour and `lock_acquired` change only as `RankListed` allows, and a retry's reason has a cause |
| DistributedLock.Lock.ListingRankedLogged | zkpy/lock.py:156-220 | a pass that ranked its listing appended exactly its prelude, its listing and what followed. For a return these are the requests of a final pass. For a retry they are the requests of the retry it records, with its reason, owner and names, and that reason is justified |
| DistributedLock.Lock.PassReturnedState | zkpy/lock.py:155-220 | a run that stops inside its loop leaves the fields `_lock` promises. It settles on the own marker. `lock_acquired` fires only on True for a new owner. After a failure, `_last_owner` is as the last retry left it |
| DistributedLock.Lock.PassReturnedLogged | zkpy/lock.py:155-220 | a run that stops inside its loop has, in the log since it began, the requests of every retried pass followed by those of the final pass. These include the listing an answer was drawn from, the watch a False answer relies on, and the request that caused a failure |
| DistributedLock.Lock.FinalLogged | zkpy/lock.py:157-211 | the requests of the final pass show a failure's cause: a request the service answered NoNode, or a listing with a bad name. For an answer, they show the listing it was drawn from |
| DistributedLock.Lock.RetryLoggedAt | zkpy/lock.py:166-206 | the requests of a retried pass hold what its reason relies on: the listing it ranked, and for a vanished neighbour the `exists` that found it gone |
| DistributedLock.Lock.WatchFinal | zkpy/lock.py:193-211 | a pass that answered False either kept the neighbour it already watched or armed a watch on it with an `exists` call of its own that found it present |
| DistributedLock.Lock.ExhaustedState | zkpy/lock.py:155-222 | after ten retries, RuntimeError leaves the fields as the loop left them: `_last_owner` as the last retry left it, and the neighbour and the callbacks untouched |
| DistributedLock.Lock.ExhaustedLogged | zkpy/lock.py:155-222 | after ten retries, the log since the run began is exactly the ten passes' requests, and the last retry's reason is justified |
| DistributedLock.Lock.OnlyLockRequests | zkpy/lock.py:154-220 | a run of `_lock` makes only the lock's own requests: reading the session id, listing the parent, creating `<path>/<prefix>` with the lock's ACL, and `exists` on a child of the parent |
| DistributedLock.Lock.Contend | zkpy/lock.py:138-145 | the watcher is registered first, then `_lock`'s promises hold for the run. On success that is the whole log and the watcher stays registered. On failure exactly one unregister follows and the watcher is removed |
| DistributedLock.RetryOwnerKept | zkpy/lock.py:169-220 | the `_last_owner` a retry left still matches its reason after `id` changes. For a vanished neighbour or unconfirmed ownership, which name the marker, this needs the marker to be unchanged |
| RunLogFacts.RunLockRequests | zkpy/lock.py:154-220 | every request appended by a run of justified passes followed by a final pass is one the lock may make |
| RunLogFacts.PassListings | zkpy/lock.py:155-168 | each retried pass's listing, answered with the names that pass ranked, lies at its own position among the run's requests, and a later pass's listing lies later |
| RunLogFacts.MarkersAppend | zkpy/lock.py:157-191 | a pass that ranked the marker held when it began, or the one its marker step answered, extends the record of such passes, and the marker held after it is the one its retry reason leaves: none after an empty listing or a lost marker, the ranked one otherwise |
| RunLogFacts.ListingsLogged | zkpy/lock.py:155-168 | the same holds for the log once the run's requests are appended to it |
| RunLogFacts.RankingLogged | zkpy/lock.py:169-211 | what a verdict implies about the log after ranking: no request for an empty listing, a lost marker or the lowest marker; for a marker behind a neighbour, no request when that neighbour is already watched, and otherwise one `exists` whose answer decides between False and a retry |
| DistributedLock.Lock.RankListed | zkpy/lock.py:169-220 | by the verdict on the listing: an empty listing, or one without the held marker, clears `id` and retries with that reason, without a request; an empty listing leaves `_last_owner` as it was, one without the marker makes it the lowest child; lowest makes `_last_owner` the own marker and gives True when connected, otherwise retries, without a request; behind makes `_last_owner` the lowest child and gives False with the predecessor watched: kept without a request, or armed by one `exists` that found it present; when that `exists` found it gone, it retries; a return keeps `id`; `lock_acquired` fires only on True with a new owner |
| DistributedLock.Lock.SettleListing | zkpy/lock.py:169-220 | a pass that got its listing does one of two things. It returns a settled answer drawn from that listing, leaving the marker as it was. Or it retries for a reason the listing justifies, leaving as `_last_owner` the one it began with after an empty listing and the lowest child otherwise. The marker is cleared only for an empty listing or a lost marker. After the listing the log holds exactly the requests the outcome needs: none for a retry without an `exists`, one `exists` when a neighbour was found gone, or the watch a False answer armed |
| DistributedLock.Lock.PassJustified | zkpy/lock.py:169-220 | when `RankListed`'s contract holds for the listing just parsed, a return is a settled answer and a retry has a cause: the listing, the held marker and the `_last_owner` before the pass justify its reason |
| DistributedLock.Lock.RetryIsJustified | zkpy/lock.py:169-206 | a retry's reason matches the listing: empty (with `_last_owner` as before the pass), without the held marker, with a predecessor found gone by a logged `exists`, or lowest while disconnected |
| DistributedLock.Lock.LowestIsSettled | zkpy/lock.py:213-218 | a connected lock whose marker is the lowest and `_last_owner` settles on True, as owner and waiting to be owner |
| DistributedLock.Lock.BehindIsSettled | zkpy/lock.py:193-211 | a marker behind a watched predecessor settles on False: not owner, but waiting to be owner when connected |
| DistributedLock.Lock.RankingPass | zkpy/lock.py:156-220 | one pass returns a settled answer or a failure with its cause, or retries for a reason tied to the listing, an empty listing leaving `_last_owner` as it was; a held marker is kept unless the listing was empty or lacked it; without one, the marker ranked is exactly the one the pass's `_get_or_create_lock_node` answered (the first listed child with the session's prefix, or the one it created), which a retry records with that marker step's requests; NoNode (line 164) only without a marker held before, leaving `id` unset; either NoNode only after a request since the run began that the service answered with NoNode; every other failure leaves a marker held; a failure leaves `_last_owner` and the last parse as they were; the pass appends exactly its own requests: the marker step, the listing and, when a new neighbour was found, its `exists`, and for a retry the record of that retry |
| DistributedLock.Lock.TryLock | zkpy/lock.py:148-222 | `_lock` gives RuntimeError exactly after ten passes that all retried, the last for a reason the listing justifies; NoNode only with the parent missing and after a request of the run answered NoNode, the client's after a listing so answered, and ValueError only for a listed name; True only for an owner without predecessor, False only with the predecessor watched, each on a listing read during the run; the final pass ranked the marker held when it began (the one at entry, or the one the last retry kept) or, without one, exactly the marker its own `_get_or_create_lock_node` answered, and every recorded retry ranked a marker chosen the same way; after a failure other than RuntimeError a marker is held exactly when it is not zkpy's NoNode, which leaves `id` as at entry when no pass retried and None otherwise; a failure leaves `_last_owner` as at entry when no pass retried, otherwise as the last retry left it (the one before that retry after an empty listing, the lowest child otherwise); the ghost record holds each retry's reason and the `_last_owner` it left, and every empty listing in it kept the one before; a connected lock that answers is waiting to be owner; `lock_acquired` at most once and only for an owner other than the one at entry; the log since entry is exactly the requests of the retried passes, each justified by its own listing, followed by those of the final pass |
| DistributedLock.Lock.Attempt | zkpy/lock.py:155-220 | one turn of the loop: a pass that returns ends the run as `_lock` promises, with the retries so far as its record; a pass that retries keeps the loop's facts with itself recorded: the log only grown, the marker the run's own, the neighbour and the observer's counts untouched, its reason justified and `_last_owner` the one it left |
| DistributedLock.Lock.RetryLooped | zkpy/lock.py:155-220 | a justified retry keeps the loop's facts once it is recorded with the `_last_owner` it left |
| DistributedLock.RecordedAppend | zkpy/lock.py:169-172 | appending a retry that, after an empty listing, left `_last_owner` as it found it keeps the record, and makes its owner the one before the next pass |
| DistributedLock.Lock.PassReturned | zkpy/lock.py:155-220 | a run that stops inside its loop ends as `_lock` promises, given what the stopping pass promises and what the previous retry left |
| DistributedLock.Lock.PassExhausted | zkpy/lock.py:154-222 | ten passes that all started another end the run in RuntimeError. The run's requests are exactly those ten passes' requests. Each pass listed the children at a position of its own in the log, later than the previous pass's listing, and the retry reason it recorded is justified by that listing |
| DistributedLock.Lock.RetryShape | zkpy/lock.py:169-220 | a retry records the owner its reason implies (the one before the pass after an empty listing, the lowest child otherwise) and holds a marker exactly when it kept one: none after an empty listing or a lost marker, the own marker otherwise |
| DistributedLock.OwnerHoldsLowestMarker | zkpy/lock.py:213-218 | after True, the own marker is listed, is `_last_owner`, and has the strictly smallest number of the listing |
| DistributedLock.WaiterWatchesNextLower | zkpy/lock.py:193-211 | after False, the lock is not the lowest, and it watches the listed child with the largest number below its own |
| DistributedLock.Lock.Acquire | zkpy/lock.py:134-145 | an owner gets True with no request and no change; otherwise the global watcher is registered first, `_lock`'s promises hold, and the watcher is unregistered again, as the last request, exactly when `_lock` fails |
| DistributedLock.Lock.Unregister | zkpy/lock.py:142-145 | removing the watcher after a failed `_lock` keeps that failure's outcome and cause |
| DistributedLock.Lock.Release | zkpy/lock.py:237-264 | without a marker or connection nothing changes; otherwise the watcher is unregistered, `id` becomes None, exactly `<path>/<old id>` is deleted whatever the answer, the old marker is no longer a child when the parent exists, and `lock_released` fires once |
| DistributedLock.Lock.ConnectionWatcher | zkpy/lock.py:67-89 | Expired clears `id`, unregisters the watcher and fires `lock_released` once, with no other request and the children, the counter, the watches and the last listing untouched; Connected runs `_lock` with its promises; every other state changes nothing |
| DistributedLock.Lock.NeighborWatcher | zkpy/lock.py:114-132 | `_lock` runs again exactly when a marker is held and the event path names the watched neighbour; otherwise nothing changes |
| DistributedLock.Lock.AcquireTwice | tests/testlock.py:53-54 | once `acquire` answers True, a second `acquire` answers True too and the lock is still owner |
| DistributedLock.Lock.ReleaseTwice | tests/testlock.py:57-58 | releasing twice deletes once and fires `lock_released` once; without a marker or connection nothing changes |
| Coordination.Service.ClientId | zkpy/lock.py:158 | the session id is read without a round trip |
| Coordination.Service.GetAcl | zkpy/lock.py:47 | the parent's ACL, or NoNode when the path is not the existing parent |
| Coordination.Service.GetChildren | zkpy/lock.py:96 | the current children, or NoNode when the parent is missing |
| Coordination.Service.Create | zkpy/lock.py:105-108 | a sequential create appends the counter's digits and lists the new child, or fails with NoNode |
| Coordination.Service.Exists | zkpy/lock.py:198-200 | presence of the node at the time of the call, with the path added to the set of paths a watch was ever armed on |
| Coordination.Service.Delete | zkpy/lock.py:257 | a delete reports success only for a child under the existing parent; afterwards the child is gone, and the request is logged with its answer |
| Coordination.Service.AddGlobalWatcher | zkpy/lock.py:139 | the watcher is registered |
| Coordination.Service.RemoveGlobalWatcher | zkpy/lock.py:144 | the watcher is unregistered |

## Left out

- The ZooKeeper client itself (`zookeeper`, `zkpy.connection`) is not part
  of this model. `Service` stands in for it with an in-memory parent node
  and other contenders' changes queued in `pending`.
- The retry decorator `zk_retry_operation` (lines 147 and 257) is not part
  of this model. Each decorated call is one attempt, and connection-loss
  faults are not modelled.
- Concurrency between the event thread and the caller is not modelled. Each
  handler call is a separate sequential method call.
- Mutual exclusion across processes is not proved. It depends on server
  ordering and event timing.
- `__del__`, logging, the `uuid` default name and `main` are not modelled;
  they only run at teardown or produce diagnostics.
- The `path` and `id` properties are the plain fields `path` and `id`.
- Names.ParseSeq: accepts only ASCII digits. Python's `int` also accepts
  surrounding whitespace, a sign, underscores and other Unicode digits, none
  of which occur in the markers the service creates.
- DistributedLock.Lock.Release: the ordering "`id` is cleared before the
  delete" is visible only through a fault raised by the delete, and faults
  other than NoNode are not modelled.
- The observer is a flag `hasObserver` plus ghost counters of its two
  callbacks, not an object with code of its own.
- Ranking.SortBySeq: stability of the sort is a property of the definition
  (a child goes before equal-numbered ones that came after it) and is not
  stated as a separate lemma. The listing's numbers are distinct whenever
  the service assigns them.
- Coordination.Service.Exists: `watches` only records that a watch was
  armed on a path. That a watch fires once and is then consumed, and that
  the server drops a session's watches when it expires, are not modelled.
- DistributedLock.Lock.WatchKeptOrArmed: its "kept" case counts an
  unchanged `watchedNeighbor` as a live watch. After an expired session
  that watch may be gone (see the note above), so a False answer rests on
  a watch that may no longer be armed.
- No operation of the model changes the connection flags `connected` and
  `somehowConnected`. A connection lost during a run, or between a pass's
  requests, is not modelled. The `is_owner` check (line 215) fails only when
  the connection was down before the run began.
- Session ids and sequence counters are unbounded naturals. ZooKeeper's
  signed 64-bit session id and the counter's 32-bit overflow are not
  modelled.
