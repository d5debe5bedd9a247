/**
 * The client side of the lock recipe: a contender keeps an ephemeral,
 * sequential marker under the lock node, owns the lock while its marker is the
 * lowest, and otherwise watches the marker immediately before its own.
 */
module DistributedLock {
  import opened Wrappers
  import opened Names
  import opened Ranking
  import opened Coordination
  import opened RunLog
  import opened RunLogFacts

  /** Passes one run of the ranking loop may take before it gives up. */
  const MaxRetry: nat := 10

  /** The log and the lock's fields when a run of the ranking loop starts. */
  datatype Start = Start(
    log: seq<Call>, id: Option<string>, lastOwner: Option<string>, watchedNeighbor: Option<string>,
    acquiredCount: nat, releasedCount: nat)

  class Lock {
    const conn: Service
    const path: string
    const acls: Acl
    /** Whether an observer with `lock_acquired` and `lock_released` is attached. */
    const hasObserver: bool

    /** `_id`: the name of the lock's own marker. */
    var id: Option<string>
    /** `_last_owner`: the lowest child of the last pass. */
    var lastOwner: Option<string>
    /** `_watched_neighbor`: the predecessor an existence watch was armed on. */
    var watchedNeighbor: Option<string>

    /** Calls of the observer's `lock_acquired` and `lock_released`. */
    ghost var acquiredCount: nat
    ghost var releasedCount: nat
    /** The names of the last listing read, and their parse. */
    ghost var lastNames: seq<string>
    ghost var lastListing: seq<Child>

    constructor (conn: Service, path: string, acls: Acl, hasObserver: bool)
      ensures this.conn == conn && this.path == path && this.acls == acls && this.hasObserver == hasObserver
      ensures id == None && lastOwner == None && watchedNeighbor == None
      ensures acquiredCount == 0 && releasedCount == 0 && lastNames == [] && lastListing == []
    {
      this.conn := conn;
      this.path := path;
      this.acls := acls;
      this.hasObserver := hasObserver;
      id := None;
      lastOwner := None;
      watchedNeighbor := None;
      acquiredCount := 0;
      releasedCount := 0;
      lastNames := [];
      lastListing := [];
    }

    /** `is_owner`: connected, holding a marker, and that marker was the lowest of the last pass. */
    predicate IsOwner(): (r: bool)
      reads this`id, this`lastOwner, conn`somehowConnected
      ensures r ==> WaitingToBeOwner() && id == lastOwner
    {
      conn.somehowConnected && Truthy(id) && Truthy(lastOwner) && id == lastOwner
    }

    /** `waiting_to_be_owner`: connected, holding a marker, and a pass has seen a lowest child. */
    predicate WaitingToBeOwner(): (r: bool)
      reads this`id, this`lastOwner, conn`somehowConnected
      ensures r ==> conn.somehowConnected && Truthy(id)
    {
      conn.somehowConnected && Truthy(id) && Truthy(lastOwner)
    }

    /** The sorted listing of the last pass. */
    ghost function Ranked(): seq<Child>
      reads this`lastListing
    {
      SortBySeq(lastListing)
    }

    /**
     * What a pass that returns has established about the listing it read and
     * parsed: True only for a connected owner whose marker is the lowest;
     * False only for a listed marker behind a neighbour, which is the watched
     * one. Either way the lowest child is `lastOwner`, so a connected lock is
     * waiting to be owner.
     */
    ghost predicate Settled(r: Result<bool, LockError>)
      reads this`id, this`lastOwner, this`watchedNeighbor, this`lastNames, this`lastListing, conn`somehowConnected
    {
      && (r.Success? ==>
            && Truthy(id) && Truthy(lastOwner)
            && ParseListing(lastNames) == Success(lastListing)
            && (conn.somehowConnected ==> WaitingToBeOwner()))
      && (r == Success(true) ==> IsOwner() && Judge(lastListing, id.value) == Lowest(id.value))
      && (r == Success(false) ==>
            && !IsOwner() && Truthy(watchedNeighbor)
            && Judge(lastListing, id.value) == Behind(lastOwner.value, watchedNeighbor.value))
    }

    /**
     * After the last listing either the watched neighbour is still the one
     * watched before, `watched0`, and no request followed the listing; or a
     * watch was armed on the new one, found present, as the only request after
     * the listing.
     */
    ghost predicate WatchKeptOrArmed(watched0: Option<string>, log: seq<Call>)
      reads this`watchedNeighbor, this`lastNames
    {
      if watchedNeighbor == watched0 then
        |log| > 0 && log[|log| - 1] == GetChildrenCall(path, Some(lastNames))
      else
        && watchedNeighbor.Some? && |log| > 1
        && log[|log| - 2] == GetChildrenCall(path, Some(lastNames))
        && log[|log| - 1] == ExistsCall(path + "/" + watchedNeighbor.value, true)
    }

    /**
     * `m` is the marker `id0` held when the run started, or one named after
     * the current session.
     */
    ghost predicate OwnMarker(m: string, id0: Option<string>)
    {
      (Truthy(id0) && m == id0.value) || StartsWith(m, NodePrefix(conn.sessionId))
    }

    /**
     * A pass that raised did so for cause: NoNode only with the parent
     * missing and after a request since `log0` that the service answered with
     * NoNode (the listing of the children, or the create of a marker, in
     * `_get_or_create_lock_node`; the listing in `_lock`), ValueError only for
     * a name of a listing read since `log0`.
     */
    ghost predicate FailureJustified(err: LockError, log0: seq<Call>, log: seq<Call>)
      reads this`lastNames, conn`parentExists
    {
      match err
      case NoNode => !(conn.parentExists && path == conn.parent) && NoNodeAnswered(log0, log)
      case ServiceNoNode => !(conn.parentExists && path == conn.parent) && Since(log0, GetChildrenCall(path, None), log)
      case BadSequenceNumber(n) =>
        Since(log0, GetChildrenCall(path, Some(lastNames)), log) && ParseListing(lastNames) == Failure(n)
      case LockUnavailable => true
    }

    /**
     * Why a pass raised, as the lock's fields show it: NoNode only with the
     * parent missing, ValueError only for a name of the last listing read.
     */
    ghost predicate FailureCause(err: LockError)
      reads this`lastNames, conn`parentExists
    {
      match err
      case NoNode => !(conn.parentExists && path == conn.parent)
      case ServiceNoNode => !(conn.parentExists && path == conn.parent)
      case BadSequenceNumber(n) => ParseListing(lastNames) == Failure(n)
      case LockUnavailable => true
    }

    /** A request the service answered with NoNode: listing the lock's children, or creating a node. */
    ghost predicate NoNodeAnswer(c: Call)
    {
      c == GetChildrenCall(path, None) || (c.CreateCall? && c.created.None?)
    }

    /** Some request made since `log0` was answered with NoNode. */
    ghost predicate NoNodeAnswered(log0: seq<Call>, log: seq<Call>)
    {
      |log0| <= |log| && exists i :: |log0| <= i < |log| && NoNodeAnswer(log[i])
    }

    /**
     * A pass that went on to another did so for the reason it names, judged on
     * a listing read since `log0`: empty; without the marker it held; with a
     * predecessor that was gone when its watch was armed; or with the own
     * marker lowest while the connection is down.
     */
    ghost predicate RetryJustified(reason: RetryReason, log0: seq<Call>, id0: Option<string>, before: Option<string>, log: seq<Call>)
      reads this`id, this`lastOwner, this`watchedNeighbor, this`lastNames, this`lastListing, conn`somehowConnected
    {
      RetryCause(reason, id0, before) && RetryLogged(reason, log0, log)
    }

    /** The lock's state after a pass that went on to another, by reason; `before` is `_last_owner` when the pass began. */
    ghost predicate RetryCause(reason: RetryReason, id0: Option<string>, before: Option<string>)
      reads this`id, this`lastOwner, this`watchedNeighbor, this`lastNames, this`lastListing, conn`somehowConnected
    {
      && ParseListing(lastNames) == Success(lastListing)
      && RetryOwner(reason, id, lastOwner, before, lastListing)
      && match reason
         case EmptyListing => id == None && |lastListing| == 0
         case MarkerLost(m) => id == None && OwnMarker(m, id0) && Judge(lastListing, m).NotListed?
         case NeighborVanished(n) =>
           && Truthy(id) && Judge(lastListing, id.value).Behind? && Judge(lastListing, id.value).neighbor == n
           && Some(n) != watchedNeighbor
         case OwnershipUnconfirmed =>
           Truthy(id) && Judge(lastListing, id.value) == Lowest(id.value) && !conn.somehowConnected
    }

    /**
     * A run that stops inside its loop ends as `PassOutcome` says: `s0` is the
     * state the run began in, `s1` the one the stopping pass began in (with
     * `listing1` the parse it held) and the rest is what that pass promises.
     */
    lemma {:induction false} PassReturned(e: PassEnd, s0: Start, tries: seq<Retried>, s1: Start, listing1: seq<Child>, last: RetryReason,
                                          t: Retried, calls: seq<Call>, formerLockOwner: Option<string>)
      requires e.Return? && |tries| < MaxRetry && formerLockOwner == s0.lastOwner && releasedCount == s1.releasedCount
      requires var at := LoopingAt(s0, tries, last, s1, listing1); at
      requires var ended := PassEnded(e, t, calls, s1, listing1, formerLockOwner, s0.id); ended
      ensures PassOutcome(e.r, s0, tries, conn.log)
    {
      PassReturnedState(e, s0, tries, s1, listing1, last, t, calls, formerLockOwner);
      PassReturnedLogged(e, s0, tries, s1, listing1, last, t, calls, formerLockOwner);
    }

    /** The fields a returning pass leaves, as `PassState` states them. */
    lemma {:induction false} PassReturnedState(e: PassEnd, s0: Start, tries: seq<Retried>, s1: Start, listing1: seq<Child>, last: RetryReason,
                                               t: Retried, calls: seq<Call>, formerLockOwner: Option<string>)
      requires e.Return? && |tries| < MaxRetry && formerLockOwner == s0.lastOwner && releasedCount == s1.releasedCount
      requires var at := LoopingAt(s0, tries, last, s1, listing1); at
      requires var ended := PassEnded(e, t, calls, s1, listing1, formerLockOwner, s0.id); ended
      ensures PassState(e.r, s0, tries)
    {
      if e.r.Failure? && |tries| > 0 {
        RetryOwnerKept(last, s1.id, id, lastOwner, OwnerBefore(s0.lastOwner, tries, |tries| - 1), lastListing);
      }
    }

    /** The requests a returning pass leaves in the log, as `PassLogged` states them. */
    lemma {:induction false} PassReturnedLogged(e: PassEnd, s0: Start, tries: seq<Retried>, s1: Start, listing1: seq<Child>, last: RetryReason,
                                                t: Retried, calls: seq<Call>, formerLockOwner: Option<string>)
      requires e.Return? && |tries| < MaxRetry && formerLockOwner == s0.lastOwner && releasedCount == s1.releasedCount
      requires var at := LoopingAt(s0, tries, last, s1, listing1); at
      requires var ended := PassEnded(e, t, calls, s1, listing1, formerLockOwner, s0.id); ended
      ensures s0.log <= conn.log && PassLogged(e.r, s0, tries, conn.log)
    {
      var r, log := e.r, conn.log;
      assert log[|s1.log|..] == calls;
      FinalLogged(r, s0.log, s1.log, calls, log, Armed(s0.watchedNeighbor));
      if r == Success(false) {
        WatchFinal(s0.watchedNeighbor, s1.log, calls, log);
      }
    }

    /**
     * The requests of the pass that ended a run, appended to `log1`, show
     * what its answer was drawn from: the listing an answer parsed, the
     * request the service answered with NoNode, the listing with a bad name.
     */
    lemma {:induction false} FinalLogged(r: Result<bool, LockError>, log0: seq<Call>, log1: seq<Call>, calls: seq<Call>, log: seq<Call>, armed: Option<string>)
      requires log0 <= log1 && log == log1 + calls && r != Failure(LockUnavailable)
      requires var final := FinalCalls(r, calls, path, acls, NodePrefix(conn.sessionId), lastNames, armed); final
      requires r.Failure? ==> FailureCause(r.error)
      ensures r.Failure? ==> FailureJustified(r.error, log0, log)
      ensures r.Success? ==> Since(log0, GetChildrenCall(path, Some(lastNames)), log)
    {
      var prefix := NodePrefix(conn.sessionId);
      match r
      case Failure(NoNode) =>
        var i := NoNodeAt(calls, path, acls, prefix);
        assert log[|log1| + i] == calls[i];
        assert NoNodeAnswer(log[|log1| + i]);
      case Failure(ServiceNoNode) =>
        var k := ListedAt(calls, None, [], path, acls, prefix);
        assert log[|log1| + k] == calls[k];
      case Failure(BadSequenceNumber(_)) =>
        var k := ListedAt(calls, Some(lastNames), [], path, acls, prefix);
        assert log[|log1| + k] == calls[k];
      case Success(b) =>
        var k := ListedAt(calls, Some(lastNames), WatchTail(b, armed, path), path, acls, prefix);
        assert log[|log1| + k] == calls[k];
    }

    /** The requests of a retried pass `t`, appended to `log1`, are the ones its reason relies on. */
    lemma {:induction false} RetryLoggedAt(log0: seq<Call>, log1: seq<Call>, t: Retried)
      requires log0 <= log1 && conn.log == log1 + RetryCalls(t, path) && t.names == lastNames
      ensures RetryLogged(t.reason, log0, conn.log)
    {
      var k := |log1| + |t.prelude|;
      assert conn.log[k] == GetChildrenCall(path, Some(lastNames));
      if t.reason.NeighborVanished? {
        assert conn.log[|conn.log| - 1] == ExistsCall(path + "/" + t.reason.neighbor, false);
      }
    }

    /** What a retry leaves behind: the owner it records, and a marker only when it kept one. */
    lemma {:induction false} RetryShape(reason: RetryReason, id0: Option<string>, before: Option<string>)
      requires RetryCause(reason, id0, before)
      ensures RetryOwner(reason, id, lastOwner, before, lastListing)
      ensures reason.EmptyListing? || reason.MarkerLost? ==> id == None
      ensures reason.NeighborVanished? || reason.OwnershipUnconfirmed? ==> Truthy(id)
    {
    }

    /** The requests since `log0` behind a retry: the listing, and the watch on a vanished neighbour. */
    ghost predicate RetryLogged(reason: RetryReason, log0: seq<Call>, log: seq<Call>)
      reads this`lastNames
    {
      && Since(log0, GetChildrenCall(path, Some(lastNames)), log)
      && (reason.NeighborVanished? ==> Since(log0, ExistsCall(path + "/" + reason.neighbor, false), log))
    }

    /** The log and the lock's fields now, as the start of a run of the ranking loop. */
    ghost function Now(): Start
      reads this`id, this`lastOwner, this`watchedNeighbor, this`acquiredCount, this`releasedCount, conn`log
    {
      Start(conn.log, id, lastOwner, watchedNeighbor, acquiredCount, releasedCount)
    }

    /** The neighbour a pass armed a watch on, when it is not `watched0`, the one watched before. */
    ghost function Armed(watched0: Option<string>): Option<string>
      reads this`watchedNeighbor
    {
      if watchedNeighbor == watched0 then None else watchedNeighbor
    }

    /**
     * What one run of the ranking loop promises, `s0` being where it started
     * and `tries` the passes that started another, each with its reason and
     * the `_last_owner` it left: the requests it made were appended to the
     * log, it settled its answer in `PassState`, and it can point at the
     * requests that justify it in `PassLogged`: the requests of every pass
     * that started another, then those of the pass that ended the run.
     */
    ghost predicate PassOutcome(r: Result<bool, LockError>, s0: Start, tries: seq<Retried>, log: seq<Call>)
      reads this`id, this`lastOwner, this`watchedNeighbor, this`acquiredCount, this`releasedCount
      reads this`lastNames, this`lastListing
      reads conn`somehowConnected, conn`parentExists
    {
      && s0.log <= log
      && (var state := PassState(r, s0, tries); state)
      && (var logged := PassLogged(r, s0, tries, log); logged)
    }

    /**
     * The answer of a run as the lock's fields show it: settled on the lock's
     * own marker; a False answer that leaves the neighbour watched; the
     * observer's `lock_acquired` at most once, on a change of owner;
     * RuntimeError exactly when ten passes all started another; a failure
     * leaves `_last_owner` as the last retry left it, or as at entry.
     */
    ghost predicate PassState(r: Result<bool, LockError>, s0: Start, tries: seq<Retried>)
      reads this`id, this`lastOwner, this`watchedNeighbor, this`acquiredCount, this`releasedCount
      reads this`lastNames, this`lastListing
      reads conn`somehowConnected
    {
      && releasedCount == s0.releasedCount
      && |tries| <= MaxRetry
      && (r == Failure(LockUnavailable) <==> |tries| == MaxRetry)
      && (r.Success? ==> id.Some? && OwnMarker(id.value, s0.id))
      && (r.Failure? && r.error != LockUnavailable ==> (Truthy(id) <==> r.error != NoNode))
      && (r == Failure(NoNode) ==> id == (if |tries| == 0 then s0.id else None))
      && Recorded(s0.lastOwner, tries)
      && (r.Failure? ==> lastOwner == OwnerBefore(s0.lastOwner, tries, |tries|))
      && (r.Failure? && |tries| > 0 ==>
            RetryOwner(tries[|tries| - 1].reason, id, lastOwner, OwnerBefore(s0.lastOwner, tries, |tries| - 1), lastListing))
      && acquiredCount == s0.acquiredCount + (if r == Success(true) && hasObserver && s0.lastOwner != id then 1 else 0)
      && (r != Success(false) ==> watchedNeighbor == s0.watchedNeighbor)
      && Settled(r)
    }

    /**
     * The requests since the run started that justify its answer: the
     * listing an answer was drawn from, the watch a False answer relies on,
     * the cause of a failure, and the cause of the last retry before
     * RuntimeError.
     */
    ghost predicate PassLogged(r: Result<bool, LockError>, s0: Start, tries: seq<Retried>, log: seq<Call>)
      reads this`id, this`lastOwner, this`watchedNeighbor, this`lastNames, this`lastListing
      reads conn`somehowConnected, conn`parentExists
    {
      && (r == Failure(LockUnavailable) && |tries| == MaxRetry ==>
            RetryJustified(tries[MaxRetry - 1].reason, s0.log, s0.id, OwnerBefore(s0.lastOwner, tries, MaxRetry - 1), log))
      && (r.Failure? ==> FailureJustified(r.error, s0.log, log))
      && (r.Success? ==> Since(s0.log, GetChildrenCall(path, Some(lastNames)), log))
      && (r == Success(false) ==> WatchKeptOrArmed(s0.watchedNeighbor, log))
      && AllJustified(tries, path, acls, NodePrefix(conn.sessionId), s0.id)
      && AllRankOwn(tries, s0.id, path, NodePrefix(conn.sessionId))
      && var run := s0.log + RunCalls(tries, path);
         && run <= log
         && FinalCalls(r, log[|run|..], path, acls, NodePrefix(conn.sessionId), lastNames, Armed(s0.watchedNeighbor))
         && FinalMarker(r, log[|run|..], MarkerBefore(s0.id, tries, |tries|), id, path, NodePrefix(conn.sessionId), Armed(s0.watchedNeighbor))
    }

    /**
     * `_get_or_create_lock_node`: the first listed child that starts with
     * `prefix`, without creating anything; otherwise one new marker, returned
     * without the leading `<path>/`. None stands for NoNode.
     */
    method GetOrCreateLockNode(prefix: string) returns (r: Option<string>, ghost listing: Option<seq<string>>, ghost created: Option<string>)
      modifies conn`children, conn`parentExists, conn`pending, conn`nextSeq, conn`log
      ensures listing.None? ==> r.None? && conn.log == old(conn.log) + [GetChildrenCall(path, listing)]
      ensures listing.Some? && PrefixIndex(listing.value, prefix) < |listing.value| ==>
        && r == Some(listing.value[PrefixIndex(listing.value, prefix)])
        && conn.log == old(conn.log) + [GetChildrenCall(path, listing)]
      ensures listing.Some? && PrefixIndex(listing.value, prefix) == |listing.value| ==>
        && conn.log == old(conn.log) + [GetChildrenCall(path, listing), CreateCall(path + "/" + prefix, acls, created)]
        && (created.None? ==> r.None?)
        && (created.Some? ==> r.Some? && created.value == path + "/" + r.value)
      ensures r.Some? ==> StartsWith(r.value, prefix)
      ensures r.None? ==> !(conn.parentExists && path == conn.parent)
      ensures GotOrCreated(path, prefix, listing, created, r)
      ensures conn.log == old(conn.log) + GetOrCreateLog(path, acls, prefix, listing, created)
    {
      created := None;
      var answer := conn.GetChildren(path);
      listing := answer;
      if answer.None? {
        return None, listing, created;
      }
      var children := answer.value;
      for i := 0 to |children|
        invariant forall j :: 0 <= j < i ==> !StartsWith(children[j], prefix)
      {
        if StartsWith(children[i], prefix) {
          return Some(children[i]), listing, created;
        }
      }
      r, created := CreateMarker(prefix);
    }

    /**
     * The creating half of `_get_or_create_lock_node`: a sequential node
     * named `prefix` under the lock's path, returned without the leading
     * `<path>/`. None stands for NoNode.
     */
    method CreateMarker(prefix: string) returns (r: Option<string>, ghost created: Option<string>)
      modifies conn`children, conn`parentExists, conn`pending, conn`nextSeq, conn`log
      ensures conn.log == old(conn.log) + [CreateCall(path + "/" + prefix, acls, created)]
      ensures created.None? ==> r.None? && !(conn.parentExists && path == conn.parent)
      ensures created.Some? ==> r.Some? && created.value == path + "/" + r.value && StartsWith(r.value, prefix)
    {
      var made := conn.Create(path + "/" + prefix, acls);
      created := made;
      if made.None? {
        JoinedPath(path, prefix);
        return None, created;
      }
      SequentialPath(path, prefix, SeqDigits(old(conn.nextSeq)));
      r := Some(SliceFrom(made.value, |path| + 1));
    }

    /**
     * The first step of a pass: without a marker, find or create one named
     * after the session. False stands for NoNode, raised only when the parent
     * is missing.
     */
    method EnsureMarker()
      returns (ok: bool, ghost listing: Option<seq<string>>, ghost created: Option<string>, ghost found: Option<string>, ghost pre: seq<Call>)
      modifies this`id, conn`children, conn`parentExists, conn`pending, conn`nextSeq, conn`log
      ensures ok ==> Truthy(id)
      ensures conn.log == old(conn.log) + pre
      ensures Truthy(old(id)) ==> ok && id == old(id) && pre == []
      ensures !Truthy(old(id)) ==>
        && GotOrCreated(path, NodePrefix(conn.sessionId), listing, created, found)
        && pre == [ClientIdCall] + GetOrCreateLog(path, acls, NodePrefix(conn.sessionId), listing, created)
        && (ok <==> found.Some?)
        && id == (if ok then found else old(id))
      ensures !Truthy(old(id)) && ok ==> StartsWith(id.value, NodePrefix(conn.sessionId))
      ensures !ok ==> id == old(id) && !(conn.parentExists && path == conn.parent)
      ensures !ok ==> |conn.log| > |old(conn.log)| && NoNodeAnswer(conn.log[|conn.log| - 1])
      ensures ok ==> Prelude(pre, path, acls, NodePrefix(conn.sessionId))
      ensures ok ==> RanksMarker(pre, old(id), id, path, NodePrefix(conn.sessionId))
      ensures !ok ==> NoNodeCalls(pre, path, acls, NodePrefix(conn.sessionId))
    {
      listing, created, found, pre := None, None, None, [];
      if Truthy(id) {
        return true, listing, created, found, pre;
      }
      ghost var log0 := conn.log;
      var sessionId := conn.ClientId();
      var prefix := NodePrefix(sessionId);
      var node;
      node, listing, created := GetOrCreateLockNode(prefix);
      found := node;
      pre := [ClientIdCall] + GetOrCreateLog(path, acls, prefix, listing, created);
      assert conn.log == log0 + pre;
      GetOrCreatePrelude(path, acls, prefix, listing, created, found);
      if node.None? {
        return false, listing, created, found, pre;
      }
      assert |prefix| > 0 && StartsWith(node.value, prefix);
      id := node;
      return true, listing, created, found, pre;
    }

    /** A marker behind a neighbour, with that neighbour watched and the lowest child as last owner, settles on False. */
    lemma {:induction false} BehindIsSettled(held: string)
      requires ParseListing(lastNames) == Success(lastListing)
      requires id == Some(held) && Judge(lastListing, held).Behind?
      requires lastOwner == Some(Judge(lastListing, held).owner)
      requires watchedNeighbor == Some(Judge(lastListing, held).neighbor)
      ensures Settled(Success(false))
    {
      var v := Judge(lastListing, held);
      JudgeCases(lastListing, held);
      ParsedNamesNonEmpty(lastNames, lastListing);
      assert v.owner != held && v.owner != "" && v.neighbor != "";
      assert v == Behind(lastOwner.value, watchedNeighbor.value);
      assert Judge(lastListing, id.value) == Behind(lastOwner.value, watchedNeighbor.value);
      assert !IsOwner();
      assert Truthy(id) && Truthy(lastOwner) && Truthy(watchedNeighbor);
      assert conn.somehowConnected ==> WaitingToBeOwner();
    }

    /**
     * What `RankListed` did with the parse `listed`, in a pass that held a
     * marker in state `s`, by the verdict on the listing and the held marker:
     * an empty listing, or one without the marker, clears `id` and retries;
     * the lowest marker owns when connected and retries otherwise; a marker
     * behind a neighbour keeps the watch on it, or arms one with a successful
     * `exists`, or retries when that `exists` found it gone. The marker is
     * kept otherwise, `lock_acquired` fires only for True on a change of
     * owner, and the watched neighbour changes only for False.
     */
    ghost predicate RankedFrom(e: PassEnd, listed: seq<Child>, s: Start, formerLockOwner: Option<string>)
      reads this`id, this`lastOwner, this`watchedNeighbor, this`acquiredCount, conn`somehowConnected, conn`log
    {
      && Truthy(s.id)
      && (id == s.id || id == None) && (e.Return? ==> id == s.id)
      && acquiredCount == s.acquiredCount + (if e == Return(Success(true)) && hasObserver && formerLockOwner != id then 1 else 0)
      && (e != Return(Success(false)) ==> watchedNeighbor == s.watchedNeighbor)
      && var v := Judge(listed, s.id.value);
      && (v.NoChildren? ==> e == Retry(EmptyListing) && id == None && lastOwner == s.lastOwner && conn.log == s.log)
      && (v.NotListed? ==> e == Retry(MarkerLost(s.id.value)) && id == None && lastOwner == Some(v.owner) && conn.log == s.log)
      && (v.Lowest? ==>
            && id == s.id && lastOwner == s.id && conn.log == s.log
            && e == (if conn.somehowConnected then Return(Success(true)) else Retry(OwnershipUnconfirmed)))
      && (v.Behind? ==>
            && id == s.id && lastOwner == Some(v.owner)
            && (Some(v.neighbor) == s.watchedNeighbor ==> e == Return(Success(false)) && conn.log == s.log)
            && (|| (e == Return(Success(false)) && watchedNeighbor == Some(v.neighbor)
                    && (Some(v.neighbor) == s.watchedNeighbor || conn.log == s.log + [ExistsCall(path + "/" + v.neighbor, true)]))
                || (e == Retry(NeighborVanished(v.neighbor)) && Some(v.neighbor) != s.watchedNeighbor
                    && conn.log == s.log + [ExistsCall(path + "/" + v.neighbor, false)])))
    }

    /**
     * How a pass that ranked the parse `listed` of the last listing ended: a
     * return is settled on the listing, and a retry has its cause.
     */
    lemma {:induction false} PassJustified(e: PassEnd, listed: seq<Child>, s: Start, formerLockOwner: Option<string>, id0: Option<string>)
      requires ParseListing(lastNames) == Success(listed) && lastListing == listed
      requires RankedFrom(e, listed, s, formerLockOwner) && OwnMarker(s.id.value, id0)
      ensures e.Return? ==> e.r.Success? && Settled(e.r)
      ensures e.Retry? ==> RetryCause(e.reason, id0, s.lastOwner)
    {
      var held := s.id.value;
      var v := Judge(listed, held);
      if e.Return? {
        if v.Lowest? {
          LowestIsSettled(held);
        } else {
          BehindIsSettled(held);
        }
      } else {
        RetryIsJustified(e, held, v, id0, s.lastOwner);
      }
    }

    /**
     * The requests of a pass that returned False, appended to `log1`, end with
     * the listing when the watched neighbour `watched0` was kept, and with the
     * listing and a successful `exists` on the new one otherwise.
     */
    lemma {:induction false} WatchFinal(watched0: Option<string>, log1: seq<Call>, calls: seq<Call>, log: seq<Call>)
      requires log == log1 + calls && watchedNeighbor.Some?
      requires Listed(calls, Some(lastNames), WatchTail(false, Armed(watched0), path), path, acls, NodePrefix(conn.sessionId))
      ensures WatchKeptOrArmed(watched0, log)
    {
      var k := ListedAt(calls, Some(lastNames), WatchTail(false, Armed(watched0), path), path, acls, NodePrefix(conn.sessionId));
      assert log[|log1| + k] == calls[k];
      if watchedNeighbor != watched0 {
        assert log[|log1| + k + 1] == calls[k + 1];
      }
    }

    /** A pass that asked for another: its reason is caused by the listing or the session. */
    lemma {:induction false} RetryIsJustified(e: PassEnd, held: string, v: Verdict, id0: Option<string>, owner0: Option<string>)
      requires e.Retry?
      requires ParseListing(lastNames) == Success(lastListing) && v == Judge(lastListing, held) && OwnMarker(held, id0)
      requires v.NoChildren? ==> e == Retry(EmptyListing) && id == None && lastOwner == owner0
      requires v.NotListed? ==> e == Retry(MarkerLost(held)) && id == None && lastOwner == Some(v.owner)
      requires v.Lowest? ==> id == Some(held) && lastOwner == Some(held) && !conn.somehowConnected && e == Retry(OwnershipUnconfirmed)
      requires v.Behind? ==>
        && id == Some(held) && lastOwner == Some(v.owner) && e == Retry(NeighborVanished(v.neighbor)) && Some(v.neighbor) != watchedNeighbor
      ensures RetryCause(e.reason, id0, owner0)
    {
      match v
      case NoChildren =>
        JudgeCases(lastListing, held);
        assert RetryCause(EmptyListing, id0, owner0);
      case NotListed(_) =>
        assert RetryCause(MarkerLost(held), id0, owner0);
      case Lowest(_) =>
        assert RetryCause(OwnershipUnconfirmed, id0, owner0);
      case Behind(_, n) =>
        assert RetryCause(NeighborVanished(n), id0, owner0);
    }

    /** A connected lock whose marker is the lowest and the last owner settles on True. */
    lemma {:induction false} LowestIsSettled(held: string)
      requires ParseListing(lastNames) == Success(lastListing)
      requires id == Some(held) && Judge(lastListing, held) == Lowest(held)
      requires lastOwner == id && conn.somehowConnected
      ensures Settled(Success(true))
    {
      JudgeCases(lastListing, held);
      ParsedNamesNonEmpty(lastNames, lastListing);
    }

    /**
     * The part of a pass before ranking: hold a marker, list the children and
     * parse their sequence numbers. `id0` is the marker at the start of the
     * run.
     */
    method ListMarkers(ghost id0: Option<string>)
      returns (r: Result<seq<Child>, LockError>, ghost listing: Option<seq<string>>, ghost created: Option<string>, ghost found: Option<string>,
               ghost pre: seq<Call>)
      requires Truthy(id) ==> OwnMarker(id.value, id0)
      modifies this`id, this`lastNames, this`lastListing
      modifies conn`children, conn`parentExists, conn`pending, conn`nextSeq, conn`log
      ensures Truthy(old(id)) ==> id == old(id)
      ensures Truthy(id) ==> OwnMarker(id.value, id0)
      ensures r.Success? ==> Truthy(id) && JustListed(r.value)
      ensures r.Failure? ==> r.error != LockUnavailable && FailureCause(r.error)
      ensures r == Failure(NoNode) ==> !Truthy(old(id)) && id == old(id)
      ensures r.Failure? && r.error != NoNode ==> Truthy(id)
      ensures r.Failure? ==> lastListing == old(lastListing)
      ensures !Truthy(old(id)) ==>
        && GotOrCreated(path, NodePrefix(conn.sessionId), listing, created, found)
        && (r == Failure(NoNode) <==> found.None?)
        && (found.Some? ==> id == found)
      ensures r == Failure(NoNode) ==> NoNodeCalls(pre, path, acls, NodePrefix(conn.sessionId)) && conn.log == old(conn.log) + pre
      ensures r != Failure(NoNode) ==>
        && Prelude(pre, path, acls, NodePrefix(conn.sessionId))
        && conn.log == old(conn.log) + pre + [GetChildrenCall(path, if r == Failure(ServiceNoNode) then None else Some(lastNames))]
      ensures r != Failure(NoNode) ==> var ranks := RanksMarker(pre, old(id), id, path, NodePrefix(conn.sessionId)); ranks
    {
      var ok;
      ok, listing, created, found, pre := EnsureMarker();
      if !ok {
        assert !Truthy(old(id)) && id == old(id);
        assert NoNodeAnswer(conn.log[|conn.log| - 1]);
        return Failure(NoNode), listing, created, found, pre;
      }
      assert Truthy(id) && OwnMarker(id.value, id0);
      r := ListChildren();
    }

    /** `listed` is the parse of the names the last listing of the children returned. */
    ghost predicate JustListed(listed: seq<Child>)
      reads this`lastNames, this`lastListing, conn`children
    {
      && lastListing == listed
      && ParseListing(lastNames) == Success(listed)
      && lastNames == conn.children
    }

    /** The listing half of a pass: list the children and parse their sequence numbers. */
    method ListChildren() returns (r: Result<seq<Child>, LockError>)
      modifies this`lastNames, this`lastListing, conn`children, conn`parentExists, conn`pending, conn`log
      ensures r.Success? ==> JustListed(r.value)
      ensures r.Failure? ==> (r.error.ServiceNoNode? || r.error.BadSequenceNumber?) && FailureCause(r.error)
      ensures r.Failure? ==> lastListing == old(lastListing)
      ensures r == Failure(ServiceNoNode) ==> conn.log == old(conn.log) + [GetChildrenCall(path, None)]
      ensures conn.log == old(conn.log) + [GetChildrenCall(path, if r == Failure(ServiceNoNode) then None else Some(lastNames))]
    {
      var answer := conn.GetChildren(path);
      if answer.None? {
        return Failure(ServiceNoNode);
      }
      lastNames := answer.value;
      var parsed := ParseListing(answer.value);
      if parsed.Failure? {
        return Failure(BadSequenceNumber(parsed.error));
      }
      lastListing := parsed.value;
      return Success(parsed.value);
    }

    /** The requests a pass made after its listing: the `exists` its retry relies on, or the one that armed a new watch. */
    ghost function AfterListing(e: PassEnd, watched0: Option<string>): seq<Call>
      reads this`watchedNeighbor
    {
      match e
      case Retry(reason) => RetryTail(reason, path)
      case Return(r) => if r.Success? then WatchTail(r.value, Armed(watched0), path) else []
    }

    /**
     * How ranking the parse `listed` ended a pass that had listed it in state
     * `s`: any marker held is the run's own and is kept unless the listing
     * was empty or lacked it; the observer's `lock_acquired` at most once, on
     * a change of owner; the watched neighbour changes only for False; an
     * answer is settled, and a retry has its cause and fits the listing; the
     * only requests are those `AfterListing` names.
     */
    ghost predicate ListingSettled(e: PassEnd, listed: seq<Child>, s: Start, formerLockOwner: Option<string>, id0: Option<string>)
      reads this`id, this`lastOwner, this`watchedNeighbor, this`acquiredCount, this`lastNames, this`lastListing
      reads conn`somehowConnected, conn`log
    {
      && (Truthy(id) ==> var own := OwnMarker(id.value, id0); own)
      && id == (if e == Retry(EmptyListing) || (e.Retry? && e.reason.MarkerLost?) then None else s.id)
      && acquiredCount == s.acquiredCount + (if e == Return(Success(true)) && hasObserver && formerLockOwner != id then 1 else 0)
      && (e != Return(Success(false)) ==> watchedNeighbor == s.watchedNeighbor)
      && (e.Return? ==> e.r.Success? && var settled := Settled(e.r); settled)
      && (e.Retry? ==> (var caused := RetryCause(e.reason, id0, s.lastOwner); caused) && s.id.Some? && var fits := Fits(e.reason, lastOwner, s.id.value, listed); fits)
      && conn.log == s.log + AfterListing(e, s.watchedNeighbor)
    }

    /**
     * The part of a pass after a successful listing: rank it, and justify the
     * answer or the retry by the listing.
     */
    method SettleListing(listed: seq<Child>, formerLockOwner: Option<string>, ghost id0: Option<string>) returns (e: PassEnd)
      requires Truthy(id) && OwnMarker(id.value, id0) && JustListed(listed)
      modifies this`id, this`lastOwner, this`watchedNeighbor, this`acquiredCount
      modifies conn`children, conn`parentExists, conn`pending, conn`watches, conn`log
      ensures var settled := ListingSettled(e, listed, old(Now()), formerLockOwner, id0); settled
    {
      ParsedNamesNonEmpty(lastNames, listed);
      ghost var s := Now();
      e := RankListed(listed, formerLockOwner);
      RankedSettled(e, listed, s, formerLockOwner, id0);
    }

    /**
     * `RankListed`'s outcome on the parse `listed` of the last listing, for a
     * pass that held a marker of the run's own in state `s`, settles the pass
     * as `ListingSettled` says.
     */
    lemma {:induction false} RankedSettled(e: PassEnd, listed: seq<Child>, s: Start, formerLockOwner: Option<string>, id0: Option<string>)
      requires var from :=
        && ParseListing(lastNames) == Success(listed) && lastListing == listed
        && (var ranked := RankedFrom(e, listed, s, formerLockOwner); ranked) && OwnMarker(s.id.value, id0);
        from
      ensures ListingSettled(e, listed, s, formerLockOwner, id0)
    {
      PassJustified(e, listed, s, formerLockOwner, id0);
      RankedLogged(e, listed, s, formerLockOwner);
    }

    /**
     * The requests `RankListed` made after the listing are those
     * `AfterListing` names, and a retry fits the listing.
     */
    lemma {:induction false} RankedLogged(e: PassEnd, listed: seq<Child>, s: Start, formerLockOwner: Option<string>)
      requires ParseListing(lastNames) == Success(listed) && RankedFrom(e, listed, s, formerLockOwner)
      ensures e.Retry? ==> Fits(e.reason, lastOwner, s.id.value, listed)
      ensures conn.log == s.log + AfterListing(e, s.watchedNeighbor)
    {
      var held := s.id.value;
      RankingLogged(e, held, Judge(listed, held), s.log, conn.log, lastOwner, s.watchedNeighbor, watchedNeighbor, lastNames, listed, path);
    }

    /**
     * How a pass that began in state `s`, with `listing0` the parse then held,
     * ended with `e`: any marker held is the run's own, and one held at the
     * start is kept unless the listing was empty or lacked it; NoNode only
     * without a marker held before, leaving `id` unset; every other failure
     * leaves a marker held, and any failure leaves `_last_owner` and the parse
     * as they were; the observer's `lock_acquired` at most once, on a change
     * of owner; the watched neighbour changes only for False; an answer is
     * settled, a failure has its cause, a retry its reason. `calls` are the
     * requests the pass appended to the log: for an answer those `FinalCalls`
     * allows, for a retry those of `t`, which records its reason, the
     * `_last_owner` it left and its listing, and is justified.
     */
    ghost predicate PassEnded(e: PassEnd, t: Retried, calls: seq<Call>, s: Start, listing0: seq<Child>, formerLockOwner: Option<string>, id0: Option<string>)
      reads this`id, this`lastOwner, this`watchedNeighbor, this`acquiredCount, this`lastNames, this`lastListing
      reads conn`somehowConnected, conn`parentExists, conn`log
    {
      && (var state := PassEndedState(e, s, listing0, formerLockOwner, id0); state)
      && (var logged := PassEndedLogged(e, t, calls, s, id0); logged)
    }

    /** The fields a pass leaves, as `PassEnded` states them. */
    ghost predicate PassEndedState(e: PassEnd, s: Start, listing0: seq<Child>, formerLockOwner: Option<string>, id0: Option<string>)
      reads this`id, this`lastOwner, this`watchedNeighbor, this`acquiredCount, this`lastNames, this`lastListing
      reads conn`somehowConnected, conn`parentExists, conn`log
    {
      && (Truthy(id) ==> var own := OwnMarker(id.value, id0); own)
      && (Truthy(s.id) && !(e == Retry(EmptyListing) || (e.Retry? && e.reason.MarkerLost?)) ==> id == s.id)
      && (e == Return(Failure(NoNode)) ==> !Truthy(s.id) && id == s.id)
      && (e.Return? && e.r.Failure? && e.r.error != NoNode ==> Truthy(id))
      && (e.Return? && e.r.Failure? ==> lastOwner == s.lastOwner && lastListing == listing0)
      && acquiredCount == s.acquiredCount + (if e == Return(Success(true)) && hasObserver && formerLockOwner != id then 1 else 0)
      && (e != Return(Success(false)) ==> watchedNeighbor == s.watchedNeighbor)
      && (e.Return? ==> e.r != Failure(LockUnavailable) && var settled := Settled(e.r); settled)
      && (e.Return? && e.r.Failure? ==> var caused := FailureCause(e.r.error); caused)
      && (e.Retry? ==> var caused := RetryCause(e.reason, id0, s.lastOwner); caused)
    }

    /** The requests a pass leaves in the log, as `PassEnded` states them. */
    ghost predicate PassEndedLogged(e: PassEnd, t: Retried, calls: seq<Call>, s: Start, id0: Option<string>)
      reads this`id, this`lastOwner, this`watchedNeighbor, this`acquiredCount, this`lastNames, this`lastListing
      reads conn`somehowConnected, conn`parentExists, conn`log
    {
      && conn.log == s.log + calls
      && (e.Return? ==> var final := FinalCalls(e.r, calls, path, acls, NodePrefix(conn.sessionId), lastNames, Armed(s.watchedNeighbor)); final)
      && (e.Return? ==> var marked := FinalMarker(e.r, calls, s.id, id, path, NodePrefix(conn.sessionId), Armed(s.watchedNeighbor)); marked)
      && (e.Retry? ==>
            && t.reason == e.reason && t.owner == lastOwner && t.names == lastNames && calls == RetryCalls(t, path)
            && id == MarkerAfter(t)
            && (var ranks := RanksMarker(t.prelude, s.id, Some(t.marker), path, NodePrefix(conn.sessionId)); ranks)
            && var justified := Justified(t, path, acls, NodePrefix(conn.sessionId), id0); justified)
    }

    /**
     * One pass of `_lock`: make sure a marker is held, list and rank the
     * children, then either return (True as owner, False once the predecessor
     * is watched) or go on to the next pass for the reason given. `id0` is
     * the marker at the start of the run.
     */
    method RankingPass(formerLockOwner: Option<string>, ghost id0: Option<string>) returns (e: PassEnd, ghost t: Retried, ghost calls: seq<Call>)
      requires Truthy(id) ==> OwnMarker(id.value, id0)
      modifies this`id, this`lastOwner, this`watchedNeighbor, this`acquiredCount, this`lastNames, this`lastListing
      modifies conn`children, conn`parentExists, conn`pending, conn`nextSeq, conn`watches, conn`log
      ensures var ended := PassEnded(e, t, calls, old(Now()), old(lastListing), formerLockOwner, id0); ended
    {
      ghost var s, listing0 := Now(), lastListing;
      t := Retried(EmptyListing, None, "", [], []);
      var listed, _, _, _, pre := ListMarkers(id0);
      if listed.Failure? {
        calls := ListingFailed(listed, t, pre, s, listing0, formerLockOwner, id0);
        return Return(Failure(listed.error)), t, calls;
      }
      ghost var s1 := Now();
      e := SettleListing(listed.value, formerLockOwner, id0);
      calls := pre + [GetChildrenCall(path, Some(lastNames))] + AfterListing(e, s.watchedNeighbor);
      if e.Retry? {
        t := Retried(e.reason, lastOwner, s1.id.value, pre, lastNames);
      }
      ListingRanked(e, t, calls, listed.value, pre, s, s1, listing0, formerLockOwner, id0);
    }

    /** A pass whose listing was not reached or did not parse ends as `PassEnded` says, with the requests it made. */
    lemma {:induction false} ListingFailed(r: Result<seq<Child>, LockError>, t: Retried, pre: seq<Call>, s: Start, listing0: seq<Child>,
                                           formerLockOwner: Option<string>, id0: Option<string>)
      returns (calls: seq<Call>)
      requires r.Failure? && r.error != LockUnavailable && var caused := FailureCause(r.error); caused
      requires var kept :=
        && (Truthy(id) ==> var own := OwnMarker(id.value, id0); own)
        && lastOwner == s.lastOwner && watchedNeighbor == s.watchedNeighbor && acquiredCount == s.acquiredCount
        && lastListing == listing0 && (Truthy(s.id) ==> id == s.id)
        && (r == Failure(NoNode) ==> !Truthy(s.id) && id == s.id)
        && (r.error != NoNode ==> Truthy(id));
        kept
      requires r == Failure(NoNode) ==> (var nonode := NoNodeCalls(pre, path, acls, NodePrefix(conn.sessionId)); nonode) && conn.log == s.log + pre
      requires r != Failure(NoNode) ==>
        && (var prelude := Prelude(pre, path, acls, NodePrefix(conn.sessionId)); prelude)
        && (var ranks := RanksMarker(pre, s.id, id, path, NodePrefix(conn.sessionId)); ranks)
        && conn.log == s.log + pre + [GetChildrenCall(path, if r == Failure(ServiceNoNode) then None else Some(lastNames))]
      ensures PassEnded(Return(Failure(r.error)), t, calls, s, listing0, formerLockOwner, id0)
    {
      ListingFailedState(r, s, listing0, formerLockOwner, id0);
      calls := ListingFailedLogged(r, t, pre, s, id0);
    }

    /** The fields a pass whose listing was not reached or did not parse leaves. */
    lemma {:induction false} ListingFailedState(r: Result<seq<Child>, LockError>, s: Start, listing0: seq<Child>,
                                                formerLockOwner: Option<string>, id0: Option<string>)
      requires r.Failure? && r.error != LockUnavailable && var caused := FailureCause(r.error); caused
      requires var kept :=
        && (Truthy(id) ==> var own := OwnMarker(id.value, id0); own)
        && lastOwner == s.lastOwner && watchedNeighbor == s.watchedNeighbor && acquiredCount == s.acquiredCount
        && lastListing == listing0 && (Truthy(s.id) ==> id == s.id)
        && (r == Failure(NoNode) ==> !Truthy(s.id) && id == s.id)
        && (r.error != NoNode ==> Truthy(id));
        kept
      ensures PassEndedState(Return(Failure(r.error)), s, listing0, formerLockOwner, id0)
    {
    }

    /** The requests a pass whose listing was not reached or did not parse leaves in the log. */
    lemma {:induction false} ListingFailedLogged(r: Result<seq<Child>, LockError>, t: Retried, pre: seq<Call>, s: Start, id0: Option<string>)
      returns (calls: seq<Call>)
      requires r.Failure? && r.error != LockUnavailable && var caused := FailureCause(r.error); caused
      requires r == Failure(NoNode) ==> (var nonode := NoNodeCalls(pre, path, acls, NodePrefix(conn.sessionId)); nonode) && conn.log == s.log + pre
      requires r == Failure(NoNode) ==> !Truthy(s.id) && id == s.id
      requires r != Failure(NoNode) ==>
        && (var prelude := Prelude(pre, path, acls, NodePrefix(conn.sessionId)); prelude)
        && (var ranks := RanksMarker(pre, s.id, id, path, NodePrefix(conn.sessionId)); ranks)
        && conn.log == s.log + pre + [GetChildrenCall(path, if r == Failure(ServiceNoNode) then None else Some(lastNames))]
      ensures PassEndedLogged(Return(Failure(r.error)), t, calls, s, id0)
    {
      if r == Failure(NoNode) {
        calls := pre;
      } else {
        var answer := if r == Failure(ServiceNoNode) then None else Some(lastNames);
        calls := pre + [GetChildrenCall(path, answer)] + [];
        ListedMarker(Failure(r.error), pre, answer, s.id, id, path, NodePrefix(conn.sessionId), Armed(s.watchedNeighbor));
        ListedCalls(pre, answer, [], path, acls, NodePrefix(conn.sessionId));
        Regrouped(s.log, pre, GetChildrenCall(path, answer), []);
      }
    }

    /**
     * A pass that ranked its listing ends as `PassEnded` says: `s1` is the
     * state after the listing, `pre` the requests before it.
     */
    lemma {:induction false} ListingRanked(e: PassEnd, t: Retried, calls: seq<Call>, listed: seq<Child>, pre: seq<Call>, s: Start, s1: Start,
                                           listing0: seq<Child>, formerLockOwner: Option<string>, id0: Option<string>)
      requires var settled := ListingSettled(e, listed, s1, formerLockOwner, id0); settled
      requires s1.lastOwner == s.lastOwner && s1.watchedNeighbor == s.watchedNeighbor && s1.acquiredCount == s.acquiredCount
      requires Truthy(s1.id) && (var own := OwnMarker(s1.id.value, id0); own) && (Truthy(s.id) ==> s1.id == s.id)
      requires ParseListing(lastNames) == Success(listed) && lastListing == listed
      requires var prelude := Prelude(pre, path, acls, NodePrefix(conn.sessionId)); prelude
      requires var ranks := RanksMarker(pre, s.id, s1.id, path, NodePrefix(conn.sessionId)); ranks
      requires s1.log == s.log + pre + [GetChildrenCall(path, Some(lastNames))]
      requires calls == pre + [GetChildrenCall(path, Some(lastNames))] + AfterListing(e, s.watchedNeighbor)
      requires e.Retry? ==> t == Retried(e.reason, lastOwner, s1.id.value, pre, lastNames)
      ensures PassEnded(e, t, calls, s, listing0, formerLockOwner, id0)
    {
      ListingRankedState(e, t, calls, listed, pre, s, s1, listing0, formerLockOwner, id0);
      ListingRankedLogged(e, t, calls, listed, pre, s, s1, listing0, formerLockOwner, id0);
    }

    /** The fields a pass that ranked its listing leaves. */
    lemma {:induction false} ListingRankedState(e: PassEnd, t: Retried, calls: seq<Call>, listed: seq<Child>, pre: seq<Call>, s: Start, s1: Start,
                                                listing0: seq<Child>, formerLockOwner: Option<string>, id0: Option<string>)
      requires var settled := ListingSettled(e, listed, s1, formerLockOwner, id0); settled
      requires s1.lastOwner == s.lastOwner && s1.watchedNeighbor == s.watchedNeighbor && s1.acquiredCount == s.acquiredCount
      requires Truthy(s1.id) && (var own := OwnMarker(s1.id.value, id0); own) && (Truthy(s.id) ==> s1.id == s.id)
      requires ParseListing(lastNames) == Success(listed) && lastListing == listed
      requires var prelude := Prelude(pre, path, acls, NodePrefix(conn.sessionId)); prelude
      requires s1.log == s.log + pre + [GetChildrenCall(path, Some(lastNames))]
      requires calls == pre + [GetChildrenCall(path, Some(lastNames))] + AfterListing(e, s.watchedNeighbor)
      requires e.Retry? ==> t == Retried(e.reason, lastOwner, s1.id.value, pre, lastNames)
      ensures PassEndedState(e, s, listing0, formerLockOwner, id0)
    {
    }

    /** The requests a pass that ranked its listing leaves in the log. */
    lemma {:induction false} ListingRankedLogged(e: PassEnd, t: Retried, calls: seq<Call>, listed: seq<Child>, pre: seq<Call>, s: Start, s1: Start,
                                                 listing0: seq<Child>, formerLockOwner: Option<string>, id0: Option<string>)
      requires var settled := ListingSettled(e, listed, s1, formerLockOwner, id0); settled
      requires s1.lastOwner == s.lastOwner && s1.watchedNeighbor == s.watchedNeighbor && s1.acquiredCount == s.acquiredCount
      requires Truthy(s1.id) && (var own := OwnMarker(s1.id.value, id0); own) && (Truthy(s.id) ==> s1.id == s.id)
      requires ParseListing(lastNames) == Success(listed) && lastListing == listed
      requires var prelude := Prelude(pre, path, acls, NodePrefix(conn.sessionId)); prelude
      requires var ranks := RanksMarker(pre, s.id, s1.id, path, NodePrefix(conn.sessionId)); ranks
      requires s1.log == s.log + pre + [GetChildrenCall(path, Some(lastNames))]
      requires calls == pre + [GetChildrenCall(path, Some(lastNames))] + AfterListing(e, s.watchedNeighbor)
      requires e.Retry? ==> t == Retried(e.reason, lastOwner, s1.id.value, pre, lastNames)
      ensures PassEndedLogged(e, t, calls, s, id0)
    {
      var listing, tail := GetChildrenCall(path, Some(lastNames)), AfterListing(e, s.watchedNeighbor);
      Regrouped(s.log, pre, listing, tail);
      ListedCalls(pre, Some(lastNames), tail, path, acls, NodePrefix(conn.sessionId));
      if e.Return? {
        ListedMarker(e.r, pre, Some(lastNames), s.id, s1.id, path, NodePrefix(conn.sessionId), Armed(s.watchedNeighbor));
      }
    }

    /**
     * The rest of a pass once the listing parsed, decided by the verdict on
     * the listing and the held marker: an empty listing or a missing marker
     * clears `id` and retries; the lowest marker owns when connected; a marker
     * behind a neighbour watches it, or retries when it has gone. The marker
     * is kept otherwise.
     */
    method RankListed(listed: seq<Child>, formerLockOwner: Option<string>) returns (e: PassEnd)
      requires Truthy(id) && NamesNonEmpty(listed)
      modifies this`id, this`lastOwner, this`watchedNeighbor, this`acquiredCount
      modifies conn`children, conn`parentExists, conn`pending, conn`watches, conn`log
      ensures old(conn.log) <= conn.log && releasedCount == old(releasedCount)
      ensures RankedFrom(e, listed, old(Now()), formerLockOwner)
    {
      var held := id.value;
      JudgeCases(listed, held);
      if |listed| == 0 {
        id := None;
        return Retry(EmptyListing);
      }
      var children := SortBySeq(listed);
      lastOwner := Some(children[0].name);
      var meNotFound, smallerNeighbor := ScanForNeighbor(children, held);
      if meNotFound {
        id := None;
        return Retry(MarkerLost(held));
      }
      if Truthy(smallerNeighbor) {
        if smallerNeighbor != watchedNeighbor {
          var stat := conn.Exists(path + "/" + smallerNeighbor.value);
          if !stat {
            return Retry(NeighborVanished(smallerNeighbor.value));
          }
          watchedNeighbor := smallerNeighbor;
        }
        return Return(Success(false));
      } else {
        if IsOwner() {
          if hasObserver && formerLockOwner != id {
            acquiredCount := acquiredCount + 1;
          }
          return Return(Success(true));
        }
        return Retry(OwnershipUnconfirmed);
      }
    }

    /**
     * `_lock`: up to ten passes; RuntimeError when none of them returned.
     */
    method TryLock() returns (r: Result<bool, LockError>, ghost tries: seq<Retried>)
      modifies this`id, this`lastOwner, this`watchedNeighbor, this`acquiredCount, this`lastNames, this`lastListing
      modifies conn`children, conn`parentExists, conn`pending, conn`nextSeq, conn`watches, conn`log
      ensures var outcome := PassOutcome(r, old(Now()), tries, conn.log); outcome
    {
      var formerLockOwner := lastOwner;
      ghost var s0 := Now();
      ghost var tried: seq<Retried> := [];
      ghost var last := EmptyListing;
      for retry := 0 to MaxRetry
        invariant |tried| == retry && var looping := Looping(s0, tried, last); looping
      {
        var e;
        ghost var t;
        e, t := Attempt(formerLockOwner, s0, tried, last);
        if e.Return? {
          return e.r, tried;
        }
        last := e.reason;
        tried := tried + [t];
      }
      PassExhausted(s0, tried, last, conn.log);
      return Failure(LockUnavailable), tried;
    }

    /**
     * Ten passes that all started another end the run in RuntimeError, which
     * the last one's cause justifies. The run's requests are exactly those of
     * the ten passes; each pass listed the children at a position of its own,
     * later than the one before, and started another for a reason drawn from
     * that listing.
     */
    lemma {:induction false} PassExhausted(s0: Start, tries: seq<Retried>, last: RetryReason, log: seq<Call>)
      requires |tries| == MaxRetry && log == conn.log && var looping := Looping(s0, tries, last); looping
      ensures var outcome := PassOutcome(Failure(LockUnavailable), s0, tries, log); outcome
      ensures log == s0.log + RunCalls(tries, path)
      ensures forall k :: 0 <= k < MaxRetry ==>
        && |s0.log| + ListingAt(tries, k, path) < |log|
        && log[|s0.log| + ListingAt(tries, k, path)] == GetChildrenCall(path, Some(tries[k].names))
        && Justified(tries[k], path, acls, NodePrefix(conn.sessionId), s0.id)
      ensures forall j, k :: 0 <= j < k < MaxRetry ==> ListingAt(tries, j, path) < ListingAt(tries, k, path)
    {
      ListingsLogged(s0.log, tries, path);
      ExhaustedState(s0, tries, last);
      ExhaustedLogged(s0, tries, last, log);
    }

    /** After ten retries the lock's fields are as RuntimeError leaves them. */
    lemma {:induction false} ExhaustedState(s0: Start, tries: seq<Retried>, last: RetryReason)
      requires |tries| == MaxRetry && var looping := Looping(s0, tries, last); looping
      ensures PassState(Failure(LockUnavailable), s0, tries)
    {
    }

    /** After ten retries the log justifies RuntimeError. */
    lemma {:induction false} ExhaustedLogged(s0: Start, tries: seq<Retried>, last: RetryReason, log: seq<Call>)
      requires |tries| == MaxRetry && log == conn.log && var looping := Looping(s0, tries, last); looping
      ensures PassLogged(Failure(LockUnavailable), s0, tries, log)
    {
      assert log[|s0.log + RunCalls(tries, path)|..] == [];
    }

    /** Every request a run of the ranking loop made is one of the lock's own. */
    lemma {:induction false} OnlyLockRequests(r: Result<bool, LockError>, s0: Start, tries: seq<Retried>, log: seq<Call>)
      requires PassOutcome(r, s0, tries, log)
      ensures forall i :: |s0.log| <= i < |log| ==> LockRequest(log[i], path, acls, NodePrefix(conn.sessionId))
    {
      RunLockRequests(s0.log, tries, log, r, path, acls, NodePrefix(conn.sessionId), s0.id, lastNames, Armed(s0.watchedNeighbor));
    }

    /**
     * One turn of the loop in `_lock`: a ranking pass, which either ends
     * the run (and then the run's retries so far are its record) or asks for
     * another turn for a reason that leaves the loop's facts in place.
     */
    method Attempt(formerLockOwner: Option<string>, ghost s0: Start, ghost tried: seq<Retried>, ghost last: RetryReason)
      returns (e: PassEnd, ghost t: Retried)
      requires formerLockOwner == s0.lastOwner && |tried| < MaxRetry && var looping := Looping(s0, tried, last); looping
      modifies this`id, this`lastOwner, this`watchedNeighbor, this`acquiredCount, this`lastNames, this`lastListing
      modifies conn`children, conn`parentExists, conn`pending, conn`nextSeq, conn`watches, conn`log
      ensures e.Return? ==> var outcome := PassOutcome(e.r, s0, tried, conn.log); outcome
      ensures e.Retry? ==> t.reason == e.reason && var looping := Looping(s0, tried + [t], e.reason); looping
    {
      ghost var s1, listing1 := Now(), lastListing;
      ghost var calls;
      e, t, calls := RankingPass(formerLockOwner, s0.id);
      if e.Return? {
        PassReturned(e, s0, tried, s1, listing1, last, t, calls, formerLockOwner);
      } else {
        RetryLooped(e, s0, tried, s1, listing1, last, t, calls, formerLockOwner);
      }
    }

    /**
     * A pass `t` that started another for a justified reason, its requests
     * following those of the run's passes so far, which the log in `s1` ends
     * with, keeps `Looping`, with itself recorded.
     */
    lemma {:induction false} RetryLooped(e: PassEnd, s0: Start, tried: seq<Retried>, s1: Start, listing1: seq<Child>, last: RetryReason,
                                         t: Retried, calls: seq<Call>, formerLockOwner: Option<string>)
      requires e.Retry? && releasedCount == s1.releasedCount
      requires var at := LoopingAt(s0, tried, last, s1, listing1); at
      requires var ended := PassEnded(e, t, calls, s1, listing1, formerLockOwner, s0.id); ended
      ensures t.reason == e.reason && Looping(s0, tried + [t], t.reason)
    {
      var before, reason, prefix := OwnerBefore(s0.lastOwner, tried, |tried|), t.reason, NodePrefix(conn.sessionId);
      RetryShape(reason, s0.id, before);
      RetryLoggedAt(s0.log, s1.log, t);
      RecordedAppend(s0.lastOwner, tried, t);
      RunAppended(s0.log, tried, t, path);
      JustifiedAppend(tried, t, path, acls, prefix, s0.id);
      MarkersAppend(tried, t, s0.id, path, prefix);
      var tried' := tried + [t];
      assert |tried'| - 1 == |tried| && tried'[|tried|] == t;
      assert OwnerBefore(s0.lastOwner, tried', |tried'| - 1) == before;
      assert RetryJustified(reason, s0.log, s0.id, OwnerBefore(s0.lastOwner, tried', |tried'| - 1), conn.log);
    }

    /**
     * What holds between the passes of a run that began in `s0` and has
     * retried `tried`, the last time for `last`: the requests were appended
     * to the log, the counters and the watched neighbour are as they were, any
     * marker held is the lock's own, `_last_owner` is the one the last retry
     * left, and the last retry was justified by a listing read during the run.
     */
    ghost predicate Looping(s0: Start, tried: seq<Retried>, last: RetryReason)
      reads this`id, this`lastOwner, this`watchedNeighbor, this`acquiredCount, this`releasedCount
      reads this`lastNames, this`lastListing, conn`somehowConnected, conn`log
    {
      && (var at := LoopingAt(s0, tried, last, Now(), lastListing); at)
      && (|tried| > 0 ==>
            var justified := RetryJustified(last, s0.log, s0.id, OwnerBefore(s0.lastOwner, tried, |tried| - 1), conn.log); justified)
    }

    /**
     * The part of `Looping` that the state `s`, with `listing` the parse it
     * holds, shows by itself.
     */
    ghost predicate LoopingAt(s0: Start, tried: seq<Retried>, last: RetryReason, s: Start, listing: seq<Child>)
    {
      && s0.log <= s.log
      && (Truthy(s.id) ==> OwnMarker(s.id.value, s0.id))
      && s.watchedNeighbor == s0.watchedNeighbor
      && s.acquiredCount == s0.acquiredCount && s.releasedCount == s0.releasedCount
      && s.id == MarkerBefore(s0.id, tried, |tried|)
      && s.lastOwner == OwnerBefore(s0.lastOwner, tried, |tried|) && Recorded(s0.lastOwner, tried)
      && (|tried| > 0 ==>
            && tried[|tried| - 1].reason == last
            && RetryOwner(last, s.id, s.lastOwner, OwnerBefore(s0.lastOwner, tried, |tried| - 1), listing)
            && (Truthy(s.id) || s.id == None)
            && (last.NeighborVanished? || last.OwnershipUnconfirmed? ==> Truthy(s.id)))
      && s.log == s0.log + RunCalls(tried, path)
      && AllJustified(tried, path, acls, NodePrefix(conn.sessionId), s0.id)
      && AllRankOwn(tried, s0.id, path, NodePrefix(conn.sessionId))
    }

    /**
     * `acquire`: an owner answers True at once; otherwise the lock contends
     * for ownership as `Contend` says.
     */
    method Acquire() returns (r: Result<bool, LockError>, ghost s0: Start, ghost tries: seq<Retried>, ghost run: seq<Call>)
      modifies this, conn`children, conn`parentExists, conn`pending, conn`nextSeq, conn`watches, conn`log, conn`globalWatchers
      ensures old(IsOwner()) ==> r == Success(true) && unchanged(this) && unchanged(conn)
      ensures !old(IsOwner()) ==>
        && s0 == old(Now()).(log := old(conn.log) + [AddWatcherCall(this)])
        && (var outcome := PassOutcome(r, s0, tries, run); outcome)
        && conn.log == run + (if r.Failure? then [RemoveWatcherCall(this)] else [])
        && conn.globalWatchers == (if r.Success? then old(conn.globalWatchers) + {this} else old(conn.globalWatchers) - {this})
    {
      if IsOwner() {
        return Success(true), Now(), [], conn.log;
      }
      r, s0, tries, run := Contend();
    }

    /**
     * The rest of `acquire`: the connection watcher is registered, the ranking
     * loop runs from `s0` and leaves the log `run`, and the watcher is
     * unregistered again when the loop raises.
     */
    method Contend() returns (r: Result<bool, LockError>, ghost s0: Start, ghost tries: seq<Retried>, ghost run: seq<Call>)
      modifies this, conn`children, conn`parentExists, conn`pending, conn`nextSeq, conn`watches, conn`log, conn`globalWatchers
      ensures s0 == old(Now()).(log := old(conn.log) + [AddWatcherCall(this)])
      ensures var outcome := PassOutcome(r, s0, tries, run); outcome
      ensures r.Success? ==> conn.log == run && conn.globalWatchers == old(conn.globalWatchers) + {this}
      ensures r.Failure? ==> conn.log == run + [RemoveWatcherCall(this)] && conn.globalWatchers == old(conn.globalWatchers) - {this}
    {
      conn.AddGlobalWatcher(this);
      s0 := Now();
      ghost var watchers := conn.globalWatchers;
      r, tries := TryLock();
      assert conn.globalWatchers == watchers;
      run := conn.log;
      if r.Failure? {
        Unregister(r, s0, tries, run);
      }
    }

    /**
     * The `except` branch of `acquire`: the connection watcher is
     * unregistered, and the failed run's outcome on the log `run` it left
     * still holds.
     */
    method Unregister(ghost r: Result<bool, LockError>, ghost s0: Start, ghost tries: seq<Retried>, ghost run: seq<Call>)
      requires PassOutcome(r, s0, tries, run)
      modifies conn`globalWatchers, conn`log
      ensures var outcome := PassOutcome(r, s0, tries, run); outcome
      ensures conn.globalWatchers == old(conn.globalWatchers) - {this}
      ensures conn.log == old(conn.log) + [RemoveWatcherCall(this)]
    {
      ghost var kept := PassOutcome(r, s0, tries, run);
      conn.RemoveGlobalWatcher(this);
      assert kept == PassOutcome(r, s0, tries, run);
    }

    /**
     * `release`: without a marker or without a connection nothing happens;
     * otherwise the connection watcher is unregistered, the marker forgotten,
     * its node deleted (a missing node is ignored) and the observer's
     * `lock_released` called once.
     */
    method Release() returns (ghost deleted: bool)
      modifies this`id, this`releasedCount, conn`globalWatchers, conn`children, conn`parentExists, conn`pending, conn`log
      ensures !Truthy(old(id)) || !old(conn.connected) ==> unchanged(this) && unchanged(conn)
      ensures Truthy(old(id)) && old(conn.connected) ==>
        && id == None && !WaitingToBeOwner()
        && conn.globalWatchers == old(conn.globalWatchers) - {this}
        && conn.log == old(conn.log) + [RemoveWatcherCall(this), DeleteCall(path + "/" + old(id).value, deleted)]
        && releasedCount == old(releasedCount) + (if hasObserver then 1 else 0)
      ensures Truthy(old(id)) && old(conn.connected) && path == conn.parent && conn.parentExists ==>
        old(id).value !in conn.children
    {
      deleted := false;
      if !Truthy(id) {
        return;
      }
      if !conn.connected {
        return;
      }
      conn.RemoveGlobalWatcher(this);
      var nodeId := id.value;
      id := None;
      JoinedPath(path, nodeId);
      var gone := conn.Delete(path + "/" + nodeId);
      deleted := gone;
      if hasObserver {
        releasedCount := releasedCount + 1;
      }
    }

    /**
     * `_connection_watcher`: an expired session forgets the marker,
     * unregisters the watcher and calls `lock_released`; a new connection
     * runs the ranking loop again; every other state changes nothing.
     */
    method ConnectionWatcher(state: KeeperState) returns (rerun: Option<Result<bool, LockError>>, ghost tries: seq<Retried>)
      modifies this, conn`children, conn`parentExists, conn`pending, conn`nextSeq, conn`watches, conn`log, conn`globalWatchers
      ensures state == Expired ==>
        && rerun.None?
        && id == None && !WaitingToBeOwner()
        && lastOwner == old(lastOwner) && watchedNeighbor == old(watchedNeighbor)
        && acquiredCount == old(acquiredCount)
        && releasedCount == old(releasedCount) + (if hasObserver then 1 else 0)
        && conn.globalWatchers == old(conn.globalWatchers) - {this}
        && conn.log == old(conn.log) + [RemoveWatcherCall(this)]
        && lastNames == old(lastNames) && lastListing == old(lastListing)
        && conn.children == old(conn.children) && conn.parentExists == old(conn.parentExists)
        && conn.pending == old(conn.pending) && conn.nextSeq == old(conn.nextSeq) && conn.watches == old(conn.watches)
      ensures state == Connected ==>
        && rerun.Some? && (var outcome := PassOutcome(rerun.value, old(Now()), tries, conn.log); outcome)
        && conn.globalWatchers == old(conn.globalWatchers)
      ensures state != Expired && state != Connected ==> rerun.None? && unchanged(this) && unchanged(conn)
    {
      if state == Expired {
        id := None;
        conn.RemoveGlobalWatcher(this);
        if hasObserver {
          releasedCount := releasedCount + 1;
        }
        return None, [];
      } else if state == Connecting {
        return None, [];
      } else if state == Connected {
        var r;
        r, tries := TryLock();
        return Some(r), tries;
      } else {
        return None, [];
      }
    }

    /**
     * `__smaller_neighbor_watcher`: an event on the watched neighbour's path
     * runs the ranking loop again while a marker is held; any other event
     * changes nothing.
     */
    method NeighborWatcher(eventPath: string) returns (rerun: Option<Result<bool, LockError>>, ghost tries: seq<Retried>)
      modifies this, conn`children, conn`parentExists, conn`pending, conn`nextSeq, conn`watches, conn`log
      ensures rerun.Some? <==> Truthy(old(id)) && old(watchedNeighbor) == Some(SliceFrom(eventPath, |path| + 1))
      ensures rerun.Some? ==> var outcome := PassOutcome(rerun.value, old(Now()), tries, conn.log); outcome
      ensures rerun.None? ==> unchanged(this) && unchanged(conn)
    {
      if Truthy(id) {
        if watchedNeighbor == Some(SliceFrom(eventPath, |path| + 1)) {
          var r;
          r, tries := TryLock();
          return Some(r), tries;
        }
      }
      return None, [];
    }

    /** Two `acquire` calls in a row: once the first answers True, so does the second. */
    method AcquireTwice() returns (first: Result<bool, LockError>, second: Result<bool, LockError>)
      modifies this, conn`children, conn`parentExists, conn`pending, conn`nextSeq, conn`watches, conn`log, conn`globalWatchers
      ensures first == Success(true) ==> second == Success(true) && IsOwner()
    {
      ghost var s0, tries, run;
      first, s0, tries, run := Acquire();
      second, s0, tries, run := Acquire();
    }

    /** Two `release` calls in a row: the second changes nothing. */
    method ReleaseTwice() returns (ghost deleted: bool)
      modifies this`id, this`releasedCount, conn`globalWatchers, conn`children, conn`parentExists, conn`pending, conn`log
      ensures Truthy(old(id)) && old(conn.connected) ==>
        && id == None
        && conn.log == old(conn.log) + [RemoveWatcherCall(this), DeleteCall(path + "/" + old(id).value, deleted)]
        && releasedCount == old(releasedCount) + (if hasObserver then 1 else 0)
      ensures !Truthy(old(id)) || !old(conn.connected) ==> unchanged(this) && unchanged(conn)
    {
      deleted := Release();
      var _ := Release();
    }
  }

  /**
   * `Lock(connection, path)`: reads the parent's access-control list, which
   * the markers are created with; NoNode when the parent does not exist.
   */
  method NewLock(conn: Service, path: string, hasObserver: bool) returns (r: Result<Lock, LockError>, ghost found: Option<Acl>)
    modifies conn`children, conn`parentExists, conn`pending, conn`log
    ensures conn.log == old(conn.log) + [GetAclCall(path, found)]
    ensures r.Failure? <==> found.None?
    ensures r.Failure? <==> !(path == conn.parent && conn.parentExists)
    ensures r.Failure? ==> r.error == NoNode
    ensures r.Success? ==> r.value.acls == conn.parentAcl
    ensures r.Success? ==>
      && fresh(r.value)
      && r.value.conn == conn && r.value.path == path && r.value.acls == found.value
      && r.value.hasObserver == hasObserver
      && r.value.id == None && r.value.lastOwner == None && r.value.watchedNeighbor == None
      && r.value.acquiredCount == 0 && r.value.releasedCount == 0
  {
    var acl := conn.GetAcl(path);
    found := acl;
    if acl.None? {
      return Failure(NoNode), found;
    }
    var lock := new Lock(conn, path, acl.value, hasObserver);
    return Success(lock), found;
  }

  /**
   * A lock whose last run answered True holds the listed marker with the
   * smallest number, provided the numbers are distinct as the service
   * assigns them.
   */
  lemma OwnerHoldsLowestMarker(lock: Lock)
    requires lock.Settled(Success(true))
    requires DistinctSeqs(lock.lastListing)
    ensures var s := lock.Ranked(); var me := s[IndexOfName(s, lock.id.value)];
      && me in lock.lastListing && me.name == lock.id.value && lock.lastOwner == Some(me.name)
      && forall c :: c in lock.lastListing && c != me ==> me.seqNo < c.seqNo
  {
    SortKeepsDistinct(lock.lastListing);
    NoPredecessorIffLowest(lock.Ranked(), lock.id.value);
  }

  /**
   * A lock whose last run answered False is not the lowest and watches the
   * listed child numbered just below its own marker.
   */
  lemma WaiterWatchesNextLower(lock: Lock)
    requires lock.Settled(Success(false))
    requires DistinctSeqs(lock.lastListing)
    ensures var s := lock.Ranked(); var k := IndexOfName(s, lock.id.value);
      && 0 < k < |s| && s[k].name == lock.id.value
      && lock.lastOwner != lock.id
      && lock.watchedNeighbor == Some(s[k - 1].name) && s[k - 1] in lock.lastListing
      && s[k - 1].seqNo < s[k].seqNo
      && forall c :: c in lock.lastListing && c.seqNo < s[k].seqNo ==> c.seqNo <= s[k - 1].seqNo
  {
    SortKeepsDistinct(lock.lastListing);
    PredecessorIsNextLower(lock.Ranked(), lock.id.value);
  }

  /**
   * The `_last_owner` a pass that went on to another leaves, by reason, given
   * the marker `id` and the listing `listed` it ranked: after an empty listing
   * `before`, the one it began with; otherwise the listing's lowest child,
   * which is the own marker when ownership was not confirmed.
   */
  ghost predicate RetryOwner(reason: RetryReason, id: Option<string>, lastOwner: Option<string>, before: Option<string>, listed: seq<Child>)
  {
    match reason
    case EmptyListing => lastOwner == before
    case MarkerLost(m) => Judge(listed, m).NotListed? && lastOwner == Some(Judge(listed, m).owner)
    case NeighborVanished(_) => id.Some? && Judge(listed, id.value).Behind? && lastOwner == Some(Judge(listed, id.value).owner)
    case OwnershipUnconfirmed => lastOwner == id
  }

  /** What a retry leaves as `_last_owner` stays true while the marker it depends on is kept. */
  lemma RetryOwnerKept(reason: RetryReason, id1: Option<string>, id2: Option<string>, owner: Option<string>, before: Option<string>, listed: seq<Child>)
    requires RetryOwner(reason, id1, owner, before, listed)
    requires reason.NeighborVanished? || reason.OwnershipUnconfirmed? ==> id2 == id1
    ensures RetryOwner(reason, id2, owner, before, listed)
  {
  }

  /** The `_last_owner` in place before pass `k` of a run that began with `owner0` and retried `tries`. */
  ghost function OwnerBefore(owner0: Option<string>, tries: seq<Retried>, k: nat): Option<string>
    requires k <= |tries|
  {
    if k == 0 then owner0 else tries[k - 1].owner
  }

  /** Every pass in `tries` that found the listing empty left `_last_owner` as it found it. */
  ghost predicate Recorded(owner0: Option<string>, tries: seq<Retried>)
  {
    forall k :: 0 <= k < |tries| && tries[k].reason == EmptyListing ==> tries[k].owner == OwnerBefore(owner0, tries, k)
  }

  /**
   * A retry that keeps the record (one that found the listing empty left the
   * owner before it) becomes the owner before the next pass.
   */
  lemma {:induction false} RecordedAppend(owner0: Option<string>, tries: seq<Retried>, t: Retried)
    requires Recorded(owner0, tries)
    requires t.reason == EmptyListing ==> t.owner == OwnerBefore(owner0, tries, |tries|)
    ensures Recorded(owner0, tries + [t])
    ensures OwnerBefore(owner0, tries + [t], |tries| + 1) == t.owner
    ensures OwnerBefore(owner0, tries + [t], |tries|) == OwnerBefore(owner0, tries, |tries|)
  {
    forall k | 0 <= k < |tries| + 1 && (tries + [t])[k].reason == EmptyListing
      ensures (tries + [t])[k].owner == OwnerBefore(owner0, tries + [t], k)
    {
      if k < |tries| {
        assert OwnerBefore(owner0, tries + [t], k) == OwnerBefore(owner0, tries, k);
      }
    }
  }

  /** `c` is among the requests in `log` made since it was `log0`. */
  ghost predicate Since(log0: seq<Call>, c: Call, log: seq<Call>) {
    |log0| <= |log| && exists i :: |log0| <= i < |log| && log[i] == c
  }
}
