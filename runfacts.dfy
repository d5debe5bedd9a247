/**
 * Facts about the requests of a run of the ranking loop: how a pass's
 * requests are put together, where each pass's listing lies in the run,
 * and that every request of a run is one of the lock's own.
 */
module RunLogFacts {
  import opened Wrappers
  import opened Names
  import opened Ranking
  import opened Coordination
  import opened RunLog

  /**
   * The session id read and `_get_or_create_lock_node`'s requests form a
   * prelude when a marker came back, and the requests of a NoNode pass when
   * none did.
   */
  lemma GetOrCreatePrelude(path: string, acls: Acl, prefix: string,
                           listing: Option<seq<string>>, created: Option<string>, found: Option<string>)
    requires GotOrCreated(path, prefix, listing, created, found)
    ensures var pre := [ClientIdCall] + GetOrCreateLog(path, acls, prefix, listing, created);
      && (found.Some? ==> Prelude(pre, path, acls, prefix) && Adopted(pre, path, prefix) == found)
      && (found.None? ==> NoNodeCalls(pre, path, acls, prefix))
  {
    var pre := [ClientIdCall] + GetOrCreateLog(path, acls, prefix, listing, created);
    assert pre[0] == ClientIdCall && pre[1] == GetChildrenCall(path, listing);
    if listing.Some? && PrefixIndex(listing.value, prefix) == |listing.value| {
      assert pre[2] == CreateCall(path + "/" + prefix, acls, created);
      if found.Some? {
        JoinedPath(path, found.value);
      }
    }
  }

  /** A prelude, a listing and the requests after it make a listed pass. */
  lemma ListedCalls(pre: seq<Call>, answer: Option<seq<string>>, tail: seq<Call>, path: string, acls: Acl, prefix: string)
    requires Prelude(pre, path, acls, prefix)
    ensures Listed(pre + [GetChildrenCall(path, answer)] + tail, answer, tail, path, acls, prefix)
  {
    var calls := pre + [GetChildrenCall(path, answer)] + tail;
    assert calls[..|pre|] == pre;
  }

  /** A pass that ranked the marker `RanksMarker` names, then listed and ended, ranked it as `FinalMarker` says. */
  lemma ListedMarker(r: Result<bool, LockError>, pre: seq<Call>, answer: Option<seq<string>>, held: Option<string>, marker: Option<string>,
                     path: string, prefix: string, armed: Option<string>)
    requires r != Failure(NoNode) && r != Failure(LockUnavailable)
    requires RanksMarker(pre, held, marker, path, prefix)
    ensures FinalMarker(r, pre + [GetChildrenCall(path, answer)] + (if r.Success? then WatchTail(r.value, armed, path) else []),
                        held, marker, path, prefix, armed)
  {
    var calls := pre + [GetChildrenCall(path, answer)] + (if r.Success? then WatchTail(r.value, armed, path) else []);
    assert calls[..|pre|] == pre;
  }

  /** The position in a listed pass of its listing. */
  lemma ListedAt(calls: seq<Call>, answer: Option<seq<string>>, tail: seq<Call>, path: string, acls: Acl, prefix: string)
    returns (k: nat)
    requires Listed(calls, answer, tail, path, acls, prefix)
    ensures k < |calls| && calls[k] == GetChildrenCall(path, answer)
    ensures k + |tail| + 1 == |calls| && forall j :: 0 <= j < |tail| ==> calls[k + 1 + j] == tail[j]
  {
    k := |calls| - |tail| - 1;
    var head := calls[..k] + [GetChildrenCall(path, answer)];
    assert calls == head + tail && |head| == k + 1;
    assert calls[k] == head[k];
    forall j | 0 <= j < |tail|
      ensures calls[k + 1 + j] == tail[j]
    {
      assert calls[|head| + j] == tail[j];
    }
  }

  /** The position in a pass that raised NoNode of the request the service answered with NoNode. */
  lemma NoNodeAt(calls: seq<Call>, path: string, acls: Acl, prefix: string) returns (i: nat)
    requires NoNodeCalls(calls, path, acls, prefix)
    ensures i < |calls| && (calls[i] == GetChildrenCall(path, None) || (calls[i].CreateCall? && calls[i].created.None?))
  {
    i := if calls == [ClientIdCall, GetChildrenCall(path, None)] then 1 else 2;
  }

  /** A prelude, a listing and the requests after it, appended to the log, are appended as one pass. */
  lemma Regrouped(log0: seq<Call>, pre: seq<Call>, listing: Call, tail: seq<Call>)
    ensures log0 + pre + [listing] + tail == log0 + (pre + [listing] + tail)
  {
  }

  /** A pass's requests appended to those of the passes before it are the run's requests with it. */
  lemma RunAppended(log0: seq<Call>, tries: seq<Retried>, t: Retried, path: string)
    ensures log0 + RunCalls(tries, path) + RetryCalls(t, path) == log0 + RunCalls(tries + [t], path)
  {
    assert (tries + [t])[..|tries|] == tries;
  }

  /** A justified pass extends the run's justified passes. */
  lemma JustifiedAppend(tries: seq<Retried>, t: Retried, path: string, acls: Acl, prefix: string, id0: Option<string>)
    requires AllJustified(tries, path, acls, prefix, id0) && Justified(t, path, acls, prefix, id0)
    ensures AllJustified(tries + [t], path, acls, prefix, id0)
  {
    forall k | 0 <= k < |tries| + 1
      ensures Justified((tries + [t])[k], path, acls, prefix, id0)
    {
      if k < |tries| {
        assert (tries + [t])[k] == tries[k];
      }
    }
  }

  /**
   * A pass that ranked the marker the `id` before it and its marker step
   * gave it extends the run's passes that did, and the `id` it leaves is
   * the one before the next pass.
   */
  lemma MarkersAppend(tries: seq<Retried>, t: Retried, id0: Option<string>, path: string, prefix: string)
    requires AllRankOwn(tries, id0, path, prefix)
    requires RanksMarker(t.prelude, MarkerBefore(id0, tries, |tries|), Some(t.marker), path, prefix)
    ensures AllRankOwn(tries + [t], id0, path, prefix)
    ensures MarkerBefore(id0, tries + [t], |tries| + 1) == MarkerAfter(t)
  {
    var ts := tries + [t];
    forall k | 0 <= k < |ts|
      ensures RanksMarker(ts[k].prelude, MarkerBefore(id0, ts, k), Some(ts[k].marker), path, prefix)
    {
      if 0 < k {
        assert ts[k - 1] == tries[k - 1];
      }
      if k < |tries| {
        assert ts[k] == tries[k];
      }
    }
    assert ts[|tries|] == t;
  }

  /** The position of pass `k`'s listing among the requests of the passes `tries`. */
  ghost function ListingAt(tries: seq<Retried>, k: nat, path: string): nat
    requires k < |tries|
  {
    |RunCalls(tries[..k], path)| + |tries[k].prelude|
  }

  /** The requests of the first `k` passes begin the requests of all of them. */
  lemma {:induction false} RunPrefix(tries: seq<Retried>, k: nat, path: string)
    requires k <= |tries|
    ensures RunCalls(tries[..k], path) <= RunCalls(tries, path)
    decreases |tries|
  {
    if k == |tries| {
      assert tries[..k] == tries;
    } else {
      var init := tries[..|tries| - 1];
      assert tries[..k] == init[..k];
      RunPrefix(init, k, path);
    }
  }

  /** The requests of the first `k + 1` passes are those of the first `k`, then those of pass `k`. */
  lemma RunStep(tries: seq<Retried>, k: nat, path: string)
    requires k < |tries|
    ensures RunCalls(tries[..k + 1], path) == RunCalls(tries[..k], path) + RetryCalls(tries[k], path)
  {
    assert tries[..k + 1][..k] == tries[..k];
  }

  /**
   * Each pass of `tries` made its own listing, at `ListingAt`, answered with
   * the names it ranked; and the listings of later passes come later.
   */
  lemma PassListings(tries: seq<Retried>, path: string)
    ensures forall k :: 0 <= k < |tries| ==>
      && ListingAt(tries, k, path) < |RunCalls(tries, path)|
      && RunCalls(tries, path)[ListingAt(tries, k, path)] == GetChildrenCall(path, Some(tries[k].names))
    ensures forall j, k :: 0 <= j < k < |tries| ==> ListingAt(tries, j, path) < ListingAt(tries, k, path)
  {
    forall k | 0 <= k < |tries|
      ensures ListingAt(tries, k, path) < |RunCalls(tries, path)|
      ensures RunCalls(tries, path)[ListingAt(tries, k, path)] == GetChildrenCall(path, Some(tries[k].names))
    {
      ListingOf(tries, k, path);
    }
    forall j, k | 0 <= j < k < |tries|
      ensures ListingAt(tries, j, path) < ListingAt(tries, k, path)
    {
      ListingsOrdered(tries, j, k, path);
    }
  }

  /** Pass `k` of `tries` made its listing at `ListingAt`. */
  lemma ListingOf(tries: seq<Retried>, k: nat, path: string)
    requires k < |tries|
    ensures ListingAt(tries, k, path) < |RunCalls(tries, path)|
    ensures RunCalls(tries, path)[ListingAt(tries, k, path)] == GetChildrenCall(path, Some(tries[k].names))
  {
    RunStep(tries, k, path);
    RunPrefix(tries, k + 1, path);
    var before, own := RunCalls(tries[..k], path), RetryCalls(tries[k], path);
    assert own[|tries[k].prelude|] == GetChildrenCall(path, Some(tries[k].names));
    assert (before + own)[|before| + |tries[k].prelude|] == own[|tries[k].prelude|];
  }

  /** An earlier pass listed earlier. */
  lemma ListingsOrdered(tries: seq<Retried>, j: nat, k: nat, path: string)
    requires j < k < |tries|
    ensures ListingAt(tries, j, path) < ListingAt(tries, k, path)
  {
    RunStep(tries, j, path);
    assert tries[..k][..j + 1] == tries[..j + 1];
    RunPrefix(tries[..k], j + 1, path);
  }

  /** The passes `tries`, appended to `log0`, list the children where `PassListings` says, in order. */
  lemma ListingsLogged(log0: seq<Call>, tries: seq<Retried>, path: string)
    ensures forall k :: 0 <= k < |tries| ==>
      && |log0| + ListingAt(tries, k, path) < |log0 + RunCalls(tries, path)|
      && (log0 + RunCalls(tries, path))[|log0| + ListingAt(tries, k, path)] == GetChildrenCall(path, Some(tries[k].names))
    ensures forall j, k :: 0 <= j < k < |tries| ==> ListingAt(tries, j, path) < ListingAt(tries, k, path)
  {
    PassListings(tries, path);
  }

  /** Two runs of the lock's own requests make one. */
  lemma RequestsJoined(a: seq<Call>, b: seq<Call>, path: string, acls: Acl, prefix: string)
    requires LockRequests(a, path, acls, prefix) && LockRequests(b, path, acls, prefix)
    ensures LockRequests(a + b, path, acls, prefix)
  {
    forall i | 0 <= i < |a + b|
      ensures LockRequest((a + b)[i], path, acls, prefix)
    {
      if i >= |a| {
        assert (a + b)[i] == b[i - |a|];
      }
    }
  }

  /** Every request of a prelude is a request of the lock's. */
  lemma PreludeRequests(pre: seq<Call>, path: string, acls: Acl, prefix: string)
    requires Prelude(pre, path, acls, prefix)
    ensures LockRequests(pre, path, acls, prefix)
  {
    if |pre| > 0 {
      assert LockRequest(pre[0], path, acls, prefix) && LockRequest(pre[1], path, acls, prefix);
      if |pre| == 3 {
        assert LockRequest(pre[2], path, acls, prefix);
      }
    }
  }

  /** A listed pass, whose requests after the listing are the lock's own, makes only the lock's own requests. */
  lemma ListedRequests(calls: seq<Call>, answer: Option<seq<string>>, tail: seq<Call>, path: string, acls: Acl, prefix: string)
    requires Listed(calls, answer, tail, path, acls, prefix) && LockRequests(tail, path, acls, prefix)
    ensures LockRequests(calls, path, acls, prefix)
  {
    var pre := calls[..|calls| - |tail| - 1];
    PreludeRequests(pre, path, acls, prefix);
    RequestsJoined(pre, [GetChildrenCall(path, answer)], path, acls, prefix);
    RequestsJoined(pre + [GetChildrenCall(path, answer)], tail, path, acls, prefix);
  }

  /** An `exists` on a child of the lock's node is one of the lock's requests. */
  lemma ExistsRequest(name: string, found: bool, path: string, acls: Acl, prefix: string)
    ensures LockRequests([ExistsCall(path + "/" + name, found)], path, acls, prefix)
  {
    JoinedPath(path, name);
  }

  /** Every request of a pass that started another is one of the lock's own. */
  lemma RetryRequests(t: Retried, path: string, acls: Acl, prefix: string)
    requires Prelude(t.prelude, path, acls, prefix)
    ensures LockRequests(RetryCalls(t, path), path, acls, prefix)
  {
    if t.reason.NeighborVanished? {
      ExistsRequest(t.reason.neighbor, false, path, acls, prefix);
    }
    ListedCalls(t.prelude, Some(t.names), RetryTail(t.reason, path), path, acls, prefix);
    ListedRequests(RetryCalls(t, path), Some(t.names), RetryTail(t.reason, path), path, acls, prefix);
  }

  /** Every request of the justified passes `tries` is one of the lock's own. */
  lemma {:induction false} RunRequests(tries: seq<Retried>, path: string, acls: Acl, prefix: string, id0: Option<string>)
    requires AllJustified(tries, path, acls, prefix, id0)
    ensures LockRequests(RunCalls(tries, path), path, acls, prefix)
    decreases |tries|
  {
    if |tries| > 0 {
      var init, t := tries[..|tries| - 1], tries[|tries| - 1];
      assert AllJustified(init, path, acls, prefix, id0) by {
        forall k | 0 <= k < |init|
          ensures Justified(init[k], path, acls, prefix, id0)
        {
          assert init[k] == tries[k];
        }
      }
      RunRequests(init, path, acls, prefix, id0);
      RetryRequests(t, path, acls, prefix);
      RequestsJoined(RunCalls(init, path), RetryCalls(t, path), path, acls, prefix);
    }
  }

  /** Every request of the pass that ended a run is one of the lock's own. */
  lemma FinalRequests(r: Result<bool, LockError>, calls: seq<Call>, path: string, acls: Acl, prefix: string,
                      names: seq<string>, armed: Option<string>)
    requires var final := FinalCalls(r, calls, path, acls, prefix, names, armed); final
    ensures LockRequests(calls, path, acls, prefix)
  {
    match r
    case Failure(LockUnavailable) =>
    case Failure(NoNode) =>
      JoinedPath(path, prefix);
    case Failure(ServiceNoNode) =>
      ListedRequests(calls, None, [], path, acls, prefix);
    case Failure(BadSequenceNumber(_)) =>
      ListedRequests(calls, Some(names), [], path, acls, prefix);
    case Success(b) =>
      if !b && armed.Some? {
        ExistsRequest(armed.value, true, path, acls, prefix);
      }
      ListedRequests(calls, Some(names), WatchTail(b, armed, path), path, acls, prefix);
  }

  /**
   * Every request of a run appended to `log0`, the justified passes `tries`
   * followed by the requests of the pass that ended it, is one of the lock's
   * own.
   */
  lemma RunLockRequests(log0: seq<Call>, tries: seq<Retried>, log: seq<Call>, r: Result<bool, LockError>,
                        path: string, acls: Acl, prefix: string, id0: Option<string>, names: seq<string>, armed: Option<string>)
    requires AllJustified(tries, path, acls, prefix, id0)
    requires var run := log0 + RunCalls(tries, path);
      && run <= log
      && var ended := FinalCalls(r, log[|run|..], path, acls, prefix, names, armed); ended
    ensures forall i :: |log0| <= i < |log| ==> LockRequest(log[i], path, acls, prefix)
  {
    var passes := RunCalls(tries, path);
    var run := log0 + passes;
    var final := log[|run|..];
    RunRequests(tries, path, acls, prefix, id0);
    FinalRequests(r, final, path, acls, prefix, names, armed);
    forall i | |log0| <= i < |log|
      ensures LockRequest(log[i], path, acls, prefix)
    {
      if i < |run| {
        assert log[i] == run[i] == passes[i - |log0|];
      } else {
        assert log[i] == final[i - |run|];
      }
    }
  }

  /** A ranking that made no request leaves the log as the retry or answer needs it. */
  lemma QuietLogged(e: PassEnd, log1: seq<Call>, log: seq<Call>, watched0: Option<string>, watched: Option<string>, path: string)
    requires log == log1
    requires e.Retry? ==> !e.reason.NeighborVanished?
    requires e.Return? ==> e.r.Success? && (e.r.value || watched == watched0)
    ensures e.Retry? ==> log == log1 + RetryTail(e.reason, path)
    ensures e.Return? ==> e.r.Success? && log == log1 + WatchTail(e.r.value, if watched == watched0 then None else watched, path)
  {
    if e.Retry? {
      assert RetryTail(e.reason, path) == [];
    } else {
      assert WatchTail(e.r.value, if watched == watched0 then None else watched, path) == [];
    }
  }

  /**
   * A marker behind the neighbour `n`: False with no request when `n` is
   * already watched, False after an `exists` that found `n` present, or a
   * retry after one that found it gone.
   */
  lemma BehindLogged(e: PassEnd, n: string, log1: seq<Call>, log: seq<Call>, watched0: Option<string>, watched: Option<string>, path: string)
    requires Some(n) == watched0 ==> e == Return(Success(false)) && log == log1
    requires
      || (e == Return(Success(false)) && watched == Some(n)
          && (Some(n) == watched0 || log == log1 + [ExistsCall(path + "/" + n, true)]))
      || (e == Retry(NeighborVanished(n)) && Some(n) != watched0 && log == log1 + [ExistsCall(path + "/" + n, false)])
    ensures e.Retry? ==> log == log1 + RetryTail(e.reason, path)
    ensures e.Return? ==> e.r.Success? && log == log1 + WatchTail(e.r.value, if watched == watched0 then None else watched, path)
  {
    if e.Retry? {
      assert RetryTail(e.reason, path) == [ExistsCall(path + "/" + n, false)];
    } else if Some(n) == watched0 {
      assert WatchTail(e.r.value, if watched == watched0 then None else watched, path) == [];
    } else {
      assert WatchTail(e.r.value, if watched == watched0 then None else watched, path) == [ExistsCall(path + "/" + n, true)];
    }
  }

  /**
   * The ranking of the marker `held` in the listing `names` parsed to, by
   * verdict `v`, reduced to what the log keeps of it: a retry for a reason
   * that listing gives, with the `exists` that found a vanished neighbour;
   * or True or False, with the `exists` that armed a watch on a new
   * neighbour. `log1` and `log` are the log before and after ranking,
   * `owner` and `watched` are `_last_owner` and `_watched_neighbor` after
   * it, and `watched0` the neighbour watched before.
   */
  lemma RankingLogged(e: PassEnd, held: string, v: Verdict, log1: seq<Call>, log: seq<Call>,
                      owner: Option<string>, watched0: Option<string>, watched: Option<string>,
                      names: seq<string>, listing: seq<Child>, path: string)
    requires ParseListing(names) == Success(listing) && v == Judge(listing, held)
    requires v.NoChildren? ==> e == Retry(EmptyListing) && log == log1
    requires v.NotListed? ==> e == Retry(MarkerLost(held)) && owner == Some(v.owner) && log == log1
    requires v.Lowest? ==> owner == Some(held) && log == log1 && (e == Return(Success(true)) || e == Retry(OwnershipUnconfirmed))
    requires v.Behind? ==>
      && owner == Some(v.owner)
      && (Some(v.neighbor) == watched0 ==> e == Return(Success(false)) && log == log1)
      && (|| (e == Return(Success(false)) && watched == Some(v.neighbor)
              && (Some(v.neighbor) == watched0 || log == log1 + [ExistsCall(path + "/" + v.neighbor, true)]))
          || (e == Retry(NeighborVanished(v.neighbor)) && Some(v.neighbor) != watched0
              && log == log1 + [ExistsCall(path + "/" + v.neighbor, false)]))
    requires e != Return(Success(false)) ==> watched == watched0
    ensures e.Retry? ==> Fits(e.reason, owner, held, listing)
    ensures e.Retry? ==> log == log1 + RetryTail(e.reason, path)
    ensures e.Return? ==> e.r.Success? && log == log1 + WatchTail(e.r.value, if watched == watched0 then None else watched, path)
  {
    match v
    case NoChildren =>
      JudgeCases(listing, held);
      QuietLogged(e, log1, log, watched0, watched, path);
    case NotListed(_) =>
      QuietLogged(e, log1, log, watched0, watched, path);
    case Lowest(_) =>
      JudgeCases(listing, held);
      QuietLogged(e, log1, log, watched0, watched, path);
    case Behind(_, n) =>
      BehindLogged(e, n, log1, log, watched0, watched, path);
  }

}
