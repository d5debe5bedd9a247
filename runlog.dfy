/**
 * The requests one run of the ranking loop makes, pass by pass. A pass that
 * holds no marker reads the session id and runs `_get_or_create_lock_node`;
 * every pass then lists the lock's children and, when it finds a new
 * predecessor, checks that predecessor's existence. A run's log is these
 * passes one after the other, with nothing in between; each pass's requests
 * are a value of their own, so that what is said about them does not depend
 * on where in the log they went.
 */
module RunLog {
  import opened Wrappers
  import opened Names
  import opened Ranking
  import opened Coordination

  /**
   * What the lock raises: zkpy's own NoNodeException (construction and the
   * marker step), the client library's NoNodeException that escapes from the
   * listing, RuntimeError, and the ValueError of a name without a number.
   */
  datatype LockError = NoNode | ServiceNoNode | LockUnavailable | BadSequenceNumber(name: string)

  /**
   * Why a pass ended by starting another one: an empty listing, the marker
   * it ranked missing from the listing, the predecessor gone when its watch
   * was armed, or a lowest marker that is still not owner.
   */
  datatype RetryReason = EmptyListing | MarkerLost(marker: string) | NeighborVanished(neighbor: string) | OwnershipUnconfirmed

  /** How a pass of the ranking loop ended: the loop returns, or goes on to its next pass. */
  datatype PassEnd = Return(r: Result<bool, LockError>) | Retry(reason: RetryReason)

  /**
   * A pass that started another: its reason, the `_last_owner` it left, the
   * marker it ranked, the requests it made before its ranking listing, and
   * the names that listing returned.
   */
  datatype Retried = Retried(reason: RetryReason, owner: Option<string>, marker: string, prelude: seq<Call>, names: seq<string>)

  /** The requests `_get_or_create_lock_node(prefix)` makes: a listing, then a create when no child has the prefix. */
  ghost function GetOrCreateLog(path: string, acls: Acl, prefix: string, listing: Option<seq<string>>, created: Option<string>): seq<Call>
  {
    [GetChildrenCall(path, listing)]
      + if listing.Some? && PrefixIndex(listing.value, prefix) == |listing.value| then [CreateCall(path + "/" + prefix, acls, created)] else []
  }

  /** `calls` begins with the session id read of a pass without a marker, then a successful listing of `path`. */
  ghost predicate ListedForMarker(calls: seq<Call>, path: string)
  {
    && 2 <= |calls| && calls[0] == ClientIdCall
    && calls[1].GetChildrenCall? && calls[1].path == path && calls[1].listing.Some?
  }

  /**
   * The requests of a pass before its ranking listing: none when a marker
   * was held; otherwise the session id, then a listing that had a child with
   * the prefix, or a listing without one and a create of `<path>/<prefix>`
   * with the lock's ACL that made a node.
   */
  ghost predicate Prelude(pre: seq<Call>, path: string, acls: Acl, prefix: string)
  {
    || pre == []
    || (&& |pre| == 2 && ListedForMarker(pre, path)
        && PrefixIndex(pre[1].listing.value, prefix) < |pre[1].listing.value|)
    || (&& |pre| == 3 && ListedForMarker(pre, path)
        && PrefixIndex(pre[1].listing.value, prefix) == |pre[1].listing.value|
        && pre[2].CreateCall? && pre[2].path == path + "/" + prefix && pre[2].acl == acls && pre[2].created.Some?)
  }

  /**
   * The marker `_get_or_create_lock_node` answered in the prelude `pre`: the
   * first child of its listing that starts with `prefix`, or the node its
   * create made, without the leading `<path>/`. None when `pre` is neither.
   */
  ghost function Adopted(pre: seq<Call>, path: string, prefix: string): Option<string>
  {
    if |pre| == 2 && ListedForMarker(pre, path) && PrefixIndex(pre[1].listing.value, prefix) < |pre[1].listing.value| then
      Some(pre[1].listing.value[PrefixIndex(pre[1].listing.value, prefix)])
    else if |pre| == 3 && pre[2].CreateCall? && pre[2].created.Some? then
      Some(SliceFrom(pre[2].created.value, |path| + 1))
    else
      None
  }

  /**
   * A pass that began holding `held` and made the requests `pre` before its
   * listing ranks `marker`: it ran the marker step exactly when `held` was
   * not truthy, and then ranks that step's answer; otherwise it ranks `held`.
   */
  ghost predicate RanksMarker(pre: seq<Call>, held: Option<string>, marker: Option<string>, path: string, prefix: string)
  {
    && (pre == [] <==> Truthy(held))
    && marker == (if pre == [] then held else Adopted(pre, path, prefix))
  }

  /**
   * The requests of a pass that raised zkpy's NoNode: the session id, then a
   * listing answered NoNode, or a listing without a child with the prefix
   * and a create answered NoNode.
   */
  ghost predicate NoNodeCalls(calls: seq<Call>, path: string, acls: Acl, prefix: string)
  {
    || calls == [ClientIdCall, GetChildrenCall(path, None)]
    || (&& |calls| == 3 && ListedForMarker(calls, path)
        && PrefixIndex(calls[1].listing.value, prefix) == |calls[1].listing.value|
        && calls[2] == CreateCall(path + "/" + prefix, acls, None))
  }

  /** The requests a retry makes after its listing: the `exists` that found a vanished predecessor gone. */
  function RetryTail(reason: RetryReason, path: string): seq<Call>
  {
    if reason.NeighborVanished? then [ExistsCall(path + "/" + reason.neighbor, false)] else []
  }

  /** The requests an answer `b` makes after its listing: the `exists` that armed a watch on the new predecessor `armed`. */
  function WatchTail(b: bool, armed: Option<string>, path: string): seq<Call>
  {
    if !b && armed.Some? then [ExistsCall(path + "/" + armed.value, true)] else []
  }

  /** The requests of the pass `t`: its prelude, its listing of `path`, and the `exists` of a vanished predecessor. */
  function RetryCalls(t: Retried, path: string): seq<Call>
  {
    t.prelude + [GetChildrenCall(path, Some(t.names))] + RetryTail(t.reason, path)
  }

  /** The requests of the passes `tries`, one pass after the other. */
  function RunCalls(tries: seq<Retried>, path: string): seq<Call>
    decreases |tries|
  {
    if |tries| == 0 then [] else RunCalls(tries[..|tries| - 1], path) + RetryCalls(tries[|tries| - 1], path)
  }

  /** Python truthiness of an optional name: None and the empty name are false, every other name true. */
  predicate Truthy(o: Option<string>): (r: bool)
    ensures r <==> o != None && o != Some("")
    ensures r ==> |o.value| > 0
  {
    o.Some? && o.value != ""
  }

  /** `m` is the marker `id0` held when the run began, or one with the session's prefix. */
  ghost predicate OwnName(m: string, id0: Option<string>, prefix: string)
  {
    (Truthy(id0) && m == id0.value) || StartsWith(m, prefix)
  }

  /**
   * `reason` follows from ranking `marker` in the parsed listing `listed`,
   * which left `owner` as `_last_owner`: the listing is empty; the marker is
   * not in it; the marker is behind a predecessor; or the marker is lowest.
   */
  ghost predicate Fits(reason: RetryReason, owner: Option<string>, marker: string, listed: seq<Child>)
  {
    match reason
    case EmptyListing => |listed| == 0
    case MarkerLost(m) => m == marker && Judge(listed, m).NotListed? && owner == Some(Judge(listed, m).owner)
    case NeighborVanished(n) => owner.Some? && Judge(listed, marker) == Behind(owner.value, n)
    case OwnershipUnconfirmed => Judge(listed, marker) == Lowest(marker) && owner == Some(marker)
  }

  /**
   * The pass `t` made the requests of a pass, and its reason follows from
   * its own listing, ranked on a marker of the run's own.
   */
  ghost predicate Justified(t: Retried, path: string, acls: Acl, prefix: string, id0: Option<string>)
  {
    && Prelude(t.prelude, path, acls, prefix)
    && ParseListing(t.names).Success?
    && Fits(t.reason, t.owner, t.marker, ParseListing(t.names).value)
    && OwnName(t.marker, id0, prefix)
  }

  /** Every pass in `tries` is justified. */
  ghost predicate AllJustified(tries: seq<Retried>, path: string, acls: Acl, prefix: string, id0: Option<string>)
  {
    forall k :: 0 <= k < |tries| ==> Justified(tries[k], path, acls, prefix, id0)
  }

  /** The `id` a retry `t` leaves: None after an empty listing or a lost marker, otherwise the marker it ranked. */
  function MarkerAfter(t: Retried): Option<string>
  {
    if t.reason.EmptyListing? || t.reason.MarkerLost? then None else Some(t.marker)
  }

  /** The `id` in place before pass `k` of a run that began with `id0` and retried `tries`. */
  function MarkerBefore(id0: Option<string>, tries: seq<Retried>, k: nat): Option<string>
    requires k <= |tries|
  {
    if k == 0 then id0 else MarkerAfter(tries[k - 1])
  }

  /** Every pass in `tries` ranked the marker that the `id` before it and its marker step gave it. */
  ghost predicate AllRankOwn(tries: seq<Retried>, id0: Option<string>, path: string, prefix: string)
  {
    forall k :: 0 <= k < |tries| ==> RanksMarker(tries[k].prelude, MarkerBefore(id0, tries, k), Some(tries[k].marker), path, prefix)
  }

  /**
   * `calls` is a prelude, a listing of `path` answered `answer`, and then
   * the requests `tail`.
   */
  ghost predicate Listed(calls: seq<Call>, answer: Option<seq<string>>, tail: seq<Call>, path: string, acls: Acl, prefix: string)
  {
    var k := |calls| - |tail| - 1;
    && 0 <= k
    && calls == calls[..k] + [GetChildrenCall(path, answer)] + tail
    && Prelude(calls[..k], path, acls, prefix)
  }

  /**
   * The requests of the pass that ended a run: none after ten retries;
   * those of `NoNodeCalls` for zkpy's NoNode; otherwise a prelude and a
   * listing of `path`, answered NoNode for the client's NoNode and `names`
   * for every other answer, followed for False by the `exists` that armed a
   * watch on the new predecessor `armed`, if any.
   */
  ghost predicate FinalCalls(r: Result<bool, LockError>, calls: seq<Call>, path: string, acls: Acl, prefix: string,
                             names: seq<string>, armed: Option<string>)
  {
    match r
    case Failure(LockUnavailable) => calls == []
    case Failure(NoNode) => NoNodeCalls(calls, path, acls, prefix)
    case Failure(ServiceNoNode) => Listed(calls, None, [], path, acls, prefix)
    case Failure(BadSequenceNumber(_)) => Listed(calls, Some(names), [], path, acls, prefix)
    case Success(b) => Listed(calls, Some(names), WatchTail(b, armed, path), path, acls, prefix)
  }

  /**
   * The marker of the pass that ended a run, begun holding `held`, making
   * `calls` and leaving `marker` as `id`: after ten retries there was no
   * such pass and `id` is `held`; zkpy's NoNode leaves an unset `held` as it
   * was; every other answer comes after a listing and ranks `marker`, as
   * `RanksMarker` says of the requests before that listing.
   */
  ghost predicate FinalMarker(r: Result<bool, LockError>, calls: seq<Call>, held: Option<string>, marker: Option<string>,
                              path: string, prefix: string, armed: Option<string>)
  {
    match r
    case Failure(LockUnavailable) => marker == held
    case Failure(NoNode) => !Truthy(held) && marker == held
    case Failure(ServiceNoNode) => 1 <= |calls| && RanksMarker(calls[..|calls| - 1], held, marker, path, prefix)
    case Failure(BadSequenceNumber(_)) => 1 <= |calls| && RanksMarker(calls[..|calls| - 1], held, marker, path, prefix)
    case Success(b) =>
      var k := |calls| - |WatchTail(b, armed, path)| - 1;
      0 <= k && RanksMarker(calls[..k], held, marker, path, prefix)
  }

  /**
   * A request a run of the ranking loop may make: the session id, a listing
   * of the lock's node, a create of a marker with the session's prefix and
   * the lock's ACL, or an existence check on a child of the lock's node.
   */
  ghost predicate LockRequest(c: Call, path: string, acls: Acl, prefix: string)
  {
    || c == ClientIdCall
    || (c.GetChildrenCall? && c.path == path)
    || (c.CreateCall? && c.path == path + "/" + prefix && c.acl == acls)
    || (c.ExistsCall? && StartsWith(c.path, path + "/"))
  }

  /** Every request in `calls` is one the lock may make. */
  ghost predicate LockRequests(calls: seq<Call>, path: string, acls: Acl, prefix: string)
  {
    forall i :: 0 <= i < |calls| ==> LockRequest(calls[i], path, acls, prefix)
  }
}
