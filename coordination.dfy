/**
 * The coordination service as the lock sees it: one parent node with its
 * access-control list and children, the client's session, the registered
 * connection-state watchers and the paths existence watches were armed on.
 *
 * Other contenders act on the same parent between the lock's requests. Their
 * changes sit in `pending` and one is applied at the start of every request
 * that reaches the server, so the contracts below say what a request answers
 * in the state it finds, never that the children are as the last answer left
 * them. Every request is appended to the ghost `log`.
 */
module Coordination {
  import opened Wrappers
  import opened Names

  datatype AclEntry = AclEntry(perms: nat, scheme: string, identity: string)

  type Acl = seq<AclEntry>

  /** The connection states the client reports to its global watchers. */
  datatype KeeperState = Connecting | Associating | Connected | Expired | AuthFailed

  /** A change made under the parent by some other party. */
  datatype Foreign = Replace(names: seq<string>) | ParentDeleted

  /** One request of this client, with the answer it got. */
  datatype Call =
    | ClientIdCall
    | GetAclCall(path: string, found: Option<Acl>)
    | GetChildrenCall(path: string, listing: Option<seq<string>>)
    | CreateCall(path: string, acl: Acl, created: Option<string>)
    | ExistsCall(path: string, present: bool)
    | DeleteCall(path: string, deleted: bool)
    | AddWatcherCall(watcher: object)
    | RemoveWatcherCall(watcher: object)

  /** `s` without any occurrence of `x`. */
  function Without(s: seq<string>, x: string): (r: seq<string>)
    ensures forall y :: y in r <==> y in s && y != x
  {
    if |s| == 0 then []
    else if s[0] == x then Without(s[1..], x)
    else [s[0]] + Without(s[1..], x)
  }

  class Service {
    const parent: string
    var parentExists: bool
    var parentAcl: Acl
    var children: seq<string>
    var connected: bool
    var somehowConnected: bool
    const sessionId: nat
    var nextSeq: nat
    var globalWatchers: set<object>
    /** Every path an existence watch was armed on; a watch is never consumed or dropped here. */
    var watches: set<string>
    var pending: seq<Foreign>
    ghost var log: seq<Call>

    constructor (parent: string, acl: Acl, children: seq<string>, sessionId: nat, pending: seq<Foreign>)
      ensures this.parent == parent && parentExists && parentAcl == acl && this.children == children
      ensures connected && somehowConnected && this.sessionId == sessionId && nextSeq == 0
      ensures globalWatchers == {} && watches == {} && this.pending == pending && log == []
    {
      this.parent := parent;
      parentExists := true;
      parentAcl := acl;
      this.children := children;
      connected := true;
      somehowConnected := true;
      this.sessionId := sessionId;
      nextSeq := 0;
      globalWatchers := {};
      watches := {};
      this.pending := pending;
      log := [];
    }

    /** The child name a path under the parent denotes. */
    function ChildOf(p: string): string
    {
      SliceFrom(p, |parent| + 1)
    }

    predicate UnderParent(p: string)
    {
      StartsWith(p, parent + "/")
    }

    /** Apply the next change of the other contenders, if there is one. */
    method Interfere()
      modifies this`children, this`parentExists, this`pending
      ensures old(pending) == [] ==> pending == [] && children == old(children) && parentExists == old(parentExists)
      ensures old(pending) != [] ==> pending == old(pending)[1..]
      ensures old(pending) != [] && old(pending)[0].Replace? ==>
        children == old(pending)[0].names && parentExists == old(parentExists)
      ensures old(pending) != [] && old(pending)[0].ParentDeleted? ==> children == [] && !parentExists
    {
      if pending != [] {
        match pending[0] {
          case Replace(names) =>
            children := names;
          case ParentDeleted =>
            children := [];
            parentExists := false;
        }
        pending := pending[1..];
      }
    }

    /** `client_id()`: the current session id; answered by the client without a round trip. */
    method ClientId() returns (sid: nat)
      modifies this`log
      ensures sid == sessionId
      ensures log == old(log) + [ClientIdCall]
    {
      sid := sessionId;
      log := log + [ClientIdCall];
    }

    /** `get_acl(path)`: the parent's list, or None for NoNode. */
    method GetAcl(p: string) returns (acl: Option<Acl>)
      modifies this`children, this`parentExists, this`pending, this`log
      ensures acl.Some? <==> p == parent && parentExists
      ensures acl.Some? ==> acl.value == parentAcl
      ensures log == old(log) + [GetAclCall(p, acl)]
    {
      Interfere();
      acl := if p == parent && parentExists then Some(parentAcl) else None;
      log := log + [GetAclCall(p, acl)];
    }

    /** `get_children(path)`: the current names, or None for NoNode. */
    method GetChildren(p: string) returns (listing: Option<seq<string>>)
      modifies this`children, this`parentExists, this`pending, this`log
      ensures listing.Some? <==> p == parent && parentExists
      ensures listing.Some? ==> listing.value == children
      ensures log == old(log) + [GetChildrenCall(p, listing)]
    {
      Interfere();
      listing := if p == parent && parentExists then Some(children) else None;
      log := log + [GetChildrenCall(p, listing)];
    }

    /**
     * `create(path, '', acl, EphemeralSequential)`: the node `p` followed by the
     * next sequence number, returned as a full path; None for NoNode.
     */
    method Create(p: string, acl: Acl) returns (created: Option<string>)
      modifies this`children, this`parentExists, this`pending, this`nextSeq, this`log
      ensures created.Some? <==> parentExists && UnderParent(p)
      ensures created.Some? ==> created.value == p + SeqDigits(old(nextSeq))
      ensures created.Some? ==> ChildOf(created.value) in children && nextSeq == old(nextSeq) + 1
      ensures created.None? ==> nextSeq == old(nextSeq)
      ensures log == old(log) + [CreateCall(p, acl, created)]
    {
      Interfere();
      if parentExists && UnderParent(p) {
        var name := p + SeqDigits(nextSeq);
        children := children + [ChildOf(name)];
        nextSeq := nextSeq + 1;
        created := Some(name);
      } else {
        created := None;
      }
      log := log + [CreateCall(p, acl, created)];
    }

    /**
     * `exists(path, watcher)`: whether the node is there. A watch is armed on
     * the path either way; `watches` records the path, and its firing is not
     * modelled.
     */
    method Exists(p: string) returns (present: bool)
      modifies this`children, this`parentExists, this`pending, this`watches, this`log
      ensures present <==> parentExists && (p == parent || (UnderParent(p) && ChildOf(p) in children))
      ensures watches == old(watches) + {p}
      ensures log == old(log) + [ExistsCall(p, present)]
    {
      Interfere();
      present := parentExists && (p == parent || (UnderParent(p) && ChildOf(p) in children));
      watches := watches + {p};
      log := log + [ExistsCall(p, present)];
    }

    /** `delete(path)`: removes a child; `deleted` is false for NoNode. */
    method Delete(p: string) returns (deleted: bool)
      modifies this`children, this`parentExists, this`pending, this`log
      ensures parentExists && UnderParent(p) ==> ChildOf(p) !in children
      ensures deleted ==> parentExists && UnderParent(p)
      ensures log == old(log) + [DeleteCall(p, deleted)]
    {
      Interfere();
      deleted := parentExists && UnderParent(p) && ChildOf(p) in children;
      if deleted {
        children := Without(children, ChildOf(p));
      }
      log := log + [DeleteCall(p, deleted)];
    }

    method AddGlobalWatcher(w: object)
      modifies this`globalWatchers, this`log
      ensures globalWatchers == old(globalWatchers) + {w}
      ensures log == old(log) + [AddWatcherCall(w)]
    {
      globalWatchers := globalWatchers + {w};
      log := log + [AddWatcherCall(w)];
    }

    method RemoveGlobalWatcher(w: object)
      modifies this`globalWatchers, this`log
      ensures globalWatchers == old(globalWatchers) - {w}
      ensures log == old(log) + [RemoveWatcherCall(w)]
    {
      globalWatchers := globalWatchers - {w};
      log := log + [RemoveWatcherCall(w)];
    }
  }
}
