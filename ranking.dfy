/**
 * One ranking pass over a listing of the lock node's children: parse each
 * name's sequence number, sort ascending by it, record the lowest child and
 * scan for the lock's own marker and the child immediately before it.
 */
module Ranking {
  import opened Wrappers
  import opened Names

  /** A child of the lock node with its parsed sequence number: a `(seq_id, name)` pair. */
  datatype Child = Child(seqNo: nat, name: string)

  /** The number was read from the name. */
  predicate WellFormed(c: Child) {
    ParseSeq(c.name) == Some(c.seqNo)
  }

  /**
   * The list comprehension that parses a listing. It fails with the first name
   * whose suffix is not a number (Python's ValueError).
   */
  function ParseListing(names: seq<string>): (r: Result<seq<Child>, string>)
    ensures r.Success? <==> forall i :: 0 <= i < |names| ==> ParseSeq(names[i]).Some?
    ensures r.Success? ==> |r.value| == |names|
    ensures r.Success? ==> forall i :: 0 <= i < |names| ==> r.value[i].name == names[i] && WellFormed(r.value[i])
    ensures r.Failure? ==> r.error in names && ParseSeq(r.error).None?
  {
    var k := FirstUnparsable(names, 0);
    if k < |names| then Failure(names[k])
    else Success(seq(|names|, i requires 0 <= i < |names| => Child(ParseSeq(names[i]).value, names[i])))
  }

  /** The index of the first name from `from` on without a number after its last dash, or `|names|`. */
  function FirstUnparsable(names: seq<string>, from: nat): (k: nat)
    requires from <= |names|
    ensures from <= k <= |names|
    ensures k < |names| ==> ParseSeq(names[k]).None?
    ensures forall i :: from <= i < k ==> ParseSeq(names[i]).Some?
    decreases |names| - from
  {
    if from == |names| || ParseSeq(names[from]).None? then from
    else FirstUnparsable(names, from + 1)
  }


  predicate SortedBySeq(s: seq<Child>) {
    forall i, j :: 0 <= i < j < |s| ==> s[i].seqNo <= s[j].seqNo
  }

  /** No two children share a sequence number, as the service guarantees for its sequential nodes. */
  predicate DistinctSeqs(s: seq<Child>) {
    forall i, j :: 0 <= i < j < |s| ==> s[i].seqNo != s[j].seqNo
  }

  /** A child no larger than every child of a sorted list can go in front of it. */
  lemma SortedCons(x: Child, s: seq<Child>)
    requires SortedBySeq(s)
    requires forall y :: y in s ==> x.seqNo <= y.seqNo
    ensures SortedBySeq([x] + s)
  {
    var r := [x] + s;
    forall i, j | 0 <= i < j < |r|
      ensures r[i].seqNo <= r[j].seqNo
    {
      assert r[j] == s[j - 1] && r[j] in s;
    }
  }

  /** A child no larger than the head of a sorted list is no larger than any of it. */
  lemma SortedHeadBelow(x: Child, s: seq<Child>)
    requires SortedBySeq(s)
    requires |s| == 0 || x.seqNo <= s[0].seqNo
    ensures forall y :: y in s ==> x.seqNo <= y.seqNo
  {
    forall y | y in s
      ensures x.seqNo <= y.seqNo
    {
      var j :| 0 <= j < |s| && s[j] == y;
    }
  }

  /** The tail of a sorted list is sorted and lies above its head. */
  lemma SortedTail(s: seq<Child>)
    requires SortedBySeq(s) && |s| > 0
    ensures SortedBySeq(s[1..])
    ensures forall y :: y in s[1..] ==> s[0].seqNo <= y.seqNo
  {
    forall y | y in s[1..]
      ensures s[0].seqNo <= y.seqNo
    {
      var j :| 0 <= j < |s[1..]| && s[1..][j] == y;
      assert s[j + 1] == y;
    }
  }

  /** Insert `c` before the first child whose number is not smaller. */
  function Insert(c: Child, s: seq<Child>): (r: seq<Child>)
    requires SortedBySeq(s)
    ensures SortedBySeq(r)
    ensures multiset(r) == multiset(s) + multiset{c}
    ensures forall x :: x in r <==> x == c || x in s
  {
    if |s| == 0 || c.seqNo <= s[0].seqNo then
      SortedHeadBelow(c, s);
      SortedCons(c, s);
      [c] + s
    else
      assert s == [s[0]] + s[1..];
      SortedTail(s);
      var rest := Insert(c, s[1..]);
      assert forall y :: y in rest ==> s[0].seqNo <= y.seqNo;
      SortedCons(s[0], rest);
      [s[0]] + rest
  }

  /** Inserting a child whose number is new keeps the numbers distinct. */
  lemma {:induction false} InsertKeepsDistinct(c: Child, s: seq<Child>)
    requires SortedBySeq(s) && DistinctSeqs(s)
    requires forall x :: x in s ==> x.seqNo != c.seqNo
    ensures DistinctSeqs(Insert(c, s))
  {
    if |s| > 0 && c.seqNo > s[0].seqNo {
      var rest := Insert(c, s[1..]);
      DistinctTail(s);
      InsertKeepsDistinct(c, s[1..]);
      forall x | x in rest
        ensures x.seqNo != s[0].seqNo
      {
        if x != c {
          var j :| 0 <= j < |s[1..]| && s[1..][j] == x;
          assert s[j + 1] == x;
        }
      }
      var r := [s[0]] + rest;
      forall i, j | 0 <= i < j < |r|
        ensures r[i].seqNo != r[j].seqNo
      {
        if i == 0 {
          assert r[j] == rest[j - 1] && r[j] in rest;
        } else {
          assert r[i] == rest[i - 1] && r[j] == rest[j - 1];
        }
      }
    } else {
      var r := [c] + s;
      forall i, j | 0 <= i < j < |r|
        ensures r[i].seqNo != r[j].seqNo
      {
        if i == 0 {
          assert r[j] == s[j - 1] && r[j] in s;
        } else {
          assert r[i] == s[i - 1] && r[j] == s[j - 1];
        }
      }
    }
  }

  /** `children.sort(key=itemgetter(0))`: a stable insertion sort on the sequence number. */
  function SortBySeq(cs: seq<Child>): (r: seq<Child>)
    ensures SortedBySeq(r)
    ensures multiset(r) == multiset(cs)
    ensures forall x :: x in r <==> x in cs
  {
    if |cs| == 0 then []
    else
      assert cs == [cs[0]] + cs[1..];
      Insert(cs[0], SortBySeq(cs[1..]))
  }

  lemma DistinctTail(cs: seq<Child>)
    requires |cs| > 0 && DistinctSeqs(cs)
    ensures DistinctSeqs(cs[1..])
    ensures forall x :: x in cs[1..] ==> x.seqNo != cs[0].seqNo
  {
    forall x | x in cs[1..]
      ensures x.seqNo != cs[0].seqNo
    {
      var j :| 0 <= j < |cs[1..]| && cs[1..][j] == x;
      assert cs[j + 1] == x;
    }
  }

  /** Sorting a listing whose numbers are distinct yields distinct numbers. */
  lemma {:induction false} SortKeepsDistinct(cs: seq<Child>)
    requires DistinctSeqs(cs)
    ensures DistinctSeqs(SortBySeq(cs))
  {
    if |cs| > 0 {
      DistinctTail(cs);
      SortKeepsDistinct(cs[1..]);
      InsertKeepsDistinct(cs[0], SortBySeq(cs[1..]));
    }
  }

  /** The index of the first child called `id`, or `|s|` when there is none. */
  function IndexOfName(s: seq<Child>, id: string): (k: nat)
    ensures k <= |s|
    ensures k < |s| ==> s[k].name == id
    ensures forall j :: 0 <= j < k ==> s[j].name != id
  {
    if |s| == 0 then 0
    else if s[0].name == id then 0
    else 1 + IndexOfName(s[1..], id)
  }

  /** What a pass learns from the sorted listing. */
  datatype Ranking = Ranking(lowest: string, predecessor: Option<string>, foundSelf: bool)

  /**
   * The lowest child, the child immediately before the lock's own marker `id`
   * (None when `id` comes first or is missing), and whether `id` is listed.
   */
  function Rank(sorted: seq<Child>, id: string): (r: Ranking)
    requires |sorted| > 0
    ensures r.lowest == sorted[0].name
    ensures r.foundSelf <==> exists i :: 0 <= i < |sorted| && sorted[i].name == id
    ensures r.predecessor.Some? <==> r.foundSelf && r.lowest != id
    ensures r.predecessor.Some? ==> exists i :: 0 < i < |sorted| && sorted[i].name == id && sorted[i - 1].name == r.predecessor.value
  {
    var k := IndexOfName(sorted, id);
    Ranking(sorted[0].name, if 0 < k < |sorted| then Some(sorted[k - 1].name) else None, k < |sorted|)
  }

  /** Every child has a non-empty name, as every parsed child has. */
  predicate NamesNonEmpty(cs: seq<Child>) {
    forall c :: c in cs ==> c.name != ""
  }

  /** A parsed child's name is not empty: `int('')` raises. */
  lemma ParsedNamesNonEmpty(names: seq<string>, cs: seq<Child>)
    requires ParseListing(names) == Success(cs)
    ensures NamesNonEmpty(cs)
  {
    forall c | c in cs
      ensures c.name != ""
    {
      var j :| 0 <= j < |cs| && cs[j] == c;
      assert WellFormed(cs[j]);
    }
  }

  /**
   * What a pass concludes from a parsed listing and the marker it holds: the
   * listing is empty, the marker is not listed, the marker is the lowest, or
   * the marker sits behind a neighbour. The owner is the lowest child.
   */
  datatype Verdict = NoChildren | NotListed(owner: string) | Lowest(owner: string) | Behind(owner: string, neighbor: string)

  function Judge(listed: seq<Child>, held: string): Verdict
  {
    if |listed| == 0 then NoChildren
    else
      var s := SortBySeq(listed);
      var r := Rank(s, held);
      if !r.foundSelf then NotListed(r.lowest)
      else if r.predecessor.None? then Lowest(r.lowest)
      else Behind(r.lowest, r.predecessor.value)
  }

  /**
   * The verdict's cases: no children exactly for an empty listing, not
   * listed exactly when no child has the held name, and otherwise an owner
   * and a neighbour that are real, distinct listed names.
   */
  lemma JudgeCases(listed: seq<Child>, held: string)
    ensures Judge(listed, held).NoChildren? <==> |listed| == 0
    ensures Judge(listed, held).NotListed? <==> |listed| > 0 && forall c :: c in listed ==> c.name != held
    ensures Judge(listed, held).Lowest? ==> Judge(listed, held).owner == held
    ensures Judge(listed, held).Behind? ==> Judge(listed, held).owner != held && Judge(listed, held).neighbor != held
    ensures NamesNonEmpty(listed) && !Judge(listed, held).NoChildren? ==> Judge(listed, held).owner != ""
    ensures NamesNonEmpty(listed) && Judge(listed, held).Behind? ==> Judge(listed, held).neighbor != ""
  {
    if |listed| > 0 {
      var s := SortBySeq(listed);
      var r := Rank(s, held);
      assert s[0] in listed;
      if r.foundSelf && r.predecessor.Some? {
        var k := IndexOfName(s, held);
        assert s[k - 1] in listed;
      }
    }
  }

  /**
   * The scan for the smaller neighbour: walk the sorted children, stop at the
   * lock's own name and keep the name seen just before it. When the name is
   * missing the scan ends holding the last name.
   */
  method ScanForNeighbor(sorted: seq<Child>, id: string) returns (meNotFound: bool, smallerNeighbor: Option<string>)
    ensures meNotFound <==> forall i :: 0 <= i < |sorted| ==> sorted[i].name != id
    ensures !meNotFound ==> |sorted| > 0 && Rank(sorted, id).foundSelf && smallerNeighbor == Rank(sorted, id).predecessor
    ensures meNotFound ==> smallerNeighbor == if |sorted| == 0 then None else Some(sorted[|sorted| - 1].name)
  {
    meNotFound := true;
    smallerNeighbor := None;
    var i := 0;
    while i < |sorted|
      invariant 0 <= i <= |sorted|
      invariant meNotFound
      invariant forall j :: 0 <= j < i ==> sorted[j].name != id
      invariant smallerNeighbor == if i == 0 then None else Some(sorted[i - 1].name)
    {
      if sorted[i].name == id {
        meNotFound := false;
        break;
      }
      smallerNeighbor := Some(sorted[i].name);
      i := i + 1;
    }
  }

  /** The lowest child of a pass is a listed child with the smallest sequence number. */
  lemma LowestIsMinimal(cs: seq<Child>)
    requires |cs| > 0
    ensures SortBySeq(cs)[0] in cs
    ensures forall c :: c in cs ==> SortBySeq(cs)[0].seqNo <= c.seqNo
  {
    var s := SortBySeq(cs);
    assert s[0] in s;
    forall c | c in cs
      ensures s[0].seqNo <= c.seqNo
    {
      assert c in s;
      var j :| 0 <= j < |s| && s[j] == c;
    }
  }

  /**
   * With distinct sequence numbers a listed marker has no predecessor exactly
   * when its number is smaller than that of every other child.
   */
  lemma NoPredecessorIffLowest(s: seq<Child>, id: string)
    requires SortedBySeq(s) && DistinctSeqs(s)
    requires |s| > 0 && Rank(s, id).foundSelf
    ensures var me := s[IndexOfName(s, id)];
      Rank(s, id).predecessor.None? <==> forall c :: c in s && c != me ==> me.seqNo < c.seqNo
  {
    var k := IndexOfName(s, id);
    if k == 0 {
      forall c | c in s && c != s[k]
        ensures s[k].seqNo < c.seqNo
      {
        var j :| 0 <= j < |s| && s[j] == c;
        assert j != 0;
      }
    } else {
      assert s[k - 1] in s && s[k - 1] != s[k];
    }
  }

  /**
   * With distinct sequence numbers the predecessor is the child with the
   * largest number below the lock's own marker.
   */
  lemma PredecessorIsNextLower(s: seq<Child>, id: string)
    requires SortedBySeq(s) && DistinctSeqs(s)
    requires |s| > 0 && Rank(s, id).foundSelf && Rank(s, id).predecessor.Some?
    ensures var k := IndexOfName(s, id);
      && 0 < k
      && Rank(s, id).predecessor.value == s[k - 1].name
      && s[k - 1].seqNo < s[k].seqNo
      && forall c :: c in s && c.seqNo < s[k].seqNo ==> c.seqNo <= s[k - 1].seqNo
  {
    var k := IndexOfName(s, id);
    forall c | c in s && c.seqNo < s[k].seqNo
      ensures c.seqNo <= s[k - 1].seqNo
    {
      var j :| 0 <= j < |s| && s[j] == c;
      assert j < k;
    }
  }
}
