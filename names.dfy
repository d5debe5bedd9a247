/**
 * Marker names. A lock marker is called `lock-<session>-<sequence>`: the lock
 * derives the prefix `lock-<session>-` from its session id, the coordination
 * service appends a zero-padded sequence number, and each ranking pass reads
 * the number back from the text after the last '-'.
 */
module Names {
  import opened Wrappers

  predicate IsDigit(c: char) {
    '0' <= c <= '9'
  }

  predicate AllDigits(s: string) {
    forall i :: 0 <= i < |s| ==> IsDigit(s[i])
  }

  /** Python's `str.startswith`: `s` is `prefix` followed by the rest of `s`. */
  predicate StartsWith(s: string, prefix: string): (r: bool)
    ensures r <==> |prefix| <= |s| && forall i :: 0 <= i < |prefix| ==> s[i] == prefix[i]
    ensures r ==> s == prefix + s[|prefix|..]
  {
    |prefix| <= |s| && s[..|prefix|] == prefix
  }

  /** Python's slice `s[n:]` for a non-negative `n`: empty when `n` is past the end. */
  function SliceFrom(s: string, n: nat): (r: string)
    ensures n <= |s| ==> s == s[..n] + r
    ensures n > |s| ==> r == ""
  {
    if n <= |s| then s[n..] else ""
  }

  /** A child's path starts with its parent's path and a slash; slicing those off gives its name back. */
  lemma JoinedPath(path: string, name: string)
    ensures StartsWith(path + "/" + name, path + "/")
    ensures SliceFrom(path + "/" + name, |path| + 1) == name
  {
    assert path + "/" + name == (path + "/") + name;
  }

  /** A sequential node's path: the parent, a slash, the requested name and the digits appended to it. */
  lemma SequentialPath(path: string, prefix: string, digits: string)
    ensures (path + "/" + prefix) + digits == path + "/" + (prefix + digits)
    ensures SliceFrom((path + "/" + prefix) + digits, |path| + 1) == prefix + digits
    ensures StartsWith(prefix + digits, prefix)
  {
    assert (path + "/" + prefix) + digits == path + "/" + (prefix + digits);
    JoinedPath(path, prefix + digits);
    assert (prefix + digits)[..|prefix|] == prefix;
  }

  function DigitChar(d: nat): (c: char)
    requires d < 10
    ensures IsDigit(c) && c as int - '0' as int == d
  {
    ('0' as int + d) as char
  }

  /** The value of a decimal numeral, most significant digit first. */
  function DecimalValue(s: string): nat
    requires AllDigits(s)
  {
    if |s| == 0 then 0 else DecimalValue(s[..|s| - 1]) * 10 + (s[|s| - 1] as int - '0' as int)
  }

  /** Python's `str` of a non-negative integer. */
  function NatToDecimal(n: nat): (s: string)
    ensures |s| >= 1 && AllDigits(s)
    ensures DecimalValue(s) == n
  {
    if n < 10 then [DigitChar(n)]
    else
      var init := NatToDecimal(n / 10);
      var s := init + [DigitChar(n % 10)];
      assert s[..|s| - 1] == init;
      s
  }

  /** A leading zero does not change the value of a numeral. */
  lemma {:induction false} LeadingZero(s: string)
    requires AllDigits(s)
    ensures AllDigits("0" + s) && DecimalValue("0" + s) == DecimalValue(s)
  {
    if |s| > 0 {
      var init := s[..|s| - 1];
      assert ("0" + s)[..|s|] == "0" + init;
      LeadingZero(init);
    }
  }

  /** Left-pad a numeral with zeros to at least `width` digits. */
  function PadZeros(s: string, width: nat): (r: string)
    requires AllDigits(s)
    ensures AllDigits(r) && |r| >= width && |r| >= |s|
    ensures DecimalValue(r) == DecimalValue(s)
    decreases width - |s|
  {
    if |s| >= width then s
    else
      LeadingZero(s);
      PadZeros("0" + s, width)
  }

  /** The suffix the service appends to a sequential node: ten digits, zero-padded. */
  function SeqDigits(n: nat): (s: string)
    ensures AllDigits(s) && |s| >= 10
    ensures DecimalValue(s) == n
  {
    PadZeros(NatToDecimal(n), 10)
  }

  /** `_id_to_node_prefix`: the marker-name prefix of a session. */
  function NodePrefix(sessionId: nat): (p: string)
    ensures StartsWith(p, "lock-") && |p| >= 7 && p[|p| - 1] == '-'
    ensures AllDigits(p[5..|p| - 1]) && DecimalValue(p[5..|p| - 1]) == sessionId
  {
    var p := "lock-" + NatToDecimal(sessionId) + "-";
    assert p[5..|p| - 1] == NatToDecimal(sessionId);
    p
  }

  /** Python's `str.rfind('-')`: the index of the last '-', or -1 when there is none. */
  function LastDash(s: string): (i: int)
    ensures -1 <= i < |s|
    ensures i >= 0 ==> s[i] == '-'
    ensures forall j :: i < j < |s| ==> s[j] != '-'
  {
    if |s| == 0 then -1
    else if s[|s| - 1] == '-' then |s| - 1
    else LastDash(s[..|s| - 1])
  }

  /**
   * The text after the last '-' of a name (the whole name when it has none),
   * taken character by character from the end; `SeqSuffixAfterLastDash`
   * shows it is Python's `name[name.rfind('-') + 1:]`.
   */
  function SeqSuffix(name: string): (s: string)
    ensures |s| <= |name| && name == name[..|name| - |s|] + s
    ensures forall i :: 0 <= i < |s| ==> s[i] != '-'
    ensures |s| < |name| ==> name[|name| - |s| - 1] == '-'
  {
    if |name| == 0 || name[|name| - 1] == '-' then ""
    else
      var init := name[..|name| - 1];
      assert name == init + [name[|name| - 1]];
      SeqSuffix(init) + [name[|name| - 1]]
  }

  /** The suffix is the slice after the last dash. */
  lemma {:induction false} SeqSuffixAfterLastDash(name: string)
    ensures SeqSuffix(name) == name[LastDash(name) + 1..]
  {
    if |name| > 0 && name[|name| - 1] != '-' {
      var init := name[..|name| - 1];
      var k := LastDash(init) + 1;
      assert LastDash(name) + 1 == k;
      assert SeqSuffix(name) == SeqSuffix(init) + [name[|name| - 1]];
      SeqSuffixAfterLastDash(init);
      assert name[k..] == init[k..] + [name[|name| - 1]];
    }
  }

  /**
   * Python's `int` applied to the sequence suffix. It is defined here only on a
   * non-empty run of ASCII digits; None stands for the ValueError `int` raises.
   */
  function ParseSeq(name: string): (r: Option<nat>)
    ensures r.Some? <==> |SeqSuffix(name)| > 0 && AllDigits(SeqSuffix(name))
    ensures r.Some? ==> |name| > 0 && r.value == DecimalValue(SeqSuffix(name))
  {
    var suffix := SeqSuffix(name);
    if |suffix| > 0 && AllDigits(suffix) then Some(DecimalValue(suffix)) else None
  }

  /** The number of leading digits of a string: the digits run up to the first non-digit or the end. */
  function LeadingDigits(s: string): (n: nat)
    ensures n <= |s|
    ensures forall i :: 0 <= i < n ==> IsDigit(s[i])
    ensures n == |s| || !IsDigit(s[n])
  {
    if |s| == 0 || !IsDigit(s[0]) then 0 else 1 + LeadingDigits(s[1..])
  }

  lemma {:induction false} LeadingDigitsOf(d: string, rest: string)
    requires AllDigits(d)
    requires |rest| > 0 && !IsDigit(rest[0])
    ensures LeadingDigits(d + rest) == |d|
  {
    if |d| == 0 {
      assert d + rest == rest;
    } else {
      assert (d + rest)[1..] == d[1..] + rest;
      LeadingDigitsOf(d[1..], rest);
    }
  }

  /**
   * Recovery by prefix adopts only the session's own markers: a name built on
   * the prefix of session `b` starts with the prefix of session `a` exactly
   * when `a == b` (the trailing '-' keeps session 12 from matching 123).
   */
  lemma PrefixIdentifiesSession(a: nat, b: nat, rest: string)
    ensures StartsWith(NodePrefix(b) + rest, NodePrefix(a)) <==> a == b
  {
    SessionDigitsIdentify(a, b, rest);
  }

  /** The same fact with the prefixes written out: distinct ids give distinct digit strings before the dash. */
  lemma SessionDigitsIdentify(a: nat, b: nat, rest: string)
    ensures StartsWith("lock-" + NatToDecimal(b) + "-" + rest, "lock-" + NatToDecimal(a) + "-") <==> a == b
  {
    var da, db := NatToDecimal(a), NatToDecimal(b);
    DigitsPrefixIdentify("lock-", da, db, rest);
    assert da == db ==> DecimalValue(da) == DecimalValue(db);
  }

  /** After a common head, digits closed by a dash start a name with digits closed by a dash exactly when the digits agree. */
  lemma DigitsPrefixIdentify(p: string, da: string, db: string, rest: string)
    requires AllDigits(da) && AllDigits(db)
    ensures StartsWith(p + db + "-" + rest, p + da + "-") <==> da == db
  {
    var s := p + db + "-" + rest;
    var q := p + da + "-";
    if StartsWith(s, q) {
      var t := s[|p|..];
      assert s == p + (db + ("-" + rest));
      assert t == db + ("-" + rest);
      assert q == p + (da + "-");
      assert t[..|da| + 1] == s[..|q|][|p|..] == da + "-";
      assert t == da + ("-" + t[|da| + 1..]);
      DigitsBeforeDash(da, db, t[|da| + 1..], rest);
    }
    if da == db {
      assert s == q + rest;
      assert s[..|q|] == q;
    }
  }

  /** Two digit strings each followed by a dash that spell the same string are equal. */
  lemma DigitsBeforeDash(da: string, db: string, x: string, y: string)
    requires AllDigits(da) && AllDigits(db)
    requires da + ("-" + x) == db + ("-" + y)
    ensures da == db
  {
    LeadingDigitsOf(db, "-" + y);
    LeadingDigitsOf(da, "-" + x);
    assert da == (da + ("-" + x))[..|da|];
    assert db == (db + ("-" + y))[..|db|];
  }

  lemma {:induction false} LastDashAfter(x: string, y: string)
    requires |x| > 0 && x[|x| - 1] == '-'
    requires AllDigits(y)
    ensures LastDash(x + y) == |x| - 1
  {
    if |y| == 0 {
      assert x + y == x;
    } else {
      assert (x + y)[..|x + y| - 1] == x + y[..|y| - 1];
      LastDashAfter(x, y[..|y| - 1]);
    }
  }

  /**
   * A marker of this library reads back as the sequence number the service
   * gave it: the last '-' is the one closing the session prefix.
   */
  lemma MarkerSeqRoundTrip(sessionId: nat, n: nat)
    ensures ParseSeq(NodePrefix(sessionId) + SeqDigits(n)) == Some(n)
  {
    var p := NodePrefix(sessionId);
    LastDashAfter(p, SeqDigits(n));
    SeqSuffixAfterLastDash(p + SeqDigits(n));
    assert SeqSuffix(p + SeqDigits(n)) == SeqDigits(n);
  }

  /** The index of the first name starting with `prefix`, or `|names|` when none does. */
  function PrefixIndex(names: seq<string>, prefix: string): (k: nat)
    ensures k <= |names|
    ensures k < |names| ==> StartsWith(names[k], prefix)
    ensures forall j :: 0 <= j < k ==> !StartsWith(names[j], prefix)
  {
    if |names| == 0 then 0
    else if StartsWith(names[0], prefix) then 0
    else 1 + PrefixIndex(names[1..], prefix)
  }

  /**
   * What getting or creating a marker under `parent` with `prefix` answers,
   * given the listing read and what the create returned: the first listed
   * child starting with `prefix`, with nothing created; otherwise the created
   * path without the leading `<parent>/`; None when either request found the
   * parent missing.
   */
  ghost predicate GotOrCreated(parent: string, prefix: string, listing: Option<seq<string>>, created: Option<string>, r: Option<string>)
  {
    match listing
    case None => r.None? && created.None?
    case Some(names) =>
      if PrefixIndex(names, prefix) < |names| then
        r == Some(names[PrefixIndex(names, prefix)]) && created.None?
      else
        (r.None? <==> created.None?) && (created.Some? ==> created.value == parent + "/" + r.value)
  }
}
