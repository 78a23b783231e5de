/** Replace-exactly-once edits of the approved files (remediation.py). `bytes.count` is the greedy scan for
    non-overlapping matches, and `bytes.replace(before, after, 1)` replaces the leftmost one. */
module Remediation {
  import opened Wrappers

  predicate MatchAt<T(==)>(s: seq<T>, b: seq<T>, i: nat) {
    i + |b| <= |s| && s[i..i + |b|] == b
  }

  /** `content.count(before)`, for a non-empty anchor. */
  function Count<T(==)>(s: seq<T>, b: seq<T>): nat
    requires b != []
    decreases |s|
  {
    if |s| < |b| then 0
    else if s[..|b|] == b then 1 + Count(s[|b|..], b)
    else Count(s[1..], b)
  }

  /** `content.replace(before, after, 1)`. */
  function ReplaceFirst<T(==)>(s: seq<T>, b: seq<T>, a: seq<T>): seq<T>
    requires b != []
    decreases |s|
  {
    if |s| < |b| then s
    else if s[..|b|] == b then a + s[|b|..]
    else [s[0]] + ReplaceFirst(s[1..], b, a)
  }

  datatype Edit<T> = Edit(before: seq<T>, after: seq<T>)

  datatype Ambiguous = Ambiguous(found: nat)

  /** `_replace_exactly_once`. */
  function ReplaceExactlyOnce<T(==)>(s: seq<T>, e: Edit<T>): Result<seq<T>, Ambiguous>
    requires e.before != []
  {
    var n := Count(s, e.before);
    if n != 1 then Err(Ambiguous(n)) else Ok(ReplaceFirst(s, e.before, e.after))
  }

  // ----- What one edit does.

  /** No match starts before position `i`. */
  ghost predicate NoMatchBefore<T>(s: seq<T>, b: seq<T>, i: nat) {
    forall j :: 0 <= j < i ==> !MatchAt(s, b, j)
  }

  lemma {:induction false} CountZero<T>(s: seq<T>, b: seq<T>)
    requires b != []
    ensures Count(s, b) == 0 <==> NoMatchBefore(s, b, |s|)
    decreases |s|
  {
    if |s| >= |b| {
      if s[..|b|] == b {
        assert MatchAt(s, b, 0);
      } else {
        CountZero(s[1..], b);
        ShiftMatches(s, b);
        assert !MatchAt(s, b, 0);
        if NoMatchBefore(s[1..], b, |s| - 1) {
          forall j | 0 <= j < |s| ensures !MatchAt(s, b, j) {
            if j > 0 { assert !MatchAt(s[1..], b, j - 1); }
          }
        }
        if NoMatchBefore(s, b, |s|) {
          forall j | 0 <= j < |s| - 1 ensures !MatchAt(s[1..], b, j) {
            assert !MatchAt(s, b, j + 1);
          }
        }
      }
    }
  }

  lemma ShiftMatches<T>(s: seq<T>, b: seq<T>)
    requires s != [] && b != []
    ensures forall j: nat :: MatchAt(s[1..], b, j) <==> MatchAt(s, b, j + 1)
  {
    forall j: nat ensures MatchAt(s[1..], b, j) <==> MatchAt(s, b, j + 1) {
      if j + 1 + |b| <= |s| { assert s[1..][j..j + |b|] == s[j + 1..j + 1 + |b|]; }
    }
  }

  /** The leftmost match splits the content; the split does not depend on what follows the match. */
  lemma {:induction false} Leftmost<T>(s: seq<T>, b: seq<T>) returns (u: seq<T>, v: seq<T>)
    requires b != [] && Count(s, b) > 0
    ensures s == u + b + v && NoMatchBefore(s, b, |u|)
    ensures Count(s, b) == 1 + Count(v, b)
    decreases |s|
  {
    if s[..|b|] == b {
      u, v := [], s[|b|..];
    } else {
      var u', v' := Leftmost(s[1..], b);
      u, v := [s[0]] + u', v';
      ShiftMatches(s, b);
      assert s == u + b + v;
      forall j | 0 <= j < |u| ensures !MatchAt(s, b, j) {
        if j > 0 { assert !MatchAt(s[1..], b, j - 1); }
      }
    }
  }

  lemma {:induction false} ReplacesLeftmost<T>(u: seq<T>, b: seq<T>, v: seq<T>, a: seq<T>)
    requires b != [] && NoMatchBefore(u + b + v, b, |u|)
    ensures ReplaceFirst(u + b + v, b, a) == u + a + v
    decreases |u|
  {
    var s := u + b + v;
    if u == [] {
      assert s[..|b|] == b && s[|b|..] == v;
    } else {
      assert !MatchAt(s, b, 0);
      assert s[1..] == u[1..] + b + v;
      ShiftMatches(s, b);
      forall j | 0 <= j < |u[1..]| ensures !MatchAt(s[1..], b, j) {
        assert !MatchAt(s, b, j + 1);
      }
      ReplacesLeftmost(u[1..], b, v, a);
      assert [s[0]] + (u[1..] + a + v) == u + a + v;
    }
  }

  ghost predicate OnceAt<T>(s: seq<T>, b: seq<T>, u: seq<T>, v: seq<T>)
    requires b != []
  {
    s == u + b + v && NoMatchBefore(s, b, |u|) && Count(v, b) == 0
  }

  lemma {:induction false} CountFrom<T>(u: seq<T>, b: seq<T>, v: seq<T>)
    requires b != [] && NoMatchBefore(u + b + v, b, |u|)
    ensures Count(u + b + v, b) == 1 + Count(v, b)
    decreases |u|
  {
    var s := u + b + v;
    if u == [] {
      assert s[..|b|] == b && s[|b|..] == v;
    } else {
      assert !MatchAt(s, b, 0);
      assert s[1..] == u[1..] + b + v;
      ShiftMatches(s, b);
      forall j | 0 <= j < |u[1..]| ensures !MatchAt(s[1..], b, j) {
        assert !MatchAt(s, b, j + 1);
      }
      CountFrom(u[1..], b, v);
    }
  }

  /** The edit is applied exactly when the content splits around a leftmost match after which no match begins, and
      then it gives that prefix, the replacement and that suffix. */
  lemma ReplacesExactlyOnce<T(!new)>(s: seq<T>, e: Edit<T>, r: seq<T>)
    requires e.before != []
    ensures ReplaceExactlyOnce(s, e) == Ok(r)
            <==> exists u, v :: OnceAt(s, e.before, u, v) && r == u + e.after + v
  {
    if ReplaceExactlyOnce(s, e) == Ok(r) {
      var u, v := Leftmost(s, e.before);
      ReplacesLeftmost(u, e.before, v, e.after);
      assert OnceAt(s, e.before, u, v);
    }
    if u, v :| OnceAt(s, e.before, u, v) && r == u + e.after + v {
      CountFrom(u, e.before, v);
      ReplacesLeftmost(u, e.before, v, e.after);
    }
  }

  /** The size changes by exactly the difference of the anchor lengths. */
  lemma Growth<T>(s: seq<T>, e: Edit<T>)
    requires e.before != [] && ReplaceExactlyOnce(s, e).Ok?
    ensures |ReplaceExactlyOnce(s, e).value| == |s| + |e.after| - |e.before|
  {
    var u, v := Leftmost(s, e.before);
    ReplacesLeftmost(u, e.before, v, e.after);
  }

  // ----- One count is not one position.

  /** The anchor overlaps itself when shifted by `k`. */
  predicate Overlaps<T(==)>(b: seq<T>, k: nat) {
    0 < k < |b| && b[k..] == b[..|b| - k]
  }

  ghost predicate SinglePosition<T>(s: seq<T>, b: seq<T>) {
    forall i: nat, j: nat :: MatchAt(s, b, i) && MatchAt(s, b, j) ==> i == j
  }

  lemma CountOnePosition<T>(s: seq<T>, b: seq<T>, i: nat, j: nat)
    requires b != [] && Count(s, b) == 1 && MatchAt(s, b, i) && MatchAt(s, b, j) && i < j
    ensures exists k: nat :: Overlaps(b, k)
  {
    var u, v := Leftmost(s, b);
    CountZero(v, b);
    assert |u| <= i;
    if j >= |u| + |b| {
      assert s[j..j + |b|] == v[j - |u| - |b|..j - |u|];
      assert MatchAt(v, b, j - |u| - |b|);
    } else {
      OverlapFrom(s, b, i, j);
    }
  }

  lemma OverlapFrom<T>(s: seq<T>, b: seq<T>, i: nat, j: nat)
    requires MatchAt(s, b, i) && MatchAt(s, b, j) && i < j < i + |b|
    ensures Overlaps(b, j - i)
  {
    var k := j - i;
    assert b[k..] == s[j..i + |b|] == b[..|b| - k];
  }

  lemma OverlapCounts<T>(b: seq<T>, k: nat)
    requires Overlaps(b, k)
    ensures var s := b[..k] + b; Count(s, b) == 1 && MatchAt(s, b, 0) && MatchAt(s, b, k)
  {
    var s := b[..k] + b;
    assert s[..|b|] == b[..k] + b[..|b| - k] == b[..k] + b[k..] == b;
    assert s[k..k + |b|] == b;
    assert |s[|b|..]| < |b|;
  }

  /** A count of one proves a single position, for every content, exactly when the anchor does not overlap itself. */
  lemma CountOneMeansUniqueExactly<T(!new)>(b: seq<T>)
    requires b != []
    ensures (forall s :: Count(s, b) == 1 ==> SinglePosition(s, b)) <==> !exists k: nat :: Overlaps(b, k)
  {
    if k: nat :| Overlaps(b, k) {
      OverlapCounts(b, k);
      assert !SinglePosition(b[..k] + b, b);
    } else {
      forall s | Count(s, b) == 1 ensures SinglePosition(s, b) {
        forall i: nat, j: nat | MatchAt(s, b, i) && MatchAt(s, b, j) ensures i == j {
          if i < j { CountOnePosition(s, b, i, j); }
          if j < i { CountOnePosition(s, b, j, i); }
        }
      }
    }
  }

  // ----- Two edits of one file.

  /** No occurrence of one can overlap an occurrence of the other: neither contains the other's last element. */
  predicate Separated<T(==)>(x: seq<T>, y: seq<T>) {
    x != [] && y != [] && x[|x| - 1] !in y && y[|y| - 1] !in x
  }

  /** Matches inside a part of a text are matches of the text. */
  lemma MatchInside<T>(s: seq<T>, lo: nat, hi: nat, b: seq<T>, j: nat)
    requires lo + j + |b| <= hi <= |s|
    ensures MatchAt(s[lo..hi], b, j) <==> MatchAt(s, b, lo + j)
  {
    var inner, outer := s[lo..hi][j..j + |b|], s[lo + j..lo + j + |b|];
    forall k | 0 <= k < |b| ensures inner[k] == outer[k] {
      assert inner[k] == s[lo..hi][j + k] == s[lo + j + k];
    }
    assert inner == outer;
  }

  lemma StraddleShares<T>(u: seq<T>, x: seq<T>, v: seq<T>, b: seq<T>)
    requires x != [] && b != [] && |u| < |b| && MatchAt(u + x + v, b, 0)
    ensures b[|b| - 1] in x || x[|x| - 1] in b
  {
    var s := u + x + v;
    assert s[..|b|] == b;
    if |b| <= |u| + |x| {
      assert b[|b| - 1] == s[|b| - 1] == x[|b| - 1 - |u|];
    } else {
      assert x[|x| - 1] == s[|u| + |x| - 1] == b[|u| + |x| - 1];
    }
  }

  lemma NoStraddle<T>(u: seq<T>, x: seq<T>, v: seq<T>, b: seq<T>)
    requires Separated(x, b) && |u| < |b|
    ensures !MatchAt(u + x + v, b, 0)
  {
    if MatchAt(u + x + v, b, 0) {
      StraddleShares(u, x, v, b);
    }
  }

  /** Counting an anchor on either side of a text it is separated from. */
  lemma {:induction false} CountSplit<T>(u: seq<T>, x: seq<T>, v: seq<T>, b: seq<T>)
    requires Separated(x, b)
    ensures Count(u + x + v, b) == Count(u, b) + Count(v, b)
    decreases |u| + |x|
  {
    var s := u + x + v;
    if |u| >= |b| && u[..|b|] == b {
      assert s[..|b|] == b && s[|b|..] == u[|b|..] + x + v;
      CountSplit(u[|b|..], x, v, b);
    } else if |u| >= |b| {
      assert s[..|b|] == u[..|b|] && s[1..] == u[1..] + x + v;
      CountSplit(u[1..], x, v, b);
    } else {
      NoStraddle(u, x, v, b);
      DropOne(u, x, v, b);
    }
  }

  lemma {:induction false} DropOne<T>(u: seq<T>, x: seq<T>, v: seq<T>, b: seq<T>)
    requires Separated(x, b) && |u| < |b| && !MatchAt(u + x + v, b, 0)
    ensures Count(u + x + v, b) == Count(u, b) + Count(v, b)
    decreases |u| + |x|, 0
  {
    var s := u + x + v;
    assert Count(u, b) == 0;
    if u != [] {
      assert s[1..] == u[1..] + x + v;
      CountSplit(u[1..], x, v, b);
    } else if |x| > 1 {
      assert s[1..] == [] + x[1..] + v;
      CountSplit([], x[1..], v, b);
    } else {
      assert s[1..] == v;
    }
    ShortCount(s, b);
  }

  lemma ShortCount<T>(s: seq<T>, b: seq<T>)
    requires b != [] && s != [] && !MatchAt(s, b, 0)
    ensures Count(s, b) == Count(s[1..], b)
  {
  }

  lemma {:induction false} NoMatchExtends<T>(u: seq<T>, b: seq<T>, v: seq<T>, w: seq<T>)
    requires b != [] && NoMatchBefore(u + b + v, b, |u|)
    ensures NoMatchBefore(u + b + w, b, |u|)
  {
    forall j | 0 <= j < |u| ensures !MatchAt(u + b + w, b, j) {
      assert !MatchAt(u + b + v, b, j);
      assert (u + b + w)[j..j + |b|] == (u + b + v)[j..j + |b|];
    }
  }

  /** The first edit, done while the second one's match lies behind it. */
  lemma FirstThenBehind<T>(u: seq<T>, e: Edit<T>, v: seq<T>, f: Edit<T>)
    requires e.before != [] && NoMatchBefore(u + e.before + v, e.before, |u|)
    requires Separated(e.before, f.before) && Separated(e.after, f.before)
    requires Count(u, f.before) == 0 && Count(v, f.before) > 0
    ensures ReplaceFirst(u + e.before + v, e.before, e.after) == u + e.after + v
    ensures ReplaceFirst(u + e.after + v, f.before, f.after) == u + e.after + ReplaceFirst(v, f.before, f.after)
    ensures ReplaceFirst(u + e.before + v, f.before, f.after) == u + e.before + ReplaceFirst(v, f.before, f.after)
    ensures ReplaceFirst(u + e.before + ReplaceFirst(v, f.before, f.after), e.before, e.after)
            == u + e.after + ReplaceFirst(v, f.before, f.after)
  {
    ReplacesLeftmost(u, e.before, v, e.after);
    ReplaceBehind(u, e.after, v, f);
    ReplaceBehind(u, e.before, v, f);
    NoMatchExtends(u, e.before, v, ReplaceFirst(v, f.before, f.after));
    ReplacesLeftmost(u, e.before, ReplaceFirst(v, f.before, f.after), e.after);
  }

  lemma ReplaceBehind<T>(u: seq<T>, x: seq<T>, v: seq<T>, f: Edit<T>)
    requires Separated(x, f.before) && Count(u, f.before) == 0 && Count(v, f.before) > 0
    ensures ReplaceFirst(u + x + v, f.before, f.after) == u + x + ReplaceFirst(v, f.before, f.after)
  {
    hide ReplaceFirst, Count;
    var b := f.before;
    var p, q := Leftmost(v, b);
    ReplacesLeftmost(p, b, q, f.after);
    assert u + x + v == (u + x + p) + b + q;
    NoMatchInFront(u, x, v, b, |p|);
    ReplacesLeftmost(u + x + p, b, q, f.after);
    assert (u + x + p) + f.after + q == u + x + (p + f.after + q);
  }

  lemma NoMatchInFront<T>(u: seq<T>, x: seq<T>, v: seq<T>, b: seq<T>, n: nat)
    requires Separated(x, b) && Count(u, b) == 0 && n <= |v| && NoMatchBefore(v, b, n)
    ensures NoMatchBefore(u + x + v, b, |u| + |x| + n)
  {
    CountZero(u, b);
    forall j | 0 <= j < |u| + |x| + n ensures !MatchAt(u + x + v, b, j) {
      NoMatchThere(u, x, v, b, n, j);
    }
  }

  lemma NoMatchThere<T>(u: seq<T>, x: seq<T>, v: seq<T>, b: seq<T>, n: nat, j: nat)
    requires Separated(x, b) && NoMatchBefore(u, b, |u|) && n <= |v| && NoMatchBefore(v, b, n)
    requires j < |u| + |x| + n
    ensures !MatchAt(u + x + v, b, j)
  {
    var s := u + x + v;
    if j + |b| <= |s| {
      if j + |b| <= |u| {
        assert s[0..|u|] == u;
        MatchInside(s, 0, |u|, b, j);
      } else if j >= |u| + |x| {
        assert s[|u| + |x|..|s|] == v;
        MatchInside(s, |u| + |x|, |s|, b, j - |u| - |x|);
      } else if j < |u| {
        assert s[j..|s|] == u[j..] + x + v;
        MatchInside(s, j, |s|, b, 0);
        NoStraddle(u[j..], x, v, b);
      } else {
        assert s[j..|s|] == [] + x[j - |u|..] + v;
        MatchInside(s, j, |s|, b, 0);
        NoStraddle([], x[j - |u|..], v, b);
      }
    }
  }

  /** `_apply_approved_edits` on one file: the second edit is applied to the result of the first. */
  function ApplyTwo<T(==)>(s: seq<T>, e: Edit<T>, f: Edit<T>): Result<seq<T>, Ambiguous>
    requires e.before != [] && f.before != []
  {
    match ReplaceExactlyOnce(s, e)
    case Err(a) => Err(a)
    case Ok(r) => ReplaceExactlyOnce(r, f)
  }

  /** Neither edit can create, destroy or straddle a match of the other. */
  predicate Independent<T(==)>(e: Edit<T>, f: Edit<T>) {
    Separated(e.before, f.before) && Separated(e.after, f.before) && Separated(e.before, f.after)
  }

  /** One edit does not change how often the other's anchor is found. */
  lemma CountUnchanged<T>(s: seq<T>, e: Edit<T>, f: Edit<T>)
    requires Independent(e, f) && ReplaceExactlyOnce(s, e).Ok?
    ensures Count(ReplaceExactlyOnce(s, e).value, f.before) == Count(s, f.before)
  {
    var u, v := Leftmost(s, e.before);
    ReplacesLeftmost(u, e.before, v, e.after);
    CountSplit(u, e.before, v, f.before);
    CountSplit(u, e.after, v, f.before);
  }

  lemma InFrontOrBehind<T>(s: seq<T>, x: seq<T>, y: seq<T>, u: seq<T>, v: seq<T>, p: seq<T>, q: seq<T>)
    requires Separated(x, y) && s == u + x + v == p + y + q
    requires NoMatchBefore(s, x, |u|) && NoMatchBefore(s, y, |p|)
    ensures Count(u, y) == 0 || Count(p, x) == 0
  {
    CountZero(u, y);
    CountZero(p, x);
    if |p| <= |u| {
      assert s[0..|p|] == p;
      forall j | 0 <= j < |p| ensures !MatchAt(p, x, j) {
        if j + |x| <= |p| { MatchInside(s, 0, |p|, x, j); }
      }
    } else {
      assert s[0..|u|] == u;
      forall j | 0 <= j < |u| ensures !MatchAt(u, y, j) {
        if j + |y| <= |u| { MatchInside(s, 0, |u|, y, j); }
      }
    }
  }

  lemma CommuteBehind<T>(s: seq<T>, e: Edit<T>, f: Edit<T>, u: seq<T>, v: seq<T>)
    requires Independent(e, f) && Count(s, e.before) == 1 && Count(s, f.before) == 1
    requires s == u + e.before + v && NoMatchBefore(s, e.before, |u|) && Count(u, f.before) == 0
    ensures ApplyTwo(s, e, f).Ok? && ApplyTwo(s, e, f) == ApplyTwo(s, f, e)
  {
    CountSplit(u, e.before, v, f.before);
    FirstThenBehind(u, e, v, f);
    CountUnchanged(s, e, f);
    CountUnchanged(s, f, e);
  }

  /** Two independent edits of a file commute: both orders succeed on the same contents, with the same result. */
  lemma EditsCommute<T>(s: seq<T>, e: Edit<T>, f: Edit<T>)
    requires Independent(e, f)
    ensures ApplyTwo(s, e, f).Ok? <==> ApplyTwo(s, f, e).Ok?
    ensures ApplyTwo(s, e, f).Ok? <==> Count(s, e.before) == 1 && Count(s, f.before) == 1
    ensures ApplyTwo(s, e, f).Ok? ==> ApplyTwo(s, e, f) == ApplyTwo(s, f, e)
  {
    if Count(s, e.before) == 1 { CountUnchanged(s, e, f); }
    if Count(s, f.before) == 1 { CountUnchanged(s, f, e); }
    if Count(s, e.before) == 1 && Count(s, f.before) == 1 {
      var u, v := Leftmost(s, e.before);
      var p, q := Leftmost(s, f.before);
      InFrontOrBehind(s, e.before, f.before, u, v, p, q);
      if Count(u, f.before) == 0 {
        CommuteBehind(s, e, f, u, v);
      } else {
        CommuteBehind(s, f, e, p, q);
      }
    }
  }

  /** Two edits change the size by exactly the sum of the differences of their anchors. */
  lemma GrowthOfTwo<T>(s: seq<T>, e: Edit<T>, f: Edit<T>)
    requires e.before != [] && f.before != [] && ApplyTwo(s, e, f).Ok?
    ensures |ApplyTwo(s, e, f).value| - |s| == (|e.after| - |e.before|) + (|f.after| - |f.before|)
  {
    Growth(s, e);
    Growth(ReplaceExactlyOnce(s, e).value, f);
  }

  // ----- The approved template, in pieces short enough for the verifier to look inside.

  const DESCRIPTION_BEFORE :=
    "\"\"\"Thread-safe, ephemeral " + "stores with one intentional " + "deletion defect.\"\"\""
  const DESCRIPTION_AFTER :=
    "\"\"\"Thread-safe, ephemeral " + "stores for the synthetic " + "deletion control.\"\"\""
  const DEFECT_BEFORE :=
    "            # INTENTIONAL " + "DEMO DEFECT:\n"
    + "            # `self." + "_analytics_profiles." + "pop(account_id, None)` " + "is omitted so that\n"
    + "            # iPromise can " + "detect a real contradiction " + "and propose a bounded fix.\n"
  const DEFECT_AFTER :=
    "            # Complete deletion " + "across both owned " + "synthetic stores.\n"
    + "            self." + "_analytics_profiles." + "pop(account_id, None)\n"
  const NAME_BEFORE :=
    "async def test_overdue_deletion_" + "intentionally_leaves_" + "analytics_record() -> None:"
  const NAME_AFTER :=
    "async def test_overdue_deletion_" + "removes_application_and_" + "analytics_records() -> None:"
  const ASSERTION_BEFORE := "    assert after[" + "\"analytics_profile_exists\"] " + "is True\n"
  const ASSERTION_AFTER := "    assert after[" + "\"analytics_profile_exists\"] " + "is False\n"

  const STORE_DESCRIPTION := Edit(DESCRIPTION_BEFORE, DESCRIPTION_AFTER)
  const STORE_DEFECT := Edit(DEFECT_BEFORE, DEFECT_AFTER)
  const TEST_NAME := Edit(NAME_BEFORE, NAME_AFTER)
  const TEST_ASSERTION := Edit(ASSERTION_BEFORE, ASSERTION_AFTER)

  const MAX_CANDIDATE_GROWTH_BYTES := 1024

  /** The two edits of each approved file commute, on any contents. */
  lemma ApprovedEditsCommute(store: string, test: string)
    ensures ApplyTwo(store, STORE_DESCRIPTION, STORE_DEFECT).Ok?
            <==> ApplyTwo(store, STORE_DEFECT, STORE_DESCRIPTION).Ok?
    ensures ApplyTwo(store, STORE_DESCRIPTION, STORE_DEFECT).Ok? ==>
              ApplyTwo(store, STORE_DESCRIPTION, STORE_DEFECT) == ApplyTwo(store, STORE_DEFECT, STORE_DESCRIPTION)
    ensures ApplyTwo(test, TEST_NAME, TEST_ASSERTION).Ok? <==> ApplyTwo(test, TEST_ASSERTION, TEST_NAME).Ok?
    ensures ApplyTwo(test, TEST_NAME, TEST_ASSERTION).Ok? ==>
              ApplyTwo(test, TEST_NAME, TEST_ASSERTION) == ApplyTwo(test, TEST_ASSERTION, TEST_NAME)
  {
    StoreEditsIndependent();
    TestEditsIndependent();
    EditsCommute(store, STORE_DESCRIPTION, STORE_DEFECT);
    EditsCommute(test, TEST_NAME, TEST_ASSERTION);
  }

  lemma DescriptionBeforeEnds()
    ensures DESCRIPTION_BEFORE[|DESCRIPTION_BEFORE| - 1] == '\"'
    ensures '\n' !in DESCRIPTION_BEFORE
  {
  }

  lemma DescriptionAfterEnds()
    ensures DESCRIPTION_AFTER[|DESCRIPTION_AFTER| - 1] == '\"'
    ensures '\n' !in DESCRIPTION_AFTER
  {
  }

  lemma DefectBeforeEnds()
    ensures DEFECT_BEFORE[|DEFECT_BEFORE| - 1] == '\n'
    ensures '\"' !in DEFECT_BEFORE
  {
  }

  lemma DefectAfterEnds()
    ensures DEFECT_AFTER[|DEFECT_AFTER| - 1] == '\n'
    ensures '\"' !in DEFECT_AFTER
  {
  }

  lemma NameBeforeEnds()
    ensures NAME_BEFORE[|NAME_BEFORE| - 1] == ':'
    ensures '\n' !in NAME_BEFORE
  {
  }

  lemma NameAfterEnds()
    ensures NAME_AFTER[|NAME_AFTER| - 1] == ':'
    ensures '\n' !in NAME_AFTER
  {
  }

  lemma AssertionBeforeEnds()
    ensures ASSERTION_BEFORE[|ASSERTION_BEFORE| - 1] == '\n'
    ensures ':' !in ASSERTION_BEFORE
  {
  }

  lemma AssertionAfterEnds()
    ensures ASSERTION_AFTER[|ASSERTION_AFTER| - 1] == '\n'
    ensures ':' !in ASSERTION_AFTER
  {
  }

  lemma StoreEditsIndependent()
    ensures Independent(STORE_DESCRIPTION, STORE_DEFECT)
  {
    DescriptionBeforeEnds();
    DescriptionAfterEnds();
    DefectBeforeEnds();
    DefectAfterEnds();
  }

  lemma TestEditsIndependent()
    ensures Independent(TEST_NAME, TEST_ASSERTION)
  {
    NameBeforeEnds();
    NameAfterEnds();
    AssertionBeforeEnds();
    AssertionAfterEnds();
  }

  /** The growth bound of the artifact builder can never be what rejects an approved edit. */
  lemma ApprovedGrowth(store: string, test: string)
    requires ApplyTwo(store, STORE_DESCRIPTION, STORE_DEFECT).Ok? && ApplyTwo(test, TEST_NAME, TEST_ASSERTION).Ok?
    ensures |store| - MAX_CANDIDATE_GROWTH_BYTES <= |ApplyTwo(store, STORE_DESCRIPTION, STORE_DEFECT).value|
            <= |store| + MAX_CANDIDATE_GROWTH_BYTES
    ensures |ApplyTwo(test, TEST_NAME, TEST_ASSERTION).value| == |test| + 5
  {
    GrowthOfTwo(store, STORE_DESCRIPTION, STORE_DEFECT);
    GrowthOfTwo(test, TEST_NAME, TEST_ASSERTION);
  }

  /** The description anchor begins and ends with a quotation mark, so its count alone does not prove its position. */
  lemma DescriptionOverlapsItself()
    ensures !forall s :: Count(s, STORE_DESCRIPTION.before) == 1 ==> SinglePosition(s, STORE_DESCRIPTION.before)
  {
    var b := STORE_DESCRIPTION.before;
    assert b[0] == '\"' && b[|b| - 1] == '\"';
    assert b[|b| - 1..] == ['\"'] == b[..1];
    assert Overlaps(b, |b| - 1);
    CountOneMeansUniqueExactly(b);
  }
}
