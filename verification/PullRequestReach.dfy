/** When a candidate can still be published as a draft PR: from any reachable world, whatever crashed before, exactly
    when neither its branch nor its PR has been taken by something else. */
module PullRequestReach {
  import opened Wrappers
  import opened PullRequestProtocol

  lemma {:induction false} HappensAppend(name: Naming, s: World, first: seq<Action>, rest: seq<Action>)
    requires Happens(name, s, first) && Happens(name, After(name, s, first), rest)
    ensures Happens(name, s, first + rest)
    ensures After(name, s, first + rest) == After(name, After(name, s, first), rest)
    decreases first
  {
    if first == [] {
      assert first + rest == rest;
    } else {
      assert (first + rest)[1..] == first[1..] + rest;
      HappensAppend(name, Perform(name, s, first[0]), first[1..], rest);
    }
  }

  /** The history so far, one action longer. */
  lemma Then(name: Naming, s: World, done: seq<Action>, a: Action) returns (longer: seq<Action>)
    requires Happens(name, s, done) && Enabled(name, After(name, s, done), a)
    ensures Happens(name, s, longer) && After(name, s, longer) == Perform(name, After(name, s, done), a)
  {
    longer := done + [a];
    assert [a][1..] == [];
    HappensAppend(name, s, done, [a]);
  }

  /** Every candidate path is a regular file of the base, executable or not: no directory, link or submodule. */
  predicate RegularFiles(c: Candidate) {
    forall i :: 0 <= i < |c.files| ==>
      && c.files[i].0 in c.base.tree && c.base.tree[c.files[i].0].kind == "blob"
      && (c.base.tree[c.files[i].0].mode == "100644" || c.base.tree[c.files[i].0].mode == "100755")
  }

  lemma RegularIsPublishable(c: Candidate)
    ensures RegularFiles(c) <==> Publishable(c)
  {
  }

  /** The candidate fits its base, and its branch and its PR, where they exist, are its own. */
  predicate Free(name: Naming, s: World, c: Candidate) {
    && RegularFiles(c)
    && (name(c) in s.branches ==> Carries(s.branches[name(c)], c))
    && (name(c) in s.pulls ==> s.pulls[name(c)].marker == c)
  }

  /** Some continuation has a publisher that has not yet arrived return a receipt for the candidate. */
  ghost predicate CanReturn(name: Naming, s: World, c: Candidate) {
    exists rest, w :: Happens(name, s, rest) && ReturnsAs(s, After(name, s, rest), w, c)
  }

  predicate ReturnsAs(s: World, s': World, w: nat, c: Candidate) {
    && w !in s.publishers && w in s'.publishers
    && s'.publishers[w].candidate == c && s'.publishers[w].pc.Returned?
  }

  /** A fresh publisher stands at `pc`, and nothing else has changed but the base. */
  predicate Stands(s: World, s': World, w: nat, c: Candidate, pc: Pc, commit: Option<Commit>) {
    && w !in s.publishers && w in s'.publishers
    && s'.publishers[w] == Publisher(c, pc, commit, false, false, false)
    && s'.branches == s.branches && s'.pulls == s.pulls && s'.base == c.base
  }

  lemma {:induction false} Fresh(keys: set<nat>) returns (v: nat)
    ensures forall k :: k in keys ==> k < v
    decreases keys
  {
    if keys == {} {
      v := 0;
    } else {
      var k :| k in keys;
      var rest := Fresh(keys - {k});
      v := if rest <= k then k + 1 else rest;
      assert forall other :: other in keys ==> other == k || other in keys - {k};
    }
  }

  lemma MakesTree(name: Naming, s: World, w: nat, c: Candidate) returns (actions: seq<Action>)
    requires w !in s.publishers && Publishable(c) && name(c) !in s.pulls
    ensures Happens(name, s, actions) && Stands(s, After(name, s, actions), w, c, CreatingCommit, None)
  {
    hide Happens, After, Overlay;
    actions := [];
    Nothing(name, s);
    actions := Then(name, s, actions, Arrive(w, c));
    actions := Then(name, s, actions, MoveBase(c.base));
    actions := Then(name, s, actions, Find(w));
    actions := Then(name, s, actions, CheckBase(w));
    actions := Then(name, s, actions, MakeTree(w, Overlay(c.base.tree, c.files)));
  }

  lemma Nothing(name: Naming, s: World)
    ensures Happens(name, s, []) && After(name, s, []) == s
  {
  }

  /** The commit that the branch has, or a new one. */
  function Made(name: Naming, s: World, c: Candidate): (commit: Commit)
    requires Free(name, s, c)
    ensures Carries(commit, c)
  {
    RegularIsPublishable(c);
    if name(c) in s.branches then s.branches[name(c)] else Commit(Overlay(c.base.tree, c.files), [c.base], "")
  }

  lemma MakesCommit(name: Naming, s: World, w: nat, c: Candidate) returns (actions: seq<Action>)
    requires w !in s.publishers && Free(name, s, c) && name(c) !in s.pulls
    ensures Happens(name, s, actions)
    ensures Stands(
      s, After(name, s, actions), w, c,
      if name(c) in s.branches then CheckingBaseLast else CreatingBranch, Some(Made(name, s, c)))
  {
    RegularIsPublishable(c);
    hide Happens, After, Overlay, RegularFiles;
    actions := MakesTree(name, s, w, c);
    actions := Then(name, s, actions, MakeCommit(w, Made(name, s, c)));
    actions := Then(name, s, actions, CheckBase(w));
    actions := Then(name, s, actions, ReadBranch(w));
  }

  /** Its branch exists with its commit, at the verified base, and the publisher is about to check that base again. */
  predicate Branched(name: Naming, s: World, s': World, w: nat, c: Candidate) {
    && w !in s.publishers && w in s'.publishers && s'.base == c.base
    && name(c) in s'.branches && Carries(s'.branches[name(c)], c) && name(c) !in s'.pulls
    && s'.publishers[w] == Publisher(c, CheckingBaseLast, Some(s'.branches[name(c)]), false, false, false)
  }

  lemma MakesBranch(name: Naming, s: World, w: nat, c: Candidate) returns (actions: seq<Action>)
    requires w !in s.publishers && Free(name, s, c) && name(c) !in s.pulls
    ensures Happens(name, s, actions) && Branched(name, s, After(name, s, actions), w, c)
  {
    hide Happens, After, Carries;
    actions := MakesCommit(name, s, w, c);
    if name(c) !in s.branches {
      actions := Then(name, s, actions, MakeBranch(w, true, true));
    }
  }

  lemma OpensPull(name: Naming, s: World, s1: World, w: nat, c: Candidate) returns (actions: seq<Action>)
    requires Branched(name, s, s1, w, c)
    ensures Happens(name, s1, actions) && ReturnsAs(s, After(name, s1, actions), w, c)
  {
    hide Happens, After, Overlay;
    Nothing(name, s1);
    actions := Then(name, s1, [], CheckBase(w));
    actions := Then(name, s1, actions, Find(w));
    actions := Then(name, s1, actions, Open(w));
    actions := Then(name, s1, actions, Land(w, 1));
    actions := Then(name, s1, actions, Confirm(w));
  }

  lemma FindsPull(name: Naming, s: World, w: nat, c: Candidate) returns (actions: seq<Action>)
    requires Inv(name, s) && w !in s.publishers && HasPull(name, s, c)
    ensures Happens(name, s, actions) && ReturnsAs(s, After(name, s, actions), w, c)
  {
    MarkedIsVerified(name, s, c);
    hide Happens, After, Verified, Inv;
    Nothing(name, s);
    actions := Then(name, s, [], Arrive(w, c));
    assert Found(name, After(name, s, actions), c) == Found(name, s, c) by {
      VerifiedAlike(s, After(name, s, actions), name(c), c);
    }
    actions := Then(name, s, actions, Find(w));
  }

  lemma VerifiedAlike(s: World, s': World, branch: string, c: Candidate)
    requires branch in s.pulls && s'.pulls == s.pulls && s'.branches == s.branches
    ensures Verified(s', branch, c) == Verified(s, branch, c)
  {
  }

  lemma FreeReturns(name: Naming, s: World, c: Candidate)
    requires Inv(name, s) && Free(name, s, c)
    ensures CanReturn(name, s, c)
  {
    var w := Fresh(s.publishers.Keys);
    var actions;
    assert name(c) in s.pulls ==> HasPull(name, s, c);
    hide Happens, After, Inv, Free, Branched;
    if name(c) in s.pulls {
      actions := FindsPull(name, s, w, c);
    } else {
      actions := MakesBranch(name, s, w, c);
      var rest := OpensPull(name, s, After(name, s, actions), w, c);
      HappensAppend(name, s, actions, rest);
      actions := actions + rest;
    }
  }

  lemma ReturnedWasFree(name: Naming, s: World, rest: seq<Action>, w: nat, c: Candidate)
    requires Inv(name, s) && Happens(name, s, rest) && ReturnsAs(s, After(name, s, rest), w, c)
    ensures Free(name, s, c)
  {
    HistoryKeeps(name, s, rest);
    HistoryGrows(name, s, rest);
    var s' := After(name, s, rest);
    hide Happens, After, Carries, Overlay;
    assert PublisherOk(name, s', s'.publishers[w]) && PullOk(name, s', name(c));
    CarriesFits(s'.branches[name(c)], c);
    RegularIsPublishable(c);
  }

  lemma CarriesFits(commit: Commit, c: Candidate)
    requires Carries(commit, c)
    ensures Publishable(c)
  {
  }

  /** From every reachable world a publisher that has not yet arrived can return a receipt for a candidate if and only
      if the candidate replaces regular files of its base, its branch is free or carries exactly this candidate, and its
      PR is absent or its own. So crashes, lost replies and moved bases on the way never make a candidate
      unpublishable. */
  lemma PublishableExactly(name: Naming, base: Commit, first: seq<Action>, c: Candidate)
    requires Happens(name, Start(base), first)
    ensures CanReturn(name, After(name, Start(base), first), c) <==> Free(name, After(name, Start(base), first), c)
  {
    HistoryKeeps(name, Start(base), first);
    var s := After(name, Start(base), first);
    hide Happens, After, Inv, Free;
    if Free(name, s, c) {
      FreeReturns(name, s, c);
    }
    if CanReturn(name, s, c) {
      var rest, w :| Happens(name, s, rest) && ReturnsAs(s, After(name, s, rest), w, c);
      ReturnedWasFree(name, s, rest, w, c);
    }
  }
}
