/** The base checks of a draft PR publication (github.py): a PR is asked for only after the default branch was seen at
    the verified base before the tree, after the commit and after the branch. */
module PullRequestBase {
  import opened Wrappers
  import opened PullRequestProtocol

  /** The worlds a history goes through, the first and the last one included. */
  function Worlds(name: Naming, s: World, actions: seq<Action>): (ws: seq<World>)
    requires Happens(name, s, actions)
    ensures |ws| == |actions| + 1 && ws[0] == s
    decreases actions
  {
    if actions == [] then [s] else [s] + Worlds(name, Perform(name, s, actions[0]), actions[1..])
  }

  /** The default branch is at the base that the publisher's candidate was verified on. */
  predicate AtBase(s: World, w: nat) {
    w in s.publishers && s.base == s.publishers[w].candidate.base
  }

  /** Seen before anything was made for the publisher. */
  predicate SeenFirst(s: World, w: nat) {
    AtBase(s, w) && s.publishers[w].pc.CheckingBase? && s.publishers[w].commit.None?
  }

  /** Seen again once its commit was made, before it looked at the branch. */
  predicate SeenAgain(s: World, w: nat) {
    AtBase(s, w) && s.publishers[w].pc.CheckingBaseAgain? && s.publishers[w].commit.Some?
  }

  /** Seen once more after its branch existed. */
  predicate SeenLast(name: Naming, s: World, w: nat) {
    AtBase(s, w) && s.publishers[w].pc.CheckingBaseLast? && name(s.publishers[w].candidate) in s.branches
  }

  predicate AfterFirst(p: Publisher) {
    p.pc.CreatingTree? || p.pc.CreatingCommit? || p.commit.Some? || HasCommit(p.pc)
  }

  predicate AfterAgain(p: Publisher) {
    p.pc.ReadingBranch? || p.pc.CreatingBranch? || p.pc.ReconcilingBranch? || AfterBranch(p.pc)
  }

  predicate AfterLast(p: Publisher) {
    p.pc.FindingAgain? || p.pc.Opening? || p.pc.Awaiting? || p.pc.ReconcilingPull? || p.sent || p.created
  }

  ghost predicate SeenOnce(past: seq<World>, w: nat) {
    exists i :: 0 <= i < |past| && SeenFirst(past[i], w)
  }

  ghost predicate SeenTwice(past: seq<World>, w: nat) {
    exists i, j :: 0 <= i < j < |past| && SeenFirst(past[i], w) && SeenAgain(past[j], w)
  }

  /** Three worlds on the way, in this order, had the default branch at the publisher's verified base: one before its
      tree was made, one after its commit, one after its branch. */
  ghost predicate SeenThrice(name: Naming, past: seq<World>, w: nat) {
    exists i, j, k :: 0 <= i < j < k < |past|
      && SeenFirst(past[i], w) && SeenAgain(past[j], w) && SeenLast(name, past[k], w)
  }

  /** What the worlds so far must have shown for a publisher to be where it is. */
  ghost predicate Shown(name: Naming, past: seq<World>, w: nat, p: Publisher) {
    && (AfterFirst(p) ==> SeenOnce(past, w))
    && (AfterAgain(p) ==> SeenTwice(past, w))
    && (AfterLast(p) ==> SeenThrice(name, past, w))
  }

  /** The stages of a publisher are in order. */
  predicate Staged(p: Publisher) {
    && (p.pc.Finding? || p.pc.CheckingBase? || p.pc.CreatingTree? || p.pc.CreatingCommit? ==>
          p.commit.None? && !p.sent && !p.created)
    && (BeforeOpening(p.pc) ==> !p.sent && !p.created)
  }

  ghost predicate AllShown(name: Naming, past: seq<World>) {
    && past != []
    && var s := past[|past| - 1];
       && Inv(name, s)
       && forall w :: w in s.publishers ==> Staged(s.publishers[w]) && Shown(name, past, w, s.publishers[w])
  }

  lemma ShownStays(name: Naming, past: seq<World>, s: World, w: nat, p: Publisher)
    requires Shown(name, past, w, p)
    ensures Shown(name, past + [s], w, p)
  {
    SeenStays(name, past, s, w);
    hide SeenOnce, SeenTwice, SeenThrice;
  }

  lemma SeenStays(name: Naming, past: seq<World>, s: World, w: nat)
    ensures SeenOnce(past, w) ==> SeenOnce(past + [s], w)
    ensures SeenTwice(past, w) ==> SeenTwice(past + [s], w)
    ensures SeenThrice(name, past, w) ==> SeenThrice(name, past + [s], w)
  {
    hide SeenFirst, SeenAgain, SeenLast;
    if SeenOnce(past, w) {
      var i :| 0 <= i < |past| && SeenFirst(past[i], w);
      assert SeenFirst((past + [s])[i], w);
    }
    if SeenTwice(past, w) {
      TwiceStays(past, s, w);
    }
    if SeenThrice(name, past, w) {
      ThriceStays(name, past, s, w);
    }
  }

  lemma TwiceStays(past: seq<World>, s: World, w: nat)
    requires SeenTwice(past, w)
    ensures SeenTwice(past + [s], w)
  {
    hide SeenFirst, SeenAgain;
    var i, j :| 0 <= i < j < |past| && SeenFirst(past[i], w) && SeenAgain(past[j], w);
    assert SeenFirst((past + [s])[i], w) && SeenAgain((past + [s])[j], w);
  }

  lemma ThriceStays(name: Naming, past: seq<World>, s: World, w: nat)
    requires SeenThrice(name, past, w)
    ensures SeenThrice(name, past + [s], w)
  {
    hide SeenFirst, SeenAgain, SeenLast;
    var i, j, k :| 0 <= i < j < k < |past|
      && SeenFirst(past[i], w) && SeenAgain(past[j], w) && SeenLast(name, past[k], w);
    assert SeenFirst((past + [s])[i], w) && SeenAgain((past + [s])[j], w) && SeenLast(name, (past + [s])[k], w);
  }

  /** A publisher gets past a base check only in a world whose base is the verified one. */
  lemma ActorShown(name: Naming, past: seq<World>, a: Action, w: nat)
    requires AllShown(name, past) && Enabled(name, past[|past| - 1], a)
    requires w in past[|past| - 1].publishers && w in Perform(name, past[|past| - 1], a).publishers
    ensures var p' := Perform(name, past[|past| - 1], a).publishers[w]; Staged(p') && Shown(name, past, w, p')
  {
    var s := past[|past| - 1];
    var p, p' := s.publishers[w], Perform(name, s, a).publishers[w];
    hide PublisherOk, Perform, Enabled, AfterFirst, AfterAgain, AfterLast, SeenOnce, SeenTwice, SeenThrice;
    assert PublisherOk(name, s, p);
    Passes(name, s, a, w);
    SeenNow(name, past, w);
  }

  /** Where a publisher is checking for the second or third time, it was not yet at the time before. */
  lemma SeenNow(name: Naming, past: seq<World>, w: nat)
    requires past != []
    ensures SeenFirst(past[|past| - 1], w) ==> SeenOnce(past, w)
    ensures SeenAgain(past[|past| - 1], w) && SeenOnce(past, w) ==> SeenTwice(past, w)
    ensures SeenLast(name, past[|past| - 1], w) && SeenTwice(past, w) ==> SeenThrice(name, past, w)
  {
    var last := |past| - 1;
    if SeenAgain(past[last], w) && SeenOnce(past, w) {
      var i :| 0 <= i < |past| && SeenFirst(past[i], w);
      assert i < last;
    }
    if SeenLast(name, past[last], w) && SeenTwice(past, w) {
      var i, j :| 0 <= i < j < |past| && SeenFirst(past[i], w) && SeenAgain(past[j], w);
      assert j < last;
    }
  }

  /** What one action can do to where a publisher stands. */
  ghost predicate Passing(name: Naming, s: World, p: Publisher, p': Publisher, w: nat) {
    && Staged(p')
    && (AfterFirst(p') && !AfterFirst(p) ==> SeenFirst(s, w))
    && (AfterAgain(p') && !AfterAgain(p) ==> SeenAgain(s, w) && AfterFirst(p))
    && (AfterLast(p') && !AfterLast(p) ==> SeenLast(name, s, w) && AfterAgain(p))
  }

  lemma Passes(name: Naming, s: World, a: Action, w: nat)
    requires Enabled(name, s, a) && w in s.publishers && w in Perform(name, s, a).publishers
    requires PublisherOk(name, s, s.publishers[w]) && Staged(s.publishers[w])
    ensures Passing(name, s, s.publishers[w], Perform(name, s, a).publishers[w], w)
  {
    if a.Arrive? || a.MoveBase? || a.worker != w {
      OthersStand(name, s, a, w);
      hide Perform, Enabled, PublisherOk;
    } else if a.CheckBase? {
      CheckPasses(name, s, a, w);
    } else if a.MakeTree? || a.MakeCommit? || a.MakeBranch? || a.ReadBranch? {
      MakingPasses(name, s, a, w);
    } else {
      OtherPasses(name, s, a, w);
    }
  }

  lemma OthersStand(name: Naming, s: World, a: Action, w: nat)
    requires Enabled(name, s, a) && w in s.publishers && (a.Arrive? || a.MoveBase? || a.worker != w)
    ensures w in Perform(name, s, a).publishers && Perform(name, s, a).publishers[w] == s.publishers[w]
  {
    hide Verified, Found, Overlay, Publishable, ForCommit, BranchRead;
  }

  lemma CheckPasses(name: Naming, s: World, a: Action, w: nat)
    requires Enabled(name, s, a) && w in s.publishers && w in Perform(name, s, a).publishers && a.CheckBase?
    requires PublisherOk(name, s, s.publishers[w]) && Staged(s.publishers[w])
    ensures Passing(name, s, s.publishers[w], Perform(name, s, a).publishers[w], w)
  {
    hide Carries, HasPull;
  }

  lemma MakingPasses(name: Naming, s: World, a: Action, w: nat)
    requires Enabled(name, s, a) && w in s.publishers && w in Perform(name, s, a).publishers
    requires a.MakeTree? || a.MakeCommit? || a.MakeBranch? || a.ReadBranch?
    requires PublisherOk(name, s, s.publishers[w]) && Staged(s.publishers[w])
    ensures Passing(name, s, s.publishers[w], Perform(name, s, a).publishers[w], w)
  {
    hide Overlay, Publishable, Carries, HasPull;
  }

  lemma OtherPasses(name: Naming, s: World, a: Action, w: nat)
    requires Enabled(name, s, a) && w in s.publishers && w in Perform(name, s, a).publishers
    requires !a.CheckBase? && !a.MakeTree? && !a.MakeCommit? && !a.MakeBranch? && !a.ReadBranch?
    requires !a.Arrive? && !a.MoveBase? && a.worker == w
    requires PublisherOk(name, s, s.publishers[w]) && Staged(s.publishers[w])
    ensures Passing(name, s, s.publishers[w], Perform(name, s, a).publishers[w], w)
  {
    hide PublisherOk, Passing, Staged;
    if a.Find? || a.Confirm? || a.Reconcile? {
      LookingPasses(name, s, a, w);
    } else {
      MovingPasses(name, s, a, w);
    }
  }

  lemma MovingPasses(name: Naming, s: World, a: Action, w: nat)
    requires Enabled(name, s, a) && w in s.publishers && w in Perform(name, s, a).publishers
    requires (a.Fail? || a.Open? || a.Land? || a.LoseReply? || a.RefuseOpen? || a.Crash?) && a.worker == w
    requires PublisherOk(name, s, s.publishers[w]) && Staged(s.publishers[w])
    ensures Passing(name, s, s.publishers[w], Perform(name, s, a).publishers[w], w)
  {
    hide Verified, Found, ForCommit, BranchRead, Overlay, Publishable, Carries, HasPull;
  }

  lemma LookingPasses(name: Naming, s: World, a: Action, w: nat)
    requires Enabled(name, s, a) && w in s.publishers && w in Perform(name, s, a).publishers
    requires (a.Find? || a.Confirm? || a.Reconcile?) && a.worker == w
    requires PublisherOk(name, s, s.publishers[w]) && Staged(s.publishers[w])
    ensures Passing(name, s, s.publishers[w], Perform(name, s, a).publishers[w], w)
  {
    hide Verified, Found, Carries, HasPull;
    FoundEnds(name, s, s.publishers[w].candidate);
  }

  lemma FoundEnds(name: Naming, s: World, c: Candidate)
    ensures var found := Found(name, s, c); found.Some? ==> found.value.Raised? || found.value.Returned?
    ensures name(c) in s.pulls ==> Verified(s, name(c), c).Raised? || Verified(s, name(c), c).Returned?
  {
    hide Overlay, Publishable;
  }

  lemma NewPublisher(name: Naming, past: seq<World>, a: Action)
    requires past != [] && Enabled(name, past[|past| - 1], a)
    ensures var s, s' := past[|past| - 1], Perform(name, past[|past| - 1], a);
            forall w :: w in s'.publishers && w !in s.publishers ==>
              Staged(s'.publishers[w]) && Shown(name, past, w, s'.publishers[w])
  {
    hide Verified, Found, ForCommit, BranchRead, Overlay, Publishable, SeenOnce, SeenTwice, SeenThrice;
  }

  lemma ActionShows(name: Naming, past: seq<World>, a: Action)
    requires AllShown(name, past) && Enabled(name, past[|past| - 1], a)
    ensures AllShown(name, past + [Perform(name, past[|past| - 1], a)])
  {
    var s := past[|past| - 1];
    var s' := Perform(name, s, a);
    hide Perform, Enabled, Inv, Shown, Staged;
    NewPublisher(name, past, a);
    ActionKeeps(name, s, a);
    forall w | w in s'.publishers
      ensures Staged(s'.publishers[w]) && Shown(name, past + [s'], w, s'.publishers[w])
    {
      if w in s.publishers {
        ActorShown(name, past, a, w);
      }
      ShownStays(name, past, s', w, s'.publishers[w]);
    }
    assert (past + [s'])[|past|] == s';
  }

  lemma {:induction false} HistoryShows(name: Naming, past: seq<World>, s: World, actions: seq<Action>)
    requires AllShown(name, past + [s]) && Happens(name, s, actions)
    ensures AllShown(name, past + Worlds(name, s, actions))
    ensures Worlds(name, s, actions)[|actions|] == After(name, s, actions)
    decreases actions
  {
    hide AllShown, Perform, Enabled;
    if actions != [] {
      var s' := Perform(name, s, actions[0]);
      assert (past + [s])[|past + [s]| - 1] == s;
      ActionShows(name, past + [s], actions[0]);
      HistoryShows(name, past + [s], s', actions[1..]);
      assert past + Worlds(name, s, actions) == past + [s] + Worlds(name, s', actions[1..]);
    }
  }

  lemma FromStart(name: Naming, base: Commit, actions: seq<Action>)
    requires Happens(name, Start(base), actions)
    ensures AllShown(name, Worlds(name, Start(base), actions))
    ensures Worlds(name, Start(base), actions)[|actions|] == After(name, Start(base), actions)
  {
    hide Happens, After, AllShown, Worlds;
    var s0 := Start(base);
    StartShown(name, base);
    assert [] + [s0] == [s0] && [] + Worlds(name, s0, actions) == Worlds(name, s0, actions);
    HistoryShows(name, [], s0, actions);
  }

  lemma StartShown(name: Naming, base: Commit)
    ensures AllShown(name, [Start(base)])
  {
    hide Shown, Staged;
  }

  /** A publisher that has asked for its PR, or is about to, was preceded by three worlds whose default branch was at
      the verified base: before the tree, after the commit and after the branch, in every history. */
  lemma BaseSeenThrice(name: Naming, base: Commit, actions: seq<Action>, w: nat)
    requires Happens(name, Start(base), actions)
    requires var s := After(name, Start(base), actions); w in s.publishers && AfterLast(s.publishers[w])
    ensures SeenThrice(name, Worlds(name, Start(base), actions), w)
  {
    var s0 := Start(base);
    FromStart(name, base, actions);
  }

  lemma {:induction false} Prefix(name: Naming, s: World, actions: seq<Action>, i: nat)
    requires Happens(name, s, actions) && i < |actions|
    ensures Happens(name, s, actions[..i]) && Enabled(name, After(name, s, actions[..i]), actions[i])
    ensures Worlds(name, s, actions[..i]) == Worlds(name, s, actions)[..i + 1]
    ensures After(name, s, actions[..i]) == Worlds(name, s, actions)[i]
    decreases i
  {
    if i > 0 {
      Prefix(name, Perform(name, s, actions[0]), actions[1..], i - 1);
      assert actions[..i][1..] == actions[1..][..i - 1];
    }
  }

  /** A publisher whose candidate was never verified on the base that the default branch has makes nothing visible: it
      creates no branch and asks for no PR, whatever else happens. */
  lemma NothingOverAnotherBase(name: Naming, base: Commit, actions: seq<Action>, w: nat)
    requires Happens(name, Start(base), actions)
    requires forall i :: 0 <= i <= |actions| ==> !AtBase(Worlds(name, Start(base), actions)[i], w)
    ensures forall i :: 0 <= i < |actions| ==> !Publishing(actions[i], w)
  {
    forall i | 0 <= i < |actions| ensures !Publishing(actions[i], w) {
      if Publishing(actions[i], w) {
        Prefix(name, Start(base), actions, i);
        PublishingSeen(name, base, actions[..i], actions[i], w);
      }
    }
  }

  predicate Publishing(a: Action, w: nat) {
    (a.MakeBranch? || a.Open? || a.Land?) && a.worker == w
  }

  lemma PublishingSeen(name: Naming, base: Commit, actions: seq<Action>, a: Action, w: nat)
    requires Happens(name, Start(base), actions) && Enabled(name, After(name, Start(base), actions), a)
    requires Publishing(a, w)
    ensures exists i :: 0 <= i <= |actions| && AtBase(Worlds(name, Start(base), actions)[i], w)
  {
    hide Happens, After, AllShown, Inv, Enabled, Perform, SeenFirst, Worlds;
    var s0 := Start(base);
    FromStart(name, base, actions);
    PublishingStands(name, Worlds(name, s0, actions), a, w);
    var i :| 0 <= i < |Worlds(name, s0, actions)| && SeenFirst(Worlds(name, s0, actions)[i], w);
    FirstAtBase(Worlds(name, s0, actions)[i], w);
  }

  lemma FirstAtBase(s: World, w: nat)
    requires SeenFirst(s, w)
    ensures AtBase(s, w)
  {
  }

  lemma PublishingStands(name: Naming, past: seq<World>, a: Action, w: nat)
    requires AllShown(name, past) && Enabled(name, past[|past| - 1], a) && Publishing(a, w)
    ensures exists i :: 0 <= i < |past| && SeenFirst(past[i], w)
  {
    var s := past[|past| - 1];
    assert PublisherOk(name, s, s.publishers[w]) && AfterFirst(s.publishers[w]);
    hide SeenFirst, Inv;
  }
}
