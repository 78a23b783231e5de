/** Draft PR publication against a remote that anybody may change at any time: what a receipt proves, which answers are
    rejected, and how often an ambiguous write is looked up before the outcome is called uncertain. */
module PullRequestRemote {
  import opened Wrappers
  import opened Base64
  import opened PullRequestProtocol

  // ----- The exact tree, without computing it.

  /** The candidate's last word on a path. */
  predicate LastOn(files: seq<(string, Bytes)>, i: nat)
    requires i < |files|
  {
    forall j :: i < j < |files| ==> files[j].0 != files[i].0
  }

  predicate Mentions(files: seq<(string, Bytes)>, path: string) {
    exists i :: 0 <= i < |files| && files[i].0 == path
  }

  /** The base with exactly the candidate's paths replaced by exactly its bytes, and every mode kept. */
  predicate ExactTree(tree: Tree, base: Tree, files: seq<(string, Bytes)>) {
    && tree.Keys == base.Keys
    && (forall path :: path in base && !Mentions(files, path) ==> path in tree && tree[path] == base[path])
    && forall i :: 0 <= i < |files| && LastOn(files, i) ==>
         files[i].0 in base && files[i].0 in tree
         && tree[files[i].0] == Entry(base[files[i].0].mode, "blob", BlobSha(files[i].1))
  }

  lemma {:induction false} OverlayElsewhere(base: Tree, files: seq<(string, Bytes)>, path: string)
    requires forall i :: 0 <= i < |files| ==> files[i].0 in base
    requires path in base && !Mentions(files, path)
    ensures Overlay(base, files)[path] == base[path]
  {
    if files != [] {
      var front := files[..|files| - 1];
      assert files[|files| - 1].0 != path;
      assert forall i :: 0 <= i < |front| ==> front[i] == files[i];
      OverlayElsewhere(base, front, path);
    }
  }

  lemma {:induction false} OverlayLast(base: Tree, files: seq<(string, Bytes)>, i: nat)
    requires forall k :: 0 <= k < |files| ==> files[k].0 in base
    requires i < |files| && LastOn(files, i)
    ensures Overlay(base, files)[files[i].0] == Entry(base[files[i].0].mode, "blob", BlobSha(files[i].1))
  {
    var n := |files| - 1;
    var front := files[..n];
    if i < n {
      assert files[n].0 != files[i].0;
      assert front[i] == files[i] && LastOn(front, i);
      OverlayLast(base, front, i);
    }
  }

  lemma OverlayIsIt(base: Tree, files: seq<(string, Bytes)>)
    requires forall i :: 0 <= i < |files| ==> files[i].0 in base
    ensures ExactTree(Overlay(base, files), base, files)
  {
    forall path | path in base && !Mentions(files, path) ensures Overlay(base, files)[path] == base[path] {
      OverlayElsewhere(base, files, path);
    }
    forall i | 0 <= i < |files| && LastOn(files, i)
      ensures Overlay(base, files)[files[i].0] == Entry(base[files[i].0].mode, "blob", BlobSha(files[i].1))
    {
      OverlayLast(base, files, i);
    }
    hide Overlay, Mentions, LastOn;
  }

  lemma {:induction false} HasLast(files: seq<(string, Bytes)>, i: nat) returns (last: nat)
    requires i < |files|
    ensures i <= last < |files| && files[last].0 == files[i].0 && LastOn(files, last)
    decreases |files| - i
  {
    if LastOn(files, i) {
      last := i;
    } else {
      var j :| i < j < |files| && files[j].0 == files[i].0;
      last := HasLast(files, j);
    }
  }

  lemma OverlayExactly(tree: Tree, base: Tree, files: seq<(string, Bytes)>)
    requires forall i :: 0 <= i < |files| ==> files[i].0 in base
    ensures tree == Overlay(base, files) <==> ExactTree(tree, base, files)
  {
    OverlayIsIt(base, files);
    if ExactTree(tree, base, files) {
      forall path | path in tree ensures tree[path] == Overlay(base, files)[path] {
        if Mentions(files, path) {
          var i :| 0 <= i < |files| && files[i].0 == path;
          var last := HasLast(files, i);
        }
      }
    }
  }

  // ----- A found PR.

  predicate PlainFiles(c: Candidate) {
    forall i :: 0 <= i < |c.files| ==> c.files[i].0 in c.base.tree && c.base.tree[c.files[i].0].kind == "blob"
  }

  /** The commit has the verified base as its only parent, and exactly the candidate's tree. */
  predicate ExactCommit(commit: Commit, c: Candidate) {
    commit.parents == [c.base] && ExactTree(commit.tree, c.base.tree, c.files)
  }

  /** In any world at all, a lookup finds nothing exactly when the branch has no PR, and accepts exactly a PR with the
      candidate's own marker whose branch holds an exact commit; the receipt names that PR and that commit. Everything
      else is rejected. */
  lemma FoundExactly(name: Naming, s: World, c: Candidate)
    ensures var found := Found(name, s, c);
            && (found.None? <==> name(c) !in s.pulls)
            && (found.Some? ==> found.value.Returned? || found.value == Raised(Rejected))
            && (found.Some? && found.value.Returned?
                <==> && name(c) in s.pulls && s.pulls[name(c)].marker == c && PlainFiles(c)
                     && name(c) in s.branches && ExactCommit(s.branches[name(c)], c))
            && (found.Some? && found.value.Returned? ==>
                  found.value.receipt
                  == Receipt(s.pulls[name(c)].number, s.branches[name(c)], s.branches[name(c)].tree))
  {
    if name(c) in s.branches && PlainFiles(c) {
      OverlayExactly(s.branches[name(c)].tree, c.base.tree, c.files);
    }
    hide ExactTree, Overlay;
  }

  // ----- Histories in which others change the remote.

  /** A publisher's own action, or anybody's change of the default branch, the branches and the PRs. */
  datatype Event =
    | Own(action: Action)
    | Others(base: Commit, branches: map<string, Commit>, pulls: map<string, Pull>)

  predicate May(name: Naming, s: World, e: Event) {
    e.Own? ==> Enabled(name, s, e.action)
  }

  function Next(name: Naming, s: World, e: Event): World
    requires May(name, s, e)
  {
    match e
    case Own(a) => Perform(name, s, a)
    case Others(base, branches, pulls) => World(base, branches, pulls, s.publishers)
  }

  predicate Occurs(name: Naming, s: World, events: seq<Event>)
    decreases events
  {
    events == [] || (May(name, s, events[0]) && Occurs(name, Next(name, s, events[0]), events[1..]))
  }

  function Then(name: Naming, s: World, events: seq<Event>): World
    requires Occurs(name, s, events)
    decreases events
  {
    if events == [] then s else Then(name, Next(name, s, events[0]), events[1..])
  }

  /** A receipt for exactly this candidate. */
  predicate ExactReceipt(r: Receipt, c: Candidate) {
    PlainFiles(c) && ExactCommit(r.head, c) && r.tree == r.head.tree
  }

  predicate Exact(p: Publisher) {
    && (p.pc.Returned? ==> ExactReceipt(p.pc.receipt, p.candidate))
    && (p.commit.Some? ==> ExactCommit(p.commit.value, p.candidate))
  }

  /** An inexact tree or commit ends the publication. */
  ghost predicate Judged(past: seq<Event>, w: nat, p: Publisher) {
    && (forall tree :: Own(MakeTree(w, tree)) in past && !ExactTree(tree, p.candidate.base.tree, p.candidate.files) ==>
          p.pc == Raised(Rejected))
    && (forall commit :: Own(MakeCommit(w, commit)) in past && !ExactCommit(commit, p.candidate) ==>
          p.pc == Raised(Rejected))
  }

  lemma CarriesExactly(commit: Commit, c: Candidate)
    ensures Carries(commit, c) <==> Publishable(c) && ExactCommit(commit, c)
  {
    if Publishable(c) {
      OverlayExactly(commit.tree, c.base.tree, c.files);
    }
    hide ExactTree, Overlay;
  }

  lemma AnswerJudged(name: Naming, s: World, a: Action)
    requires Enabled(name, s, a) && (a.MakeTree? || a.MakeCommit?) && Exact(s.publishers[a.worker])
    ensures var s' := Perform(name, s, a);
            var p := s.publishers[a.worker];
            && a.worker in s'.publishers && Exact(s'.publishers[a.worker])
            && s'.publishers[a.worker].candidate == p.candidate
            && (a.MakeTree? && !ExactTree(a.tree, p.candidate.base.tree, p.candidate.files) ==>
                  s'.publishers[a.worker].pc == Raised(Rejected))
            && (a.MakeCommit? && !ExactCommit(a.commit, p.candidate) ==>
                  s'.publishers[a.worker].pc == Raised(Rejected))
  {
    var c := s.publishers[a.worker].candidate;
    if Publishable(c) {
      if a.MakeTree? {
        OverlayExactly(a.tree, c.base.tree, c.files);
      } else {
        CarriesExactly(a.commit, c);
      }
    }
    hide ExactTree, Overlay, Publishable;
  }

  lemma VerifiedExactly(s: World, branch: string, c: Candidate)
    requires branch in s.pulls
    ensures var pc := Verified(s, branch, c);
            && (pc.Returned? || pc == Raised(Rejected))
            && (pc.Returned? ==> ExactReceipt(pc.receipt, c))
  {
    var name: Naming := (_: Candidate) => branch;
    var marked := s.(pulls := s.pulls[branch := Pull(s.pulls[branch].number, c)]);
    FoundExactly(name, marked, c);
    assert Verified(marked, branch, c) == Verified(s, branch, c);
    hide Verified, ExactTree;
  }

  lemma LookupExact(name: Naming, s: World, a: Action)
    requires Enabled(name, s, a) && (a.Find? || a.Confirm? || a.Reconcile?) && Exact(s.publishers[a.worker])
    ensures var s' := Perform(name, s, a);
            && a.worker in s'.publishers && Exact(s'.publishers[a.worker])
            && s'.publishers[a.worker].candidate == s.publishers[a.worker].candidate
            && s.publishers[a.worker].pc != Raised(Rejected)
  {
    var c := s.publishers[a.worker].candidate;
    if name(c) in s.pulls {
      VerifiedExactly(s, name(c), c);
    }
    hide ExactCommit, Verified, PlainFiles, Overlay, Publishable;
  }

  /** Nothing but a lookup gives a receipt, and nothing undoes a rejection. */
  lemma MoveExact(name: Naming, s: World, a: Action)
    requires Enabled(name, s, a) && !a.MoveBase? && !a.Arrive? && !a.MakeTree? && !a.MakeCommit?
    requires !a.Find? && !a.Confirm? && !a.Reconcile? && Exact(s.publishers[a.worker])
    ensures var s' := Perform(name, s, a);
            && a.worker in s'.publishers && Exact(s'.publishers[a.worker])
            && s'.publishers[a.worker].candidate == s.publishers[a.worker].candidate
            && (s.publishers[a.worker].pc == Raised(Rejected) ==> s'.publishers[a.worker].pc == Raised(Rejected))
  {
    hide ExactCommit, Verified, Found, PlainFiles, Overlay, Publishable;
  }

  /** A publisher's action leaves the other publishers alone. */
  lemma OthersStay(name: Naming, s: World, e: Event, w: nat)
    requires May(name, s, e) && (e.Others? || e.action.MoveBase? || e.action.worker != w)
    ensures w in Next(name, s, e).publishers <==> w in s.publishers
    ensures w in s.publishers ==> Next(name, s, e).publishers[w] == s.publishers[w]
  {
    if e.Own? {
      OthersStand(name, s, e.action, w);
    }
  }

  lemma OthersStand(name: Naming, s: World, a: Action, w: nat)
    requires Enabled(name, s, a) && (a.MoveBase? || a.worker != w)
    ensures w in Perform(name, s, a).publishers <==> w in s.publishers
    ensures w in s.publishers ==> Perform(name, s, a).publishers[w] == s.publishers[w]
  {
    hide Verified, Found, Overlay, Publishable, ForCommit, BranchRead;
  }

  ghost predicate AllJudged(s: World, past: seq<Event>) {
    forall w {:trigger w in s.publishers} ::
      if w in s.publishers then Exact(s.publishers[w]) && Judged(past, w, s.publishers[w])
      else forall e :: e in past ==> !Made(e, w)
  }

  /** The remote's answer to the publisher's tree or commit. */
  predicate Made(e: Event, w: nat) {
    e.Own? && (e.action.MakeTree? || e.action.MakeCommit?) && e.action.worker == w
  }

  lemma EventAdded(past: seq<Event>, e: Event)
    ensures forall b :: b in past + [e] <==> b in past || b == e
  {
  }

  lemma EventJudged(name: Naming, s: World, past: seq<Event>, e: Event, w: nat)
    requires AllJudged(s, past) && May(name, s, e) && w in Next(name, s, e).publishers
    ensures Exact(Next(name, s, e).publishers[w]) && Judged(past + [e], w, Next(name, s, e).publishers[w])
  {
    EventAdded(past, e);
    assert w in s.publishers || w !in s.publishers;
    if e.Others? || e.action.MoveBase? || e.action.worker != w {
      OthersStay(name, s, e, w);
      hide Next, Exact, ExactTree, ExactCommit;
    } else if e.action.MakeTree? || e.action.MakeCommit? {
      AnswerJudged(name, s, e.action);
      OnlyOneAnswer(name, s, past, e, w);
    } else if e.action.Find? || e.action.Confirm? || e.action.Reconcile? {
      LookupExact(name, s, e.action);
      hide Perform, Enabled, Exact, ExactTree, ExactCommit;
    } else if !e.action.Arrive? {
      MoveExact(name, s, e.action);
      hide Perform, Enabled, Exact, ExactTree, ExactCommit;
    }
  }

  lemma OnlyOneAnswer(name: Naming, s: World, past: seq<Event>, e: Event, w: nat)
    requires May(name, s, e) && Made(e, w) && w in s.publishers && Judged(past, w, s.publishers[w])
    requires w in Next(name, s, e).publishers
    requires Next(name, s, e).publishers[w].candidate == s.publishers[w].candidate
    requires e.action.MakeTree? && !ExactTree(e.action.tree, s.publishers[w].candidate.base.tree,
                                              s.publishers[w].candidate.files) ==>
               Next(name, s, e).publishers[w].pc == Raised(Rejected)
    requires e.action.MakeCommit? && !ExactCommit(e.action.commit, s.publishers[w].candidate) ==>
               Next(name, s, e).publishers[w].pc == Raised(Rejected)
    ensures Judged(past + [e], w, Next(name, s, e).publishers[w])
  {
    EventAdded(past, e);
    assert s.publishers[w].pc != Raised(Rejected);
    hide ExactTree, ExactCommit, Perform, Next;
  }

  lemma AllStayJudged(name: Naming, s: World, past: seq<Event>, e: Event)
    requires AllJudged(s, past) && May(name, s, e)
    ensures AllJudged(Next(name, s, e), past + [e])
  {
    var s' := Next(name, s, e);
    EventAdded(past, e);
    forall w ensures if w in s'.publishers then Exact(s'.publishers[w]) && Judged(past + [e], w, s'.publishers[w])
                     else forall b :: b in past + [e] ==> !Made(b, w)
    {
      if w in s'.publishers {
        EventJudged(name, s, past, e, w);
      } else {
        Unheard(name, s, e, w);
      }
    }
  }

  lemma Unheard(name: Naming, s: World, e: Event, w: nat)
    requires May(name, s, e) && w !in Next(name, s, e).publishers
    ensures w !in s.publishers && !Made(e, w)
  {
    if e.Own? && !e.action.MoveBase? {
      ActorStands(name, s, e.action);
    }
    OthersLeave(name, s, e);
  }

  lemma ActorStands(name: Naming, s: World, a: Action)
    requires Enabled(name, s, a) && !a.MoveBase?
    ensures a.worker in Perform(name, s, a).publishers
  {
    hide Verified, Found, Overlay, Publishable, ForCommit, BranchRead;
  }

  lemma OthersLeave(name: Naming, s: World, e: Event)
    requires May(name, s, e)
    ensures s.publishers.Keys <= Next(name, s, e).publishers.Keys
  {
    if e.Own? {
      PerformGrows(name, s, e.action);
    }
    hide Perform, Enabled;
  }

  lemma {:induction false} HistoryJudged(name: Naming, s: World, past: seq<Event>, rest: seq<Event>)
    requires AllJudged(s, past) && Occurs(name, s, rest)
    ensures AllJudged(Then(name, s, rest), past + rest)
    decreases rest
  {
    if rest == [] {
      assert past + rest == past;
    } else {
      AllStayJudged(name, s, past, rest[0]);
      HistoryJudged(name, Next(name, s, rest[0]), past + [rest[0]], rest[1..]);
      assert past + [rest[0]] + rest[1..] == past + rest;
    }
  }

  /** Whatever anybody else does to the remote in between: a returned receipt is for a commit whose only parent is the
      verified base and whose tree is the base with exactly the candidate's bytes, and a publisher that was answered
      with any other tree or commit has rejected it. */
  lemma ReceiptsAreExact(name: Naming, base: Commit, events: seq<Event>, w: nat)
    requires Occurs(name, Start(base), events) && w in Then(name, Start(base), events).publishers
    ensures var p := Then(name, Start(base), events).publishers[w];
            && (p.pc.Returned? ==> ExactReceipt(p.pc.receipt, p.candidate))
            && Judged(events, w, p)
  {
    HistoryJudged(name, Start(base), [], events);
    assert [] + events == events;
  }

  // ----- How often an ambiguous write is looked up.

  /** A publisher's own actions, as far as they matter here: its POST was answered or its answer lost, how often it
      then searched for the PR, whether its branch went unconfirmed, how often it read the branch, whether another
      call of its own was ambiguous. */
  datatype Account = Account(asked: bool, searches: nat, unconfirmed: bool, branchReads: nat, ambiguous: bool)

  const NOTHING := Account(false, 0, false, 0, false)

  function Booked(own: Account, a: Action): Account {
    match a
    case LoseReply(_) => own.(asked := true)
    case Confirm(_) => own.(asked := true)
    case Reconcile(_, _) => own.(searches := own.searches + 1)
    case MakeBranch(_, _, confirmed) => own.(unconfirmed := !confirmed)
    case ReadBranch(_) => own.(branchReads := own.branchReads + 1)
    case Fail(_, e) => own.(ambiguous := own.ambiguous || e == Uncertain)
    case _ => own
  }

  predicate Acts(e: Event, w: nat) {
    e.Own? && !e.action.MoveBase? && e.action.worker == w
  }

  function AccountOf(past: seq<Event>, w: nat): Account {
    if past == [] then NOTHING
    else
      var own, last := AccountOf(past[..|past| - 1], w), past[|past| - 1];
      if Acts(last, w) then Booked(own, last.action) else own
  }

  predicate BeforeBranch(pc: Pc) {
    pc.Finding? || pc.CheckingBase? || pc.CreatingTree? || pc.CreatingCommit? || pc.CheckingBaseAgain?
    || pc.ReadingBranch?
  }

  predicate Tallied(pc: Pc, own: Account) {
    && own.searches <= RECONCILIATIONS && own.branchReads <= 1 + RECONCILIATIONS
    && (!own.asked ==> own.searches == 0)
    && (BeforeOpening(pc) || pc.Awaiting? ==> !own.asked)
    && (pc.ReconcilingPull? ==> own.asked && pc.pullReads == own.searches < RECONCILIATIONS)
    && (BeforeBranch(pc) ==> own.branchReads == 0 && !own.unconfirmed)
    && (pc.CreatingBranch? ==> own.branchReads == 1 && !own.unconfirmed)
    && (pc.ReconcilingBranch? ==> own.unconfirmed && own.branchReads == 1 + pc.branchReads <= RECONCILIATIONS)
    && (pc == Raised(Uncertain) ==>
          || own.ambiguous
          || (own.asked && own.searches == RECONCILIATIONS)
          || (own.unconfirmed && own.branchReads == 1 + RECONCILIATIONS))
  }

  /** How an action moves its publisher, as far as it counts. */
  predicate Moves(pc: Pc, a: Action, pc': Pc) {
    match a
    case Fail(_, e) => BeforeOpening(pc) && pc' == Raised(e)
    case LoseReply(_) => pc.Awaiting? && pc' == ReconcilingPull(0)
    case Confirm(_) => pc.Awaiting? && (pc' == ReconcilingPull(0) || pc'.Returned? || pc' == Raised(Rejected))
    case Reconcile(_, _) =>
      && pc.ReconcilingPull?
      && (pc'.Returned? || pc' == Raised(Rejected)
          || pc' == if pc.pullReads + 1 < RECONCILIATIONS then ReconcilingPull(pc.pullReads + 1) else Raised(Uncertain))
    case MakeBranch(_, _, confirmed) =>
      pc.CreatingBranch? && pc' == if confirmed then CheckingBaseLast else ReconcilingBranch(0)
    case ReadBranch(_) =>
      || ((pc.ReadingBranch? || pc.ReconcilingBranch?) && (pc' == Raised(Rejected) || pc' == CheckingBaseLast))
      || (pc.ReadingBranch? && pc' == CreatingBranch)
      || (pc.ReconcilingBranch?
          && pc' == if pc.branchReads + 1 < RECONCILIATIONS then ReconcilingBranch(pc.branchReads + 1)
                    else Raised(Uncertain))
    case Open(_) => pc.Opening? && pc'.Awaiting?
    case RefuseOpen(_) => pc.Awaiting? && pc' == Raised(Refused)
    case Land(_, _) => pc' == pc
    case Crash(_) => InCall(pc) && pc'.Crashed?
    case Arrive(_, _) => false
    case MoveBase(_) => false
    case _ =>
      && BeforeOpening(pc) && !pc.CreatingBranch? && !pc.ReconcilingBranch?
      && (pc'.Returned? || pc' == Raised(Rejected)
          || (BeforeBranch(pc) && BeforeBranch(pc'))
          || (!BeforeBranch(pc) && (pc'.FindingAgain? || pc'.Opening?)))
  }

  lemma LookupMoves(name: Naming, s: World, a: Action)
    requires Enabled(name, s, a) && (a.Find? || a.Confirm? || a.Reconcile?)
    ensures a.worker in s.publishers && a.worker in Perform(name, s, a).publishers
    ensures Moves(s.publishers[a.worker].pc, a, Perform(name, s, a).publishers[a.worker].pc)
  {
    var c := s.publishers[a.worker].candidate;
    FoundExactly(name, s, c);
    if name(c) in s.pulls {
      VerifiedExactly(s, name(c), c);
    }
    hide Verified, Found, ExactReceipt, ExactCommit, PlainFiles, Overlay, Publishable, BranchRead;
  }

  lemma OtherMoves(name: Naming, s: World, a: Action)
    requires Enabled(name, s, a) && !a.MoveBase? && !a.Arrive? && !a.Find? && !a.Confirm? && !a.Reconcile?
    ensures a.worker in s.publishers && a.worker in Perform(name, s, a).publishers
    ensures Moves(s.publishers[a.worker].pc, a, Perform(name, s, a).publishers[a.worker].pc)
  {
    hide Verified, Found, Overlay, Publishable;
  }

  lemma MoveTallied(pc: Pc, a: Action, pc': Pc, own: Account)
    requires Moves(pc, a, pc') && Tallied(pc, own)
    ensures Tallied(pc', Booked(own, a))
  {
  }

  ghost predicate AllTallied(s: World, past: seq<Event>) {
    forall w {:trigger AccountOf(past, w)} ::
      if w in s.publishers then Tallied(s.publishers[w].pc, AccountOf(past, w)) else AccountOf(past, w) == NOTHING
  }

  lemma EventBooked(past: seq<Event>, e: Event, w: nat)
    ensures AccountOf(past + [e], w)
            == if Acts(e, w) then Booked(AccountOf(past, w), e.action) else AccountOf(past, w)
  {
    assert (past + [e])[..|past|] == past;
  }

  lemma ActorTallied(name: Naming, s: World, past: seq<Event>, a: Action)
    requires AllTallied(s, past) && Enabled(name, s, a) && !a.MoveBase?
    ensures a.worker in Perform(name, s, a).publishers
    ensures Tallied(Perform(name, s, a).publishers[a.worker].pc, AccountOf(past + [Own(a)], a.worker))
  {
    EventBooked(past, Own(a), a.worker);
    assert AccountOf(past, a.worker) == AccountOf(past, a.worker);
    hide AccountOf, Found, Verified, BranchRead, Overlay, Publishable, ForCommit;
    if !a.Arrive? {
      if a.Find? || a.Confirm? || a.Reconcile? {
        LookupMoves(name, s, a);
      } else {
        OtherMoves(name, s, a);
      }
      MoveTallied(s.publishers[a.worker].pc, a, Perform(name, s, a).publishers[a.worker].pc, AccountOf(past, a.worker));
    }
  }

  lemma AllStayTallied(name: Naming, s: World, past: seq<Event>, e: Event)
    requires AllTallied(s, past) && May(name, s, e)
    ensures AllTallied(Next(name, s, e), past + [e])
  {
    var s' := Next(name, s, e);
    if e.Own? && !e.action.MoveBase? {
      ActorTallied(name, s, past, e.action);
    }
    forall w ensures if w in s'.publishers then Tallied(s'.publishers[w].pc, AccountOf(past + [e], w))
                     else AccountOf(past + [e], w) == NOTHING
    {
      if !Acts(e, w) {
        EventBooked(past, e, w);
        assert AccountOf(past, w) == AccountOf(past, w);
        OthersStay(name, s, e, w);
        hide Next, May, Tallied;
      }
    }
  }

  lemma {:induction false} HistoryTallied(name: Naming, s: World, past: seq<Event>, rest: seq<Event>)
    requires AllTallied(s, past) && Occurs(name, s, rest)
    ensures AllTallied(Then(name, s, rest), past + rest)
    decreases rest
  {
    if rest == [] {
      assert past + rest == past;
    } else {
      AllStayTallied(name, s, past, rest[0]);
      HistoryTallied(name, Next(name, s, rest[0]), past + [rest[0]], rest[1..]);
      assert past + [rest[0]] + rest[1..] == past + rest;
    }
  }

  /** An outcome is called uncertain only after a call before the POST was itself ambiguous, or after three searches for
      the PR of a POST that was not confirmed, or after three more reads of a branch whose creation was not; and no
      publisher ever looks more often. */
  lemma UncertainAfterThree(name: Naming, base: Commit, events: seq<Event>, w: nat)
    requires Occurs(name, Start(base), events) && w in Then(name, Start(base), events).publishers
    ensures var own := AccountOf(events, w);
            && own.searches <= 3 && own.branchReads <= 4
            && (Then(name, Start(base), events).publishers[w].pc == Raised(Uncertain) ==>
                  || own.ambiguous
                  || (own.asked && own.searches == 3)
                  || (own.unconfirmed && own.branchReads == 4))
  {
    HistoryTallied(name, Start(base), [], events);
    assert [] + events == events;
    hide AccountOf, Then, Occurs;
    assert AccountOf(events, w) == AccountOf(events, w);
  }
}
