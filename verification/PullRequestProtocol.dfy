/** Draft PR publication (github.py): content-addressed trees and commits, create-only branches, one PR per branch.
    Object identities are injective, so a tree or commit stands for its own SHA. */
module PullRequestProtocol {
  import opened Wrappers
  import opened Base64

  datatype ObjectId = BlobSha(content: Bytes) | OtherSha(name: string)

  datatype Entry = Entry(mode: string, kind: string, id: ObjectId)

  type Tree = map<string, Entry>

  datatype Commit = Commit(tree: Tree, parents: seq<Commit>, message: string)

  /** What the fingerprint is computed from: the verified base, the exact files, and the remaining identity
      (repository, diff and preimage hashes). */
  datatype Candidate = Candidate(base: Commit, files: seq<(string, Bytes)>, identity: string)

  const ALLOWED_BLOB_MODES := {"100644", "100755"}
  const RECONCILIATIONS := 3

  predicate Publishable(c: Candidate) {
    forall i :: 0 <= i < |c.files| ==>
      && c.files[i].0 in c.base.tree
      && c.base.tree[c.files[i].0].kind == "blob" && c.base.tree[c.files[i].0].mode in ALLOWED_BLOB_MODES
  }

  // ----- The exact tree.

  /** `expected` of `_verify_candidate_tree`: the base tree with each candidate path replaced, its mode kept. */
  function Overlay(base: Tree, files: seq<(string, Bytes)>): (r: Tree)
    requires forall i :: 0 <= i < |files| ==> files[i].0 in base
    ensures r.Keys == base.Keys
    ensures forall p :: p in base ==> r[p].mode == base[p].mode
  {
    if files == [] then base
    else
      var rest := Overlay(base, files[..|files| - 1]);
      var (path, content) := files[|files| - 1];
      rest[path := Entry(base[path].mode, "blob", BlobSha(content))]
  }

  /** Exactly the candidate paths change, to exactly the candidate bytes; every mode and every other path stays. */
  lemma {:induction false} OverlayIsExact(base: Tree, files: seq<(string, Bytes)>)
    requires forall i :: 0 <= i < |files| ==> files[i].0 in base
    requires forall i, j :: 0 <= i < j < |files| ==> files[i].0 != files[j].0
    ensures var r := Overlay(base, files);
            && (forall i :: 0 <= i < |files| ==>
                  r[files[i].0] == Entry(base[files[i].0].mode, "blob", BlobSha(files[i].1)))
            && forall p :: p in base && (forall i :: 0 <= i < |files| ==> files[i].0 != p) ==> r[p] == base[p]
  {
    if files != [] {
      var front := files[..|files| - 1];
      assert forall i :: 0 <= i < |front| ==> front[i] == files[i];
      OverlayIsExact(base, front);
      forall p | p in base && (forall i :: 0 <= i < |files| ==> files[i].0 != p)
        ensures Overlay(base, files)[p] == base[p]
      {
        assert files[|files| - 1].0 != p;
        assert forall i :: 0 <= i < |front| ==> front[i].0 != p;
      }
    }
  }

  /** The loop of `_verify_candidate_tree`; `None` where it rejects. */
  method ExpectedTree(base: Tree, files: seq<(string, Bytes)>) returns (expected: Option<Tree>)
    ensures expected.Some? <==> forall i :: 0 <= i < |files| ==> files[i].0 in base && base[files[i].0].kind == "blob"
    ensures expected.Some? ==> expected.value == Overlay(base, files)
  {
    var result := base;
    for i := 0 to |files|
      invariant forall j :: 0 <= j < i ==> files[j].0 in base && base[files[j].0].kind == "blob"
      invariant forall j :: 0 <= j < |files[..i]| ==> files[..i][j].0 in base
      invariant result == Overlay(base, files[..i])
    {
      var (path, content) := files[i];
      if path !in base || base[path].kind != "blob" {
        return None;
      }
      assert files[..i + 1][..i] == files[..i];
      result := result[path := Entry(base[path].mode, "blob", BlobSha(content))];
    }
    assert files[..|files|] == files;
    return Some(result);
  }

  // ----- The publishers and the remote.

  datatype Receipt = Receipt(number: nat, head: Commit, tree: Tree)

  datatype Error = Rejected | Uncertain | Refused

  datatype Pc =
    | Finding | CheckingBase | CreatingTree | CreatingCommit | CheckingBaseAgain
    | ReadingBranch | CreatingBranch | ReconcilingBranch(branchReads: nat) | CheckingBaseLast
    | FindingAgain | Opening | Awaiting | ReconcilingPull(pullReads: nat)
    | Returned(receipt: Receipt) | Raised(error: Error) | Crashed

  /** `existed`: a PR of this candidate was already there when the publisher started. `created`: its POST created
      the PR. */
  datatype Publisher = Publisher(
    candidate: Candidate, pc: Pc, commit: Option<Commit>, sent: bool, existed: bool, created: bool)

  datatype Pull = Pull(number: nat, marker: Candidate)

  datatype World = World(
    base: Commit, branches: map<string, Commit>, pulls: map<string, Pull>, publishers: map<nat, Publisher>)
  {
    function Set(w: nat, p: Publisher): World {
      this.(publishers := publishers[w := p])
    }

    function Move(w: nat, pc: Pc): World
      requires w in publishers
    {
      Set(w, publishers[w].(pc := pc))
    }
  }

  /** `name` maps a candidate to its branch: a prefix of the fingerprint, so two candidates may share one. */
  type Naming = Candidate -> string

  function Start(base: Commit): World {
    World(base, map[], map[], map[])
  }

  datatype Action =
    | Arrive(worker: nat, candidate: Candidate)
    | MoveBase(base: Commit)
    | Fail(worker: nat, error: Error)
    | Find(worker: nat)
    | CheckBase(worker: nat)
    | MakeTree(worker: nat, tree: Tree)
    | MakeCommit(worker: nat, commit: Commit)
    | ReadBranch(worker: nat)
    | MakeBranch(worker: nat, lands: bool, confirmed: bool)
    | Open(worker: nat)
    | Land(worker: nat, number: nat)
    | Confirm(worker: nat)
    | LoseReply(worker: nat)
    | RefuseOpen(worker: nat)
    | Reconcile(worker: nat, ok: bool)
    | Crash(worker: nat)

  predicate InCall(pc: Pc) {
    !pc.Returned? && !pc.Raised? && !pc.Crashed?
  }

  /** Before its PR is asked for, any remote call may fail, with or without an ambiguous outcome. */
  predicate BeforeOpening(pc: Pc) {
    InCall(pc) && !pc.Awaiting? && !pc.ReconcilingPull?
  }

  predicate Enabled(name: Naming, s: World, a: Action) {
    match a
    case Arrive(w, _) => w !in s.publishers
    case MoveBase(_) => true
    case Fail(w, e) => w in s.publishers && BeforeOpening(s.publishers[w].pc) && e in {Uncertain, Refused}
    case Find(w) => w in s.publishers && (s.publishers[w].pc.Finding? || s.publishers[w].pc.FindingAgain?)
    case CheckBase(w) =>
      w in s.publishers && s.publishers[w].pc in {CheckingBase, CheckingBaseAgain, CheckingBaseLast}
    case MakeTree(w, _) => w in s.publishers && s.publishers[w].pc.CreatingTree?
    case MakeCommit(w, _) => w in s.publishers && s.publishers[w].pc.CreatingCommit?
    case ReadBranch(w) =>
      w in s.publishers && (s.publishers[w].pc.ReadingBranch? || s.publishers[w].pc.ReconcilingBranch?)
    case MakeBranch(w, lands, confirmed) =>
      && w in s.publishers && s.publishers[w].pc.CreatingBranch? && (confirmed ==> lands)
      && (lands ==> name(s.publishers[w].candidate) !in s.branches)
    case Open(w) => w in s.publishers && s.publishers[w].pc.Opening?
    case Land(w, _) =>
      && w in s.publishers && s.publishers[w].sent && InCall(s.publishers[w].pc)
      && name(s.publishers[w].candidate) !in s.pulls
    case Confirm(w) => w in s.publishers && s.publishers[w].pc.Awaiting? && s.publishers[w].created
    case LoseReply(w) => w in s.publishers && s.publishers[w].pc.Awaiting?
    case RefuseOpen(w) => w in s.publishers && s.publishers[w].pc.Awaiting? && !s.publishers[w].created
    case Reconcile(w, _) => w in s.publishers && s.publishers[w].pc.ReconcilingPull?
    case Crash(w) => w in s.publishers && InCall(s.publishers[w].pc)
  }

  /** `_published_pull_request` on the PR of the branch: the head must be the branch's commit, based only on the
      verified base, with exactly the candidate tree. */
  function Verified(s: World, branch: string, c: Candidate): Pc
    requires branch in s.pulls
  {
    if branch !in s.branches then Raised(Rejected)
    else
      var head := s.branches[branch];
      if head.parents != [c.base] then Raised(Rejected)
      else if !forall i :: 0 <= i < |c.files| ==>
                 c.files[i].0 in c.base.tree && c.base.tree[c.files[i].0].kind == "blob" then
        Raised(Rejected)
      else if head.tree != Overlay(c.base.tree, c.files) then Raised(Rejected)
      else Returned(Receipt(s.pulls[branch].number, head, head.tree))
  }

  /** `_find_pull_request`: nothing, the verified receipt, or a rejection of an unmarked PR. */
  function Found(name: Naming, s: World, c: Candidate): Option<Pc> {
    if name(c) !in s.pulls then None
    else if s.pulls[name(c)].marker != c then Some(Raised(Rejected))
    else Some(Verified(s, name(c), c))
  }

  /** A receipt from the POST or from its reconciliation must be for the commit just made. */
  function ForCommit(pc: Pc, commit: Option<Commit>): Pc {
    if pc.Returned? && Some(pc.receipt.head) != commit then Raised(Rejected) else pc
  }

  function Perform(name: Naming, s: World, a: Action): World
    requires Enabled(name, s, a)
  {
    match a
    case Arrive(w, c) =>
      s.Set(w, Publisher(c, Finding, None, false, name(c) in s.pulls && s.pulls[name(c)].marker == c, false))
    case MoveBase(base) => s.(base := base)
    case Fail(w, e) => s.Move(w, Raised(e))
    case Find(w) =>
      var found := Found(name, s, s.publishers[w].candidate);
      s.Move(w, if found.Some? then found.value
                else if s.publishers[w].pc.Finding? then CheckingBase else Opening)
    case CheckBase(w) =>
      if s.base != s.publishers[w].candidate.base then s.Move(w, Raised(Rejected))
      else
        s.Move(w, match s.publishers[w].pc
                  case CheckingBase => CreatingTree
                  case CheckingBaseAgain => ReadingBranch
                  case _ => FindingAgain)
    case MakeTree(w, answer) =>
      var c := s.publishers[w].candidate;
      if !Publishable(c) || answer != Overlay(c.base.tree, c.files) then s.Move(w, Raised(Rejected))
      else s.Move(w, CreatingCommit)
    case MakeCommit(w, answer) =>
      var c := s.publishers[w].candidate;
      if answer.parents != [c.base] || !Publishable(c) || answer.tree != Overlay(c.base.tree, c.files) then
        s.Move(w, Raised(Rejected))
      else s.Set(w, s.publishers[w].(pc := CheckingBaseAgain, commit := Some(answer)))
    case ReadBranch(w) => s.Move(w, BranchRead(name, s, s.publishers[w]))
    case MakeBranch(w, lands, confirmed) =>
      var branch := name(s.publishers[w].candidate);
      var after := if lands && s.publishers[w].commit.Some? then
                     s.(branches := s.branches[branch := s.publishers[w].commit.value]) else s;
      after.Move(w, if confirmed then CheckingBaseLast else ReconcilingBranch(0))
    case Open(w) => s.Set(w, s.publishers[w].(pc := Awaiting, sent := true))
    case Land(w, number) =>
      var c := s.publishers[w].candidate;
      s.(pulls := s.pulls[name(c) := Pull(number, c)]).Set(w, s.publishers[w].(sent := false, created := true))
    case Confirm(w) =>
      var c := s.publishers[w].candidate;
      if name(c) !in s.pulls then s.Move(w, ReconcilingPull(0))
      else s.Move(w, ForCommit(Verified(s, name(c), c), s.publishers[w].commit))
    case LoseReply(w) => s.Move(w, ReconcilingPull(0))
    case RefuseOpen(w) => s.Set(w, s.publishers[w].(pc := Raised(Refused), sent := false))
    case Reconcile(w, ok) =>
      var found := Found(name, s, s.publishers[w].candidate);
      if ok && found.Some? then s.Move(w, ForCommit(found.value, s.publishers[w].commit))
      else if s.publishers[w].pc.pullReads + 1 < RECONCILIATIONS then
        s.Move(w, ReconcilingPull(s.publishers[w].pc.pullReads + 1))
      else s.Move(w, Raised(Uncertain))
    case Crash(w) => s.Move(w, Crashed)
  }

  /** One read in `_create_or_reconcile_branch`. */
  function BranchRead(name: Naming, s: World, p: Publisher): Pc {
    var branch := name(p.candidate);
    if branch in s.branches then
      if Some(s.branches[branch]) != p.commit then Raised(Rejected) else CheckingBaseLast
    else if p.pc.ReadingBranch? then CreatingBranch
    else if p.pc.ReconcilingBranch? && p.pc.branchReads + 1 < RECONCILIATIONS then
      ReconcilingBranch(p.pc.branchReads + 1)
    else Raised(Uncertain)
  }

  // ----- The invariant.

  /** A commit that carries exactly this candidate on exactly its verified base. */
  predicate Carries(commit: Commit, c: Candidate) {
    commit.parents == [c.base] && Publishable(c) && commit.tree == Overlay(c.base.tree, c.files)
  }

  predicate HasCommit(pc: Pc) {
    pc.CheckingBaseAgain? || pc.ReadingBranch? || pc.CreatingBranch? || pc.ReconcilingBranch?
    || pc.CheckingBaseLast? || AfterBranch(pc)
  }

  predicate AfterBranch(pc: Pc) {
    pc.CheckingBaseLast? || pc.FindingAgain? || pc.Opening? || pc.Awaiting? || pc.ReconcilingPull?
  }

  /** A PR's branch exists and carries the candidate of the PR's marker. */
  predicate PullOk(name: Naming, s: World, branch: string)
    requires branch in s.pulls
  {
    && name(s.pulls[branch].marker) == branch
    && branch in s.branches && Carries(s.branches[branch], s.pulls[branch].marker)
  }

  predicate HasPull(name: Naming, s: World, c: Candidate) {
    name(c) in s.pulls && s.pulls[name(c)].marker == c
  }

  predicate PublisherOk(name: Naming, s: World, p: Publisher) {
    && (p.commit.Some? ==> Carries(p.commit.value, p.candidate))
    && (HasCommit(p.pc) ==> p.commit.Some?)
    && (AfterBranch(p.pc) ==> name(p.candidate) in s.branches && p.commit == Some(s.branches[name(p.candidate)]))
    && (p.sent && InCall(p.pc) ==> p.pc.Awaiting? || p.pc.ReconcilingPull?)
    && (p.created ==> HasPull(name, s, p.candidate) && !BeforeOpening(p.pc))
    && (p.existed ==> HasPull(name, s, p.candidate)
                      && (p.pc.Finding? || p.pc.Returned? || p.pc.Crashed?
                          || p.pc == Raised(Uncertain) || p.pc == Raised(Refused)))
    && (p.pc.Returned? ==>
          && HasPull(name, s, p.candidate) && name(p.candidate) in s.branches
          && p.pc.receipt == Receipt(s.pulls[name(p.candidate)].number, s.branches[name(p.candidate)],
                                     s.branches[name(p.candidate)].tree))
    && (p.pc == Raised(Rejected) || p.pc == Raised(Refused) ==> !p.created)
  }

  ghost predicate Inv(name: Naming, s: World) {
    && (forall branch :: branch in s.pulls ==> PullOk(name, s, branch))
    && forall w :: w in s.publishers ==> PublisherOk(name, s, s.publishers[w])
  }

  /** Branches and PRs are only ever added. */
  ghost predicate Grows(s: World, s': World) {
    && (forall b :: b in s.branches ==> b in s'.branches && s'.branches[b] == s.branches[b])
    && (forall b :: b in s.pulls ==> b in s'.pulls && s'.pulls[b] == s.pulls[b])
    && s.publishers.Keys <= s'.publishers.Keys
    && forall w :: w in s.publishers ==>
         && s'.publishers[w].candidate == s.publishers[w].candidate
         && (s.publishers[w].pc.Returned? ==> s'.publishers[w].pc == s.publishers[w].pc)
  }

  lemma PerformGrows(name: Naming, s: World, a: Action)
    requires Enabled(name, s, a)
    ensures Grows(s, Perform(name, s, a))
  {
    hide Verified, Found, BranchRead, ForCommit, Overlay, Publishable;
  }

  // ----- Every action keeps the invariant.

  /** Nothing that only adds branches and PRs disturbs a publisher or a PR. */
  lemma GrowingKeeps(name: Naming, s: World, s': World, p: Publisher)
    requires PublisherOk(name, s, p) && Grows(s, s')
    ensures PublisherOk(name, s', p)
  {
  }

  lemma PullsStay(name: Naming, s: World, s': World)
    requires Inv(name, s) && Grows(s, s') && s'.pulls == s.pulls
    ensures forall branch :: branch in s'.pulls ==> PullOk(name, s', branch)
  {
    forall branch | branch in s'.pulls ensures PullOk(name, s', branch) {
      assert PullOk(name, s, branch);
    }
  }

  /** It is enough to look at the publisher that acted. */
  lemma ActorSuffices(name: Naming, s: World, a: Action, w: nat)
    requires Inv(name, s) && Enabled(name, s, a)
    requires var s' := Perform(name, s, a);
             && w in s.publishers && w in s'.publishers
             && s'.publishers == s.publishers[w := s'.publishers[w]] && s'.pulls == s.pulls
             && PublisherOk(name, s', s'.publishers[w])
    ensures Inv(name, Perform(name, s, a))
  {
    var s' := Perform(name, s, a);
    PerformGrows(name, s, a);
    PullsStay(name, s, s');
    forall v | v in s'.publishers ensures PublisherOk(name, s', s'.publishers[v]) {
      if v != w {
        GrowingKeeps(name, s, s', s.publishers[v]);
      }
    }
  }

  /** A PR with the candidate's marker always passes the verification of a found PR. */
  lemma MarkedIsVerified(name: Naming, s: World, c: Candidate)
    requires Inv(name, s) && HasPull(name, s, c)
    ensures Found(name, s, c) == Some(Verified(s, name(c), c)) && Verified(s, name(c), c).Returned?
    ensures Verified(s, name(c), c).receipt
            == Receipt(s.pulls[name(c)].number, s.branches[name(c)], s.branches[name(c)].tree)
  {
    assert PullOk(name, s, name(c));
  }

  lemma FindKeeps(name: Naming, s: World, a: Action)
    requires Inv(name, s) && Enabled(name, s, a) && a.Find?
    ensures Inv(name, Perform(name, s, a))
  {
    var p := s.publishers[a.worker];
    assert PublisherOk(name, s, p);
    if HasPull(name, s, p.candidate) {
      MarkedIsVerified(name, s, p.candidate);
    }
    ActorSuffices(name, s, a, a.worker);
  }

  lemma ReconcileKeeps(name: Naming, s: World, a: Action)
    requires Inv(name, s) && Enabled(name, s, a) && a.Reconcile?
    ensures Inv(name, Perform(name, s, a))
  {
    hide Carries, Verified;
    var p := s.publishers[a.worker];
    assert PublisherOk(name, s, p);
    if HasPull(name, s, p.candidate) {
      MarkedIsVerified(name, s, p.candidate);
    }
    ActorSuffices(name, s, a, a.worker);
  }

  lemma ConfirmKeeps(name: Naming, s: World, a: Action)
    requires Inv(name, s) && Enabled(name, s, a) && a.Confirm?
    ensures Inv(name, Perform(name, s, a))
  {
    hide Carries, Verified;
    var p := s.publishers[a.worker];
    assert PublisherOk(name, s, p);
    MarkedIsVerified(name, s, p.candidate);
    ActorSuffices(name, s, a, a.worker);
  }

  lemma CheckKeeps(name: Naming, s: World, a: Action)
    requires Inv(name, s) && Enabled(name, s, a) && a.CheckBase?
    ensures Inv(name, Perform(name, s, a))
  {
    hide Carries;
    assert PublisherOk(name, s, s.publishers[a.worker]);
    ActorSuffices(name, s, a, a.worker);
  }

  lemma TreeKeeps(name: Naming, s: World, a: Action)
    requires Inv(name, s) && Enabled(name, s, a) && a.MakeTree?
    ensures Inv(name, Perform(name, s, a))
  {
    hide Carries, Overlay, Publishable;
    assert PublisherOk(name, s, s.publishers[a.worker]);
    ActorSuffices(name, s, a, a.worker);
  }

  lemma CommitKeeps(name: Naming, s: World, a: Action)
    requires Inv(name, s) && Enabled(name, s, a) && a.MakeCommit?
    ensures Inv(name, Perform(name, s, a))
  {
    hide Overlay, Publishable;
    assert PublisherOk(name, s, s.publishers[a.worker]);
    ActorSuffices(name, s, a, a.worker);
  }

  lemma BranchReadKeeps(name: Naming, s: World, a: Action)
    requires Inv(name, s) && Enabled(name, s, a) && a.ReadBranch?
    ensures Inv(name, Perform(name, s, a))
  {
    hide Carries;
    assert PublisherOk(name, s, s.publishers[a.worker]);
    ActorSuffices(name, s, a, a.worker);
  }

  lemma BranchKeeps(name: Naming, s: World, a: Action)
    requires Inv(name, s) && Enabled(name, s, a) && a.MakeBranch?
    ensures Inv(name, Perform(name, s, a))
  {
    hide Carries;
    assert PublisherOk(name, s, s.publishers[a.worker]);
    ActorSuffices(name, s, a, a.worker);
  }

  lemma LandKeeps(name: Naming, s: World, a: Action)
    requires Inv(name, s) && Enabled(name, s, a) && a.Land?
    ensures Inv(name, Perform(name, s, a))
  {
    var s' := Perform(name, s, a);
    var p := s.publishers[a.worker];
    assert PublisherOk(name, s, p);
    PerformGrows(name, s, a);
    forall branch | branch in s'.pulls ensures PullOk(name, s', branch) {
      if branch != name(p.candidate) { assert PullOk(name, s, branch); }
    }
    forall v | v in s'.publishers ensures PublisherOk(name, s', s'.publishers[v]) {
      if v != a.worker { GrowingKeeps(name, s, s', s.publishers[v]); }
    }
  }

  lemma MoveKeeps(name: Naming, s: World, a: Action)
    requires Inv(name, s) && Enabled(name, s, a)
    requires a.Fail? || a.Open? || a.LoseReply? || a.RefuseOpen? || a.Crash?
    ensures Inv(name, Perform(name, s, a))
  {
    hide Carries;
    assert PublisherOk(name, s, s.publishers[a.worker]);
    ActorSuffices(name, s, a, a.worker);
  }

  lemma ArriveKeeps(name: Naming, s: World, a: Action)
    requires Inv(name, s) && Enabled(name, s, a) && (a.Arrive? || a.MoveBase?)
    ensures Inv(name, Perform(name, s, a))
  {
    var s' := Perform(name, s, a);
    PerformGrows(name, s, a);
    PullsStay(name, s, s');
    forall v | v in s'.publishers ensures PublisherOk(name, s', s'.publishers[v]) {
      if v in s.publishers { GrowingKeeps(name, s, s', s.publishers[v]); }
    }
  }

  lemma ActionKeeps(name: Naming, s: World, a: Action)
    requires Inv(name, s) && Enabled(name, s, a)
    ensures Inv(name, Perform(name, s, a))
  {
    match a
    case Find(_) => FindKeeps(name, s, a);
    case Reconcile(_, _) => ReconcileKeeps(name, s, a);
    case Confirm(_) => ConfirmKeeps(name, s, a);
    case MakeTree(_, _) => TreeKeeps(name, s, a);
    case MakeCommit(_, _) => CommitKeeps(name, s, a);
    case CheckBase(_) => CheckKeeps(name, s, a);
    case ReadBranch(_) => BranchReadKeeps(name, s, a);
    case MakeBranch(_, _, _) => BranchKeeps(name, s, a);
    case Land(_, _) => LandKeeps(name, s, a);
    case Arrive(_, _) => ArriveKeeps(name, s, a);
    case MoveBase(_) => ArriveKeeps(name, s, a);
    case _ => MoveKeeps(name, s, a);
  }

  // ----- Whole histories.

  predicate Happens(name: Naming, s: World, actions: seq<Action>)
    decreases actions
  {
    actions == [] || (Enabled(name, s, actions[0]) && Happens(name, Perform(name, s, actions[0]), actions[1..]))
  }

  function After(name: Naming, s: World, actions: seq<Action>): World
    requires Happens(name, s, actions)
    decreases actions
  {
    if actions == [] then s else After(name, Perform(name, s, actions[0]), actions[1..])
  }

  lemma {:induction false} HistoryKeeps(name: Naming, s: World, actions: seq<Action>)
    requires Inv(name, s) && Happens(name, s, actions)
    ensures Inv(name, After(name, s, actions))
    decreases actions
  {
    if actions != [] {
      ActionKeeps(name, s, actions[0]);
      HistoryKeeps(name, Perform(name, s, actions[0]), actions[1..]);
    }
  }

  /** No existing branch ever changes target and no PR is replaced, whatever the publishers and the base do. */
  lemma {:induction false} HistoryGrows(name: Naming, s: World, actions: seq<Action>)
    requires Happens(name, s, actions)
    ensures Grows(s, After(name, s, actions))
    decreases actions
  {
    if actions != [] {
      PerformGrows(name, s, actions[0]);
      HistoryGrows(name, Perform(name, s, actions[0]), actions[1..]);
    }
  }

  /** All publishers of one candidate that return, return the same PR, head and tree; the head is based only on the
      verified base, and the tree is the base tree with exactly the candidate laid over it. */
  lemma PublishersAgree(name: Naming, base: Commit, actions: seq<Action>, v: nat, w: nat)
    requires Happens(name, Start(base), actions)
    requires var s := After(name, Start(base), actions);
             && v in s.publishers && s.publishers[v].pc.Returned?
             && w in s.publishers && s.publishers[w].pc.Returned?
             && s.publishers[v].candidate == s.publishers[w].candidate
    ensures var s := After(name, Start(base), actions);
            var c := s.publishers[v].candidate;
            var r := s.publishers[v].pc.receipt;
            && r == s.publishers[w].pc.receipt
            && r.head.parents == [c.base] && Publishable(c)
            && r.tree == r.head.tree == Overlay(c.base.tree, c.files)
  {
    HistoryKeeps(name, Start(base), actions);
    var s := After(name, Start(base), actions);
    assert PublisherOk(name, s, s.publishers[v]) && PublisherOk(name, s, s.publishers[w]);
    assert PullOk(name, s, name(s.publishers[v].candidate));
  }

  /** A publisher that raises Rejected has not created the candidate's PR, and none existed when it started: so no
      earlier publisher of the same candidate had created one. A definite refusal created nothing either. */
  lemma RejectionCreatedNothing(name: Naming, base: Commit, actions: seq<Action>, w: nat)
    requires Happens(name, Start(base), actions)
    requires var s := After(name, Start(base), actions); w in s.publishers && s.publishers[w].pc.Raised?
    ensures var p := After(name, Start(base), actions).publishers[w];
            && (p.pc == Raised(Rejected) ==> !p.created && !p.existed)
            && (p.pc == Raised(Refused) ==> !p.created)
  {
    HistoryKeeps(name, Start(base), actions);
    var s := After(name, Start(base), actions);
    assert PublisherOk(name, s, s.publishers[w]);
  }
}
