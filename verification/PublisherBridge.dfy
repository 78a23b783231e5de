/** From the publishers' own protocols to what the service's steps take of them: every way in which a publisher ends has
    the effect that `PublishEffect` allows for its reply. A publisher's own artifact is the only one that may come to
    exist for its marker while it works; the execution lease is what keeps others away. */
module PublisherBridge {
  import opened Wrappers
  import opened Actions
  import opened AuditRuns
  import opened Service
  import opened ServiceInvariants
  import opened ServiceSteps
  import Issues = IssueProtocol
  import Pulls = PullRequestProtocol

  // ----- The draft PR publisher.

  /** The reply by which the service sees the end of a draft PR publication. */
  predicate PullReply(pc: Pulls.Pc, reply: Reply) {
    match pc
    case Returned(_) => reply.PublishConfirmed?
    case Raised(Rejected) => reply.PublishRejected?
    case Raised(Uncertain) => reply.PublishUncertain?
    case Raised(Refused) => reply.PublishRefused?
    case _ => false
  }

  function PullMade(r: Run, there: bool): Artifacts {
    if there then Artifacts({PrKeyOf(r)}, {}) else Artifacts({}, {})
  }

  lemma PullRequestEffect(
    name: Pulls.Naming, base: Pulls.Commit, actions: seq<Pulls.Action>, w: nat, r: Run, reply: Reply)
    requires Pulls.Happens(name, Pulls.Start(base), actions)
    requires var s := Pulls.After(name, Pulls.Start(base), actions);
             && w in s.publishers && PullReply(s.publishers[w].pc, reply)
             && var p := s.publishers[w];
                Pulls.HasPull(name, s, p.candidate) ==> p.existed || p.created
    ensures var p := Pulls.After(name, Pulls.Start(base), actions).publishers[w];
            PublishEffect(r, PullRequest, reply, PullMade(r, p.existed), PullMade(r, p.existed || p.created))
  {
    PullFacts(name, base, actions, w);
    hide Pulls.Happens, Pulls.After, Pulls.HasPull;
    PullEffect(Pulls.After(name, Pulls.Start(base), actions).publishers[w], r, reply);
  }

  lemma PullFacts(name: Pulls.Naming, base: Pulls.Commit, actions: seq<Pulls.Action>, w: nat)
    requires Pulls.Happens(name, Pulls.Start(base), actions)
    requires w in Pulls.After(name, Pulls.Start(base), actions).publishers
    ensures var s := Pulls.After(name, Pulls.Start(base), actions);
            var p := s.publishers[w];
            && (p.pc.Returned? ==> Pulls.HasPull(name, s, p.candidate))
            && (p.pc == Pulls.Raised(Pulls.Rejected) ==> !p.created && !p.existed)
            && (p.pc == Pulls.Raised(Pulls.Refused) ==> !p.created)
  {
    Pulls.HistoryKeeps(name, Pulls.Start(base), actions);
    var s := Pulls.After(name, Pulls.Start(base), actions);
    hide Pulls.Happens, Pulls.After, Pulls.Carries;
    assert Pulls.PublisherOk(name, s, s.publishers[w]);
    if s.publishers[w].pc.Raised? {
      Pulls.RejectionCreatedNothing(name, base, actions, w);
    }
  }

  lemma PullEffect(p: Pulls.Publisher, r: Run, reply: Reply)
    requires PullReply(p.pc, reply)
    requires p.pc.Returned? ==> p.existed || p.created
    requires p.pc == Pulls.Raised(Pulls.Rejected) ==> !p.created && !p.existed
    requires p.pc == Pulls.Raised(Pulls.Refused) ==> !p.created
    ensures PublishEffect(r, PullRequest, reply, PullMade(r, p.existed), PullMade(r, p.existed || p.created))
  {
    assert {} + {PrKeyOf(r)} == {PrKeyOf(r)};
  }

  // ----- The issue publisher.

  predicate IssueReply(pc: Issues.Pc, reply: Reply) {
    match pc
    case Returned(_) => reply.PublishConfirmed?
    case Raised(Uncertain) => reply.PublishUncertain?
    case Raised(Refused) => reply.PublishRefused?
    case _ => false
  }

  function IssueMade(r: Run, there: bool): Artifacts {
    if there then Artifacts({}, {IssueKeyOf(r)}) else Artifacts({}, {})
  }

  /** `existed` says whether the finding's issue was there when the worker came. */
  lemma IssueEffect(actions: seq<Issues.Action>, w: nat, existed: bool, r: Run, reply: Reply)
    requires Issues.Happens(Issues.START, actions)
    requires var s := Issues.After(Issues.START, actions);
             && w in s.workers && IssueReply(s.workers[w].pc, reply)
             && (s.issues != {} ==> existed || s.workers[w].landed.Some?)
    ensures var worker := Issues.After(Issues.START, actions).workers[w];
            PublishEffect(r, Issue, reply, IssueMade(r, existed), IssueMade(r, existed || worker.landed.Some?))
  {
    Issues.HistoryKeeps(Issues.START, actions);
    var s := Issues.After(Issues.START, actions);
    assert Issues.WorkerOk(s, w);
    if s.workers[w].pc == Issues.Raised(Issues.Refused) {
      Issues.RefusedCreatesNothing(actions, w);
    }
    assert {} + {IssueKeyOf(r)} == {IssueKeyOf(r)};
  }
}
