/** The evidence gate end to end: from the build to the publisher, through the run's life, its Firestore document and
    the publisher's own snapshot. */
module EvidenceChain {
  import opened Wrappers
  import opened Actions
  import opened AuditRuns
  import opened Candidates
  import opened RunStore
  import opened Service
  import opened ServiceInvariants
  import opened ServiceProofs
  import opened ServiceProtocol
  import opened ServiceRuns
  import opened Verification

  /** The receipt, binding and snapshot checks of `_require_pull_request_gate`. */
  ghost predicate GateAccepts(r: Run) {
    && ActionIs(r, 0, Ready) && r.actions[0].kind == PullRequest && r.actions[0].verified
    && ProvesCandidate(r.verification) && r.verification.value.binding.Some?
    && r.candidate.Some? && r.candidate.value.Valid()
    && var snapshot := TakeSnapshot(r.candidate.value.Input());
       snapshot.Some? && BindingMatches(r.verification.value.binding.value, snapshot.value)
  }

  lemma ReadyPassesGate(cfg: Config, r: Run)
    requires RunOk(cfg, r) && ProofOk(r) && ActionIs(r, 0, Ready)
    ensures GateAccepts(r)
  {
    assert Plan(r, Ready, Skipped);
  }

  /** Whenever a run is persisted, in whatever history, its Firestore document gives back the very same run; and if its
      pull request is ready, the reloaded run passes every receipt, binding and snapshot check of the publisher. */
  lemma ReadyMeansPublishableEvidence(
    cfg: Config, key: string, actions: seq<ServiceProtocol.Action>,
    executionLease: Option<RunStore.Lease>, actionLeases: map<ActionKind, RunStore.Lease>)
    requires Happens(cfg, Start(key), actions)
    requires After(cfg, Start(key), actions).stored.Some?
    ensures var r := After(cfg, Start(key), actions).stored.value;
            var reloaded := Decode(Encode(r, executionLease, actionLeases));
            reloaded == Ok(r) && (ActionIs(r, 0, Ready) ==> GateAccepts(reloaded.value))
  {
    FromStart(cfg, key, actions);
    var r := After(cfg, Start(key), actions).stored.value;
    DocumentRoundTrip(r, executionLease, actionLeases);
    if ActionIs(r, 0, Ready) {
      ReadyPassesGate(cfg, r);
    }
  }
}
