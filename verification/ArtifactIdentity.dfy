/** What distinguishes the artifacts of a run is what distinguishes them on the remote: the keys that count them are
    equal exactly when the canonical pre-images of their markers are. */
module ArtifactIdentity {
  import opened Wrappers
  import opened AuditRuns
  import opened Candidates
  import Ordering
  import opened Fingerprints
  import opened ServiceInvariants
  import opened ServiceProofs

  lemma IssueKeysArePreimages(r: Run, r': Run)
    requires r.repository.Some? && r'.repository.Some?
    ensures IssueKeyOf(r) == IssueKeyOf(r')
            <==> FindingPreimage(r.repository.value.id, r) == FindingPreimage(r'.repository.value.id, r')
  {
    FindingIdentity(r.repository.value.id, r, r'.repository.value.id, r');
  }

  /** The publisher's snapshot of the run's candidate, when it accepts one. */
  ghost predicate HasSnapshot(r: Run) {
    r.repository.Some? && r.candidate.Some? && r.candidate.value.Valid()
    && TakeSnapshot(r.candidate.value.Input()).Some?
  }

  ghost function SnapshotOf(r: Run): Snapshot
    requires HasSnapshot(r)
  {
    TakeSnapshot(r.candidate.value.Input()).value
  }

  lemma SnapshotIsAuthentic(input: CandidateInput)
    requires TakeSnapshot(input).Some?
    ensures Authentic(TakeSnapshot(input).value)
  {
    var paths := Ordering.SortedNames(input.tree.Keys);
    Ordering.SortedNamesIncrease(input.tree.Keys);
    var files := SnapshotFiles(input);
    forall i | 0 <= i < |files| ensures files[i].candidate == Sha256(files[i].content) {
      assert paths[i] in input.tree;
    }
  }

  lemma Accepted(input: CandidateInput)
    requires TakeSnapshot(input).Some?
    ensures input.tree.Keys == input.candidates.Keys
    ensures forall path :: path in input.tree ==> input.candidates[path] == Sha256(input.tree[path])
    ensures var s := TakeSnapshot(input).value;
            && CandidateMap(s) == input.candidates && PreimageMap(s) == input.preimages
            && s.baseSha == input.baseSha && s.repositoryUrl == input.repositoryUrl && s.diff == input.diff
  {
    SnapshotMaps(input);
    hide CandidateMap, PreimageMap, SnapshotFiles;
  }

  /** A snapshot gives back everything the publisher read. */
  lemma SnapshotDetermines(input: CandidateInput, input': CandidateInput)
    requires TakeSnapshot(input).Some? && TakeSnapshot(input) == TakeSnapshot(input')
    ensures input == input'
  {
    hide TakeSnapshot, CandidateMap, PreimageMap;
    Accepted(input);
    Accepted(input');
    forall path | path in input.tree ensures path in input'.tree && input.tree[path] == input'.tree[path] {
      assert path in input'.candidates;
      assert Sha256(input.tree[path]) == Sha256(input'.tree[path]);
    }
    assert input.tree == input'.tree;
  }

  lemma PrKeysArePreimages(r: Run, r': Run, hex: Hex)
    requires ProofOk(r) && ProofOk(r') && HasSnapshot(r) && HasSnapshot(r') && Faithful(hex)
    ensures PrKeyOf(r) == PrKeyOf(r')
            <==> PullRequestPreimage(r.repository.value, SnapshotOf(r), hex)
                 == PullRequestPreimage(r'.repository.value, SnapshotOf(r'), hex)
  {
    var input, input' := r.candidate.value.Input(), r'.candidate.value.Input();
    SnapshotIsAuthentic(input);
    SnapshotIsAuthentic(input');
    hide Authentic, TakeSnapshot, FromVerifiedCandidate, Checkpoint.Input, Checkpoint.Valid;
    PullRequestIdentity(r.repository.value, r'.repository.value, SnapshotOf(r), SnapshotOf(r'), hex);
    if SnapshotOf(r) == SnapshotOf(r') {
      SnapshotDetermines(input, input');
      assert FromVerifiedCandidate(input) == FromVerifiedCandidate(input');
    }
  }
}
