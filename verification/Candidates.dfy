/** The verified candidate: its digests, its durable checkpoint and the publisher's snapshot of it. */
module Candidates {
  import opened Wrappers
  import opened Base64
  import opened Ordering

  /** SHA-256, taken as injective: a digest is identified with the bytes it was computed from. */
  datatype Digest = Sha256(preimage: Bytes)

  datatype CandidateFile = CandidateFile(path: string, preimage: Digest, candidate: Digest, content: Bytes)

  /** The bounded remediation artifact handed to the verifier. */
  datatype Artifact = Artifact(baseSha: string, files: seq<CandidateFile>, diff: Digest)

  datatype VerifiedCandidate =
    VerifiedCandidate(repositoryUrl: string, baseSha: string, diff: Digest, files: seq<CandidateFile>)

  /** What the publisher reads of a candidate, whichever object carries it. */
  datatype CandidateInput = CandidateInput(
    repositoryUrl: string,
    baseSha: string,
    diff: Digest,
    tree: map<string, Bytes>,
    preimages: map<string, Digest>,
    candidates: map<string, Digest>)

  function FileContents(files: seq<CandidateFile>): seq<(string, Bytes)> {
    seq(|files|, i requires 0 <= i < |files| => (files[i].path, files[i].content))
  }

  function FilePreimages(files: seq<CandidateFile>): seq<(string, Digest)> {
    seq(|files|, i requires 0 <= i < |files| => (files[i].path, files[i].preimage))
  }

  function FileCandidates(files: seq<CandidateFile>): seq<(string, Digest)> {
    seq(|files|, i requires 0 <= i < |files| => (files[i].path, files[i].candidate))
  }

  function InputOfCandidate(c: VerifiedCandidate): CandidateInput {
    CandidateInput(
      c.repositoryUrl, c.baseSha, c.diff,
      Dict(FileContents(c.files)), Dict(FilePreimages(c.files)), Dict(FileCandidates(c.files)))
  }

  const MAX_CHECKPOINT_BASE64 := 16 * 1024 * 1024
  const MAX_CANDIDATE_BLOB_BYTES := 10 * 1024 * 1024

  predicate IsLowerHex(s: string, length: nat) {
    |s| == length && forall i :: 0 <= i < |s| ==> '0' <= s[i] <= '9' || 'a' <= s[i] <= 'f'
  }

  predicate IsGitSha(s: string) {
    IsLowerHex(s, 40)
  }

  datatype FileCheckpoint =
    FileCheckpoint(path: string, preimage: Digest, candidate: Digest, contentBase64: string)
  {
    /** The validator: canonical base64 whose bytes have the recorded digest. */
    predicate Valid() {
      && 1 <= |path| <= 1000
      && 1 <= |contentBase64| <= MAX_CHECKPOINT_BASE64
      && Canonical(contentBase64)
      && candidate == Sha256(Decode(contentBase64).value)
    }

    function Content(): Bytes
      requires Valid()
    {
      Decode(contentBase64).value
    }
  }

  datatype Checkpoint =
    Checkpoint(repositoryUrl: string, baseSha: string, diff: Digest, files: seq<FileCheckpoint>)
  {
    predicate Valid() {
      && 12 <= |repositoryUrl| <= 2000
      && IsGitSha(baseSha)
      && 1 <= |files| <= 16
      && (forall i :: 0 <= i < |files| ==> files[i].Valid())
      && forall i, j :: 0 <= i < j < |files| ==> files[i].path != files[j].path
    }

    function ContentPairs(): seq<(string, Bytes)>
      requires Valid()
    {
      seq(|files|, i requires 0 <= i < |files| => (files[i].path, files[i].Content()))
    }

    function PreimagePairs(): seq<(string, Digest)> {
      seq(|files|, i requires 0 <= i < |files| => (files[i].path, files[i].preimage))
    }

    function CandidatePairs(): seq<(string, Digest)> {
      seq(|files|, i requires 0 <= i < |files| => (files[i].path, files[i].candidate))
    }

    function Input(): CandidateInput
      requires Valid()
    {
      CandidateInput(
        repositoryUrl, baseSha, diff, Dict(ContentPairs()), Dict(PreimagePairs()), Dict(CandidatePairs()))
    }
  }

  ghost function CheckpointFile(input: CandidateInput, path: string): FileCheckpoint
    requires path in input.tree && path in input.preimages && path in input.candidates
  {
    FileCheckpoint(path, input.preimages[path], input.candidates[path], Encode(input.tree[path]))
  }

  ghost function BuildCheckpoint(input: CandidateInput): Checkpoint
    requires input.tree.Keys == input.preimages.Keys && input.tree.Keys == input.candidates.Keys
  {
    var paths := SortedNames(input.tree.Keys);
    Checkpoint(
      input.repositoryUrl, input.baseSha, input.diff,
      seq(|paths|, i requires 0 <= i < |paths| => CheckpointFile(input, paths[i])))
  }

  /** `from_verified_candidate`: one record per path in sorted order, or nothing when a validator refuses. */
  ghost function FromVerifiedCandidate(input: CandidateInput): (r: Option<Checkpoint>)
    ensures r.Some? ==>
      && r.value.Valid()
      && input.tree.Keys == input.preimages.Keys && input.tree.Keys == input.candidates.Keys
      && r.value == BuildCheckpoint(input)
  {
    if input.tree.Keys != input.preimages.Keys || input.tree.Keys != input.candidates.Keys then None
    else if BuildCheckpoint(input).Valid() then Some(BuildCheckpoint(input))
    else None
  }

  /** Whatever the checkpoint stores it gives back: the same tree and the same two hash maps. */
  lemma CheckpointRoundTrip(input: CandidateInput)
    requires FromVerifiedCandidate(input).Some?
    ensures FromVerifiedCandidate(input).value.Input() == input
  {
    BuiltInput(input, BuildCheckpoint(input));
  }

  lemma BuiltInput(input: CandidateInput, cp: Checkpoint)
    requires input.tree.Keys == input.preimages.Keys && input.tree.Keys == input.candidates.Keys
    requires cp == BuildCheckpoint(input) && cp.Valid()
    ensures cp.Input() == input
  {
    var paths := SortedNames(input.tree.Keys);
    SortedNamesIncrease(input.tree.Keys);
    assert forall i :: 0 <= i < |paths| ==> cp.files[i] == CheckpointFile(input, paths[i]);
    ListedInput(input, cp, paths);
  }

  lemma ListedInput(input: CandidateInput, cp: Checkpoint, paths: seq<string>)
    requires input.tree.Keys == input.preimages.Keys && input.tree.Keys == input.candidates.Keys
    requires forall k :: k in paths <==> k in input.tree
    requires forall i, j :: 0 <= i < j < |paths| ==> paths[i] != paths[j]
    requires cp.Valid() && |cp.files| == |paths|
    requires cp.repositoryUrl == input.repositoryUrl && cp.baseSha == input.baseSha && cp.diff == input.diff
    requires forall i :: 0 <= i < |paths| ==> paths[i] in input.tree && cp.files[i] == CheckpointFile(input, paths[i])
    ensures cp.Input() == input
  {
    FilesList(cp, paths, input);
    DictOfNames(cp.ContentPairs(), paths, input.tree);
    DictOfNames(cp.PreimagePairs(), paths, input.preimages);
    DictOfNames(cp.CandidatePairs(), paths, input.candidates);
  }

  lemma FilesList(cp: Checkpoint, paths: seq<string>, input: CandidateInput)
    requires cp.Valid() && |cp.files| == |paths|
    requires forall i :: 0 <= i < |paths| ==>
               && paths[i] in input.tree && paths[i] in input.preimages && paths[i] in input.candidates
               && cp.files[i] == CheckpointFile(input, paths[i])
    ensures forall i :: 0 <= i < |paths| ==> cp.ContentPairs()[i] == (paths[i], input.tree[paths[i]])
    ensures forall i :: 0 <= i < |paths| ==> cp.PreimagePairs()[i] == (paths[i], input.preimages[paths[i]])
    ensures forall i :: 0 <= i < |paths| ==> cp.CandidatePairs()[i] == (paths[i], input.candidates[paths[i]])
  {
    forall i | 0 <= i < |paths| ensures cp.ContentPairs()[i] == (paths[i], input.tree[paths[i]]) {
      FileContent(cp.files[i], input.tree[paths[i]]);
    }
  }

  lemma FileContent(f: FileCheckpoint, content: Bytes)
    requires f.Valid() && f.contentBase64 == Encode(content)
    ensures f.Content() == content
  {
    DecodeEncode(content);
  }

  /** The pairs list the map's entries in sorted order of their names. */
  ghost predicate Lists<V>(pairs: seq<(string, V)>, m: map<string, V>) {
    var names := SortedNames(m.Keys);
    |pairs| == |names| && forall i :: 0 <= i < |pairs| ==> pairs[i] == (names[i], m[names[i]])
  }

  lemma DictIs<V>(pairs: seq<(string, V)>, m: map<string, V>)
    requires Lists(pairs, m)
    ensures Dict(pairs) == m
  {
    SortedNamesIncrease(m.Keys);
    DictOfNames(pairs, SortedNames(m.Keys), m);
  }

  lemma DictOfNames<V>(pairs: seq<(string, V)>, names: seq<string>, m: map<string, V>)
    requires |pairs| == |names|
    requires forall k :: k in names <==> k in m
    requires forall i :: 0 <= i < |pairs| ==> pairs[i] == (names[i], m[names[i]])
    requires forall i, j :: 0 <= i < j < |names| ==> names[i] != names[j]
    ensures Dict(pairs) == m
  {
    DictOfDistinct(pairs);
    forall k | k in m ensures k in Dict(pairs) && Dict(pairs)[k] == m[k] {
      assert k in names;
      var i :| 0 <= i < |names| && names[i] == k;
      assert pairs[i].0 == k;
    }
    forall k | k in Dict(pairs) ensures k in m {
      var i :| 0 <= i < |pairs| && pairs[i].0 == k;
      assert names[i] in names;
    }
  }

  datatype SnapshotFile = SnapshotFile(path: string, content: Bytes, candidate: Digest, preimage: Digest)

  datatype Snapshot =
    Snapshot(baseSha: string, repositoryUrl: string, diff: Digest, files: seq<SnapshotFile>)

  predicate StartsWith(s: string, prefix: string) {
    |prefix| <= |s| && s[..|prefix|] == prefix
  }

  predicate EndsWith(s: string, suffix: string) {
    |suffix| <= |s| && s[|s| - |suffix|..] == suffix
  }

  function Split(s: string): (parts: seq<string>)
    ensures |parts| >= 1
  {
    if s == [] then [[]]
    else if s[0] == '/' then [[]] + Split(s[1..])
    else
      var rest := Split(s[1..]);
      [[s[0]] + rest[0]] + rest[1..]
  }

  function Lower(c: char): char {
    if 'A' <= c <= 'Z' then (c as int + 32) as char else c
  }

  predicate SafePart(part: string) {
    && part != "" && part != "." && part != ".."
    && !(|part| == 4 && part[0] == '.' && Lower(part[1]) == 'g' && Lower(part[2]) == 'i' && Lower(part[3]) == 't')
  }

  /** `_safe_candidate_path`. */
  predicate SafePath(path: string) {
    && path != "" && |path| <= 1000
    && path[0] != '/' && path[|path| - 1] != '/'
    && '\\' !in path && '\0' !in path
    && forall i :: 0 <= i < |Split(path)| ==> SafePart(Split(path)[i])
  }

  function TotalBytes(files: seq<SnapshotFile>): nat {
    if files == [] then 0 else TotalBytes(files[..|files| - 1]) + |files[|files| - 1].content|
  }

  ghost predicate SnapshotAccepts(input: CandidateInput) {
    && IsGitSha(input.baseSha)
    && StartsWith(input.repositoryUrl, "https://") && EndsWith(input.repositoryUrl, ".git")
    && input.tree != map[] && input.tree.Keys == input.candidates.Keys && input.tree.Keys == input.preimages.Keys
    && (forall path :: path in input.tree ==>
          && SafePath(path)
          && |input.tree[path]| <= MAX_CANDIDATE_BLOB_BYTES
          && input.candidates[path] == Sha256(input.tree[path]))
    && TotalBytes(SnapshotFiles(input)) <= MAX_CANDIDATE_BLOB_BYTES
  }

  ghost function SnapshotFiles(input: CandidateInput): seq<SnapshotFile>
    requires input.tree.Keys == input.candidates.Keys && input.tree.Keys == input.preimages.Keys
  {
    var paths := SortedNames(input.tree.Keys);
    seq(|paths|, i requires 0 <= i < |paths| =>
      SnapshotFile(paths[i], input.tree[paths[i]], input.candidates[paths[i]], input.preimages[paths[i]]))
  }

  /** `_snapshot_candidate`: nothing when any check refuses the input. */
  ghost function TakeSnapshot(input: CandidateInput): Option<Snapshot> {
    if SnapshotAccepts(input) then
      Some(Snapshot(input.baseSha, input.repositoryUrl, input.diff, SnapshotFiles(input)))
    else None
  }

  /** The snapshot's own two maps are the input's maps. */
  lemma SnapshotMaps(input: CandidateInput)
    requires TakeSnapshot(input).Some?
    ensures CandidateMap(TakeSnapshot(input).value) == input.candidates
    ensures PreimageMap(TakeSnapshot(input).value) == input.preimages
  {
    DictIs(CandidatePairs(SnapshotFiles(input)), input.candidates);
    DictIs(PreimagePairs(SnapshotFiles(input)), input.preimages);
  }

  function CandidatePairs(files: seq<SnapshotFile>): seq<(string, Digest)> {
    seq(|files|, i requires 0 <= i < |files| => (files[i].path, files[i].candidate))
  }

  function PreimagePairs(files: seq<SnapshotFile>): seq<(string, Digest)> {
    seq(|files|, i requires 0 <= i < |files| => (files[i].path, files[i].preimage))
  }

  function CandidateMap(s: Snapshot): map<string, Digest> {
    Dict(CandidatePairs(s.files))
  }

  function PreimageMap(s: Snapshot): map<string, Digest> {
    Dict(PreimagePairs(s.files))
  }

  // apps/demo_saas/src/ipromise_demo/store.py and apps/demo_saas/tests/test_app.py
  const STORE_PATH := JoinPath(["apps", "demo_saas", "src", "ipromise_demo", "store.py"])
  const TEST_PATH := JoinPath(["apps", "demo_saas", "tests", "test_app.py"])
  const MAX_PREIMAGE_FILE_BYTES := 32 * 1024

  /** What the remediation builder guarantees of every artifact it returns. */
  predicate Approved(a: Artifact) {
    && IsGitSha(a.baseSha)
    && |a.files| == 2 && a.files[0].path == STORE_PATH && a.files[1].path == TEST_PATH
    && forall i :: 0 <= i < |a.files| ==>
         1 <= |a.files[i].content| <= MAX_PREIMAGE_FILE_BYTES && a.files[i].candidate == Sha256(a.files[i].content)
  }

  function JoinPath(parts: seq<string>): string
    requires parts != []
  {
    if |parts| == 1 then parts[0] else parts[0] + "/" + JoinPath(parts[1..])
  }

  lemma {:induction false} SplitPlain(part: string)
    requires '/' !in part
    ensures Split(part) == [part]
  {
    if part != [] {
      SplitPlain(part[1..]);
      assert part == [part[0]] + part[1..];
    }
  }

  lemma {:induction false} SplitFirst(part: string, rest: string)
    requires '/' !in part
    ensures Split(part + "/" + rest) == [part] + Split(rest)
  {
    var s := part + "/" + rest;
    if part == [] {
      assert s[1..] == rest;
    } else {
      SplitFirst(part[1..], rest);
      assert s[1..] == part[1..] + "/" + rest;
      assert part == [part[0]] + part[1..];
    }
  }

  lemma {:induction false} SplitJoin(parts: seq<string>)
    requires parts != [] && forall i :: 0 <= i < |parts| ==> '/' !in parts[i]
    ensures Split(JoinPath(parts)) == parts
  {
    if |parts| == 1 {
      SplitPlain(parts[0]);
    } else {
      SplitJoin(parts[1..]);
      SplitFirst(parts[0], JoinPath(parts[1..]));
    }
  }

  predicate PlainPart(part: string) {
    1 <= |part| <= 99 && SafePart(part) && '/' !in part && '\\' !in part && '\0' !in part
  }

  lemma {:induction false} JoinPlain(parts: seq<string>)
    requires 1 <= |parts| && forall i :: 0 <= i < |parts| ==> PlainPart(parts[i])
    ensures var path := JoinPath(parts);
            && 1 <= |path| <= 100 * |parts|
            && path[0] != '/' && path[|path| - 1] != '/' && '\\' !in path && '\0' !in path
  {
    assert PlainPart(parts[0]);
    if |parts| > 1 {
      assert forall i :: 0 <= i < |parts[1..]| ==> parts[1..][i] == parts[i + 1];
      JoinPlain(parts[1..]);
    }
  }

  /** A path made of plain parts is accepted by the publisher. */
  lemma SafeJoin(parts: seq<string>)
    requires 1 <= |parts| <= 10 && forall i :: 0 <= i < |parts| ==> PlainPart(parts[i])
    ensures SafePath(JoinPath(parts))
  {
    JoinPlain(parts);
    forall i | 0 <= i < |parts| ensures '/' !in parts[i] { assert PlainPart(parts[i]); }
    SplitJoin(parts);
    assert forall i :: 0 <= i < |parts| ==> PlainPart(parts[i]);
  }

  lemma ApprovedPathsSafe()
    ensures SafePath(STORE_PATH) && SafePath(TEST_PATH)
  {
    SafeJoin(["apps", "demo_saas", "src", "ipromise_demo", "store.py"]);
    SafeJoin(["apps", "demo_saas", "tests", "test_app.py"]);
  }
}
