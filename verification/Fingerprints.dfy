/** Remote identities: the canonical pre-images of `finding_fingerprint` and `_pull_request_fingerprint` (github.py). */
module Fingerprints {
  import opened Wrappers
  import opened Ordering
  import opened Actions
  import opened AuditRuns
  import opened Base64
  import opened Candidates
  import opened Json

  // ----- Findings.

  function ResultText(r: EvidenceResult): string {
    match r
    case ObservedPass => "PASS"
    case ObservedFail => "FAIL"
    case ObservedUnknown => "UNKNOWN"
  }

  function VerdictText(v: Verdict): string {
    match v
    case PendingVerdict => "PENDING"
    case Supported => "SUPPORTED"
    case Contradicted => "CONTRADICTED"
    case Inconclusive => "INCONCLUSIVE"
    case NotTested => "NOT_TESTED"
  }

  /** The stable part of an evidence item: its scope, which names the synthetic subject, is left out. */
  datatype Fields = Fields(id: string, caption: string, expected: string, observed: string, result: EvidenceResult)

  function FieldsOf(e: EvidenceItem): Fields {
    Fields(e.id, e.caption, e.expected, e.observed, e.result)
  }

  /** Two observations count as the same exactly when they differ in their synthetic scope at most. */
  lemma ScopeDoesNotCount(e: EvidenceItem, f: EvidenceItem)
    ensures FieldsOf(e) == FieldsOf(f) <==> e.(scope := "") == f.(scope := "")
  {
  }

  function AllFields(evidence: seq<EvidenceItem>): (r: seq<Fields>)
    ensures |r| == |evidence|
  {
    seq(|evidence|, i requires 0 <= i < |evidence| => FieldsOf(evidence[i]))
  }

  function EvidenceJson(f: Fields): Json {
    JObject([
      Field("expected", JString(f.expected)), Field("id", JString(f.id)), Field("label", JString(f.caption)),
      Field("observed", JString(f.observed)), Field("result", JString(ResultText(f.result)))])
  }

  function EvidenceKey(f: Fields): string {
    Dump(EvidenceJson(f))
  }

  function SortedEvidence(evidence: seq<EvidenceItem>): seq<Fields> {
    Sorted(AllFields(evidence), EvidenceKey)
  }

  function EvidenceArray(sorted: seq<Fields>): (r: seq<Json>)
    ensures |r| == |sorted|
  {
    seq(|sorted|, i requires 0 <= i < |sorted| => EvidenceJson(sorted[i]))
  }

  function OptionalText(s: Option<string>): Json {
    if s.Some? then JString(s.value) else JNull
  }

  function FindingJson(repositoryId: nat, claim: Claim, verdict: Verdict, sorted: seq<Fields>): Json {
    JObject([
      Field("control", JObject([
        Field("id", OptionalText(claim.controlId)), Field("verdict", JString(VerdictText(verdict)))])),
      Field("evidence", JArray(EvidenceArray(sorted))),
      Field("repository", JObject([Field("id", JNumber(repositoryId))])),
      Field("schema", JString("ipromise.github-issue-finding.v1")),
      Field("source", JObject([
        Field("contentHash", JString(claim.contentHash)), Field("exactQuote", JString(claim.exactQuote)),
        Field("url", JString(claim.sourceUrl))]))])
  }

  /** The text hashed by `finding_fingerprint`. */
  function FindingPreimage(repositoryId: nat, r: Run): string {
    Dump(FindingJson(repositoryId, r.claim, r.verdict, SortedEvidence(r.evidence)))
  }

  lemma ResultTextInjective(a: EvidenceResult, b: EvidenceResult)
    requires ResultText(a) == ResultText(b)
    ensures a == b
  {
    assert ResultText(a)[0] == ResultText(b)[0];
  }

  lemma VerdictTextInjective(a: Verdict, b: Verdict)
    requires VerdictText(a) == VerdictText(b)
    ensures a == b
  {
    assert VerdictText(a)[0] == VerdictText(b)[0] && |VerdictText(a)| == |VerdictText(b)|;
  }

  /** Two evidence items with the same canonical text agree on every field. */
  lemma EvidenceJsonInjective(f: Fields, g: Fields)
    requires EvidenceJson(f) == EvidenceJson(g)
    ensures f == g
  {
    var a, b := EvidenceJson(f).fields, EvidenceJson(g).fields;
    assert a[0].value == b[0].value && a[1].value == b[1].value && a[2].value == b[2].value;
    assert a[3].value == b[3].value && a[4].value == b[4].value;
    ResultTextInjective(f.result, g.result);
  }

  lemma EvidenceKeyInjective(items: multiset<Fields>)
    ensures InjectiveOn(EvidenceKey, items)
  {
    forall f, g | f in items && g in items && EvidenceKey(f) == EvidenceKey(g) ensures f == g {
      DumpInjective(EvidenceJson(f), EvidenceJson(g));
      EvidenceJsonInjective(f, g);
    }
  }

  /** Sorting forgets the order of observations and nothing else. */
  lemma SortedEvidenceExactly(a: seq<EvidenceItem>, b: seq<EvidenceItem>)
    ensures SortedEvidence(a) == SortedEvidence(b) <==> multiset(AllFields(a)) == multiset(AllFields(b))
  {
    if multiset(AllFields(a)) == multiset(AllFields(b)) {
      SortedInOrder(AllFields(a), EvidenceKey);
      SortedInOrder(AllFields(b), EvidenceKey);
      EvidenceKeyInjective(multiset(SortedEvidence(a)));
      InOrderUnique(SortedEvidence(a), SortedEvidence(b), EvidenceKey);
    }
  }

  lemma EvidenceArrayInjective(a: seq<Fields>, b: seq<Fields>)
    requires EvidenceArray(a) == EvidenceArray(b)
    ensures a == b
  {
    assert |a| == |b|;
    forall i | 0 <= i < |a| ensures a[i] == b[i] {
      assert EvidenceArray(a)[i] == EvidenceArray(b)[i];
      EvidenceJsonInjective(a[i], b[i]);
    }
  }

  predicate SameSource(c: Claim, d: Claim) {
    c.sourceUrl == d.sourceUrl && c.contentHash == d.contentHash && c.exactQuote == d.exactQuote
    && c.controlId == d.controlId
  }

  lemma FindingJsonExactly(
    id: nat, id': nat, c: Claim, c': Claim, v: Verdict, v': Verdict, sorted: seq<Fields>, sorted': seq<Fields>)
    ensures FindingJson(id, c, v, sorted) == FindingJson(id', c', v', sorted')
            <==> id == id' && SameSource(c, c') && v == v' && sorted == sorted'
  {
    if FindingJson(id, c, v, sorted) == FindingJson(id', c', v', sorted') {
      var a, b := FindingJson(id, c, v, sorted).fields, FindingJson(id', c', v', sorted').fields;
      assert a[0].value.fields[0].value == b[0].value.fields[0].value;
      assert a[0].value.fields[1].value == b[0].value.fields[1].value;
      assert a[1].value.items == b[1].value.items;
      assert a[2].value.fields[0].value == b[2].value.fields[0].value;
      SourceJson(a[4].value, b[4].value);
      VerdictTextInjective(v, v');
      EvidenceArrayInjective(sorted, sorted');
    }
  }

  lemma SourceJson(a: Json, b: Json)
    requires a == b && a.JObject? && |a.fields| == 3
    ensures a.fields[0].value == b.fields[0].value && a.fields[1].value == b.fields[1].value
    ensures a.fields[2].value == b.fields[2].value
  {
  }

  /** Two runs have the same finding identity exactly when the repository, the source text, the control, the verdict
      and the multiset of observations agree; different findings never collide before hashing. */
  lemma FindingIdentity(id: nat, r: Run, id': nat, r': Run)
    ensures FindingPreimage(id, r) == FindingPreimage(id', r')
            <==> && id == id' && SameSource(r.claim, r'.claim) && r.verdict == r'.verdict
                 && multiset(AllFields(r.evidence)) == multiset(AllFields(r'.evidence))
  {
    var s, s' := SortedEvidence(r.evidence), SortedEvidence(r'.evidence);
    SortedEvidenceExactly(r.evidence, r'.evidence);
    FindingJsonExactly(id, id', r.claim, r'.claim, r.verdict, r'.verdict, s, s');
    if FindingPreimage(id, r) == FindingPreimage(id', r') {
      DumpInjective(FindingJson(id, r.claim, r.verdict, s), FindingJson(id', r'.claim, r'.verdict, s'));
    }
  }

  // ----- Draft pull requests.

  /** How a digest is written: 64 lower-case hexadecimal digits, different for different digests. */
  type Hex = Digest -> string

  ghost predicate Faithful(hex: Hex) {
    forall d: Digest, e: Digest :: hex(d) == hex(e) ==> d == e
  }

  function FileJson(f: SnapshotFile, hex: Hex): Json {
    JObject([
      Field("candidateSha256", JString(hex(f.candidate))), Field("path", JString(f.path)),
      Field("preimageSha256", JString(hex(f.preimage)))])
  }

  function FileArray(files: seq<SnapshotFile>, hex: Hex): (r: seq<Json>)
    ensures |r| == |files|
  {
    seq(|files|, i requires 0 <= i < |files| => FileJson(files[i], hex))
  }

  function PullRequestJson(repository: Repository, s: Snapshot, hex: Hex): Json {
    JObject([
      Field("baseSha", JString(s.baseSha)), Field("files", JArray(FileArray(s.files, hex))),
      Field("repository", JObject([
        Field("fullName", JString(repository.fullName)), Field("id", JNumber(repository.id))])),
      Field("repositoryUrl", JString(s.repositoryUrl)), Field("schema", JString("ipromise.github-draft-pr.v1")),
      Field("unifiedDiffSha256", JString(hex(s.diff)))])
  }

  function PullRequestPreimage(repository: Repository, s: Snapshot, hex: Hex): string {
    Dump(PullRequestJson(repository, s, hex))
  }

  /** Every file of a snapshot is authenticated: its bytes have its candidate digest. */
  predicate Authentic(s: Snapshot) {
    forall i :: 0 <= i < |s.files| ==> s.files[i].candidate == Candidates.Sha256(s.files[i].content)
  }

  lemma FileJsonInjective(f: SnapshotFile, g: SnapshotFile, hex: Hex)
    requires Faithful(hex) && FileJson(f, hex) == FileJson(g, hex)
    ensures f.path == g.path && f.candidate == g.candidate && f.preimage == g.preimage
  {
    var a, b := FileJson(f, hex).fields, FileJson(g, hex).fields;
    assert a[0].value == b[0].value && a[1].value == b[1].value && a[2].value == b[2].value;
  }

  lemma FilesInjective(a: seq<SnapshotFile>, b: seq<SnapshotFile>, hex: Hex)
    requires Faithful(hex) && FileArray(a, hex) == FileArray(b, hex)
    requires forall i :: 0 <= i < |a| ==> a[i].candidate == Candidates.Sha256(a[i].content)
    requires forall i :: 0 <= i < |b| ==> b[i].candidate == Candidates.Sha256(b[i].content)
    ensures a == b
  {
    assert |a| == |b|;
    forall i | 0 <= i < |a| ensures a[i] == b[i] {
      assert FileArray(a, hex)[i] == FileArray(b, hex)[i];
      FileJsonInjective(a[i], b[i], hex);
    }
  }

  lemma PullRequestJsonInjective(p: Repository, q: Repository, s: Snapshot, t: Snapshot, hex: Hex)
    requires Faithful(hex) && Authentic(s) && Authentic(t)
    requires PullRequestJson(p, s, hex) == PullRequestJson(q, t, hex)
    ensures p == q && s == t
  {
    var a, b := PullRequestJson(p, s, hex).fields, PullRequestJson(q, t, hex).fields;
    assert a[0].value == b[0].value && a[1].value.items == b[1].value.items;
    assert a[2].value.fields[0].value == b[2].value.fields[0].value;
    assert a[2].value.fields[1].value == b[2].value.fields[1].value;
    assert a[3].value == b[3].value && a[5].value == b[5].value;
    FilesInjective(s.files, t.files, hex);
  }

  /** The draft PR identity names exactly one repository and one authenticated candidate, bytes included. */
  lemma PullRequestIdentity(p: Repository, q: Repository, s: Snapshot, t: Snapshot, hex: Hex)
    requires Faithful(hex) && Authentic(s) && Authentic(t)
    ensures PullRequestPreimage(p, s, hex) == PullRequestPreimage(q, t, hex) <==> p == q && s == t
  {
    if PullRequestPreimage(p, s, hex) == PullRequestPreimage(q, t, hex) {
      DumpInjective(PullRequestJson(p, s, hex), PullRequestJson(q, t, hex));
      PullRequestJsonInjective(p, q, s, t, hex);
    }
  }

  /** The identity computed from a candidate before a crash is the one computed from its reloaded checkpoint. */
  lemma IdentitySurvivesCheckpoint(input: CandidateInput, repository: Repository, hex: Hex)
    requires FromVerifiedCandidate(input).Some?
    ensures var reloaded := FromVerifiedCandidate(input).value.Input();
            && TakeSnapshot(reloaded) == TakeSnapshot(input)
            && (TakeSnapshot(input).Some? ==>
                  PullRequestPreimage(repository, TakeSnapshot(reloaded).value, hex)
                  == PullRequestPreimage(repository, TakeSnapshot(input).value, hex))
  {
    CheckpointRoundTrip(input);
  }
}
