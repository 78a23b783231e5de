/** Histories put together action by action: what the continuations of this project are built from. */
module ServiceDrives {
  import opened Wrappers
  import opened Actions
  import opened AuditRuns
  import opened Candidates
  import opened Verification
  import opened Service
  import opened ServiceInvariants
  import opened ServiceSteps
  import opened ServiceProofs
  import opened ServiceProtocol
  import opened ServiceGrants
  import opened ServiceRerun
  import Fingerprints
  import Source
  import VisibleText

  lemma {:induction false} HappensAppend(cfg: Config, s: World, first: seq<Action>, rest: seq<Action>)
    requires Happens(cfg, s, first) && Happens(cfg, After(cfg, s, first), rest)
    ensures Happens(cfg, s, first + rest)
    ensures After(cfg, s, first + rest) == After(cfg, After(cfg, s, first), rest)
    ensures GrantsCurrent(cfg, s, first) && GrantsCurrent(cfg, After(cfg, s, first), rest) ==>
              GrantsCurrent(cfg, s, first + rest)
    decreases first
  {
    if first == [] {
      assert first + rest == rest;
    } else {
      assert (first + rest)[1..] == first[1..] + rest;
      HappensAppend(cfg, Perform(cfg, s, first[0]), first[1..], rest);
    }
  }

  lemma OneAction(cfg: Config, s: World, a: Action)
    requires Enabled(s, a)
    ensures Happens(cfg, s, [a]) && After(cfg, s, [a]) == Perform(cfg, s, a)
    ensures CurrentGrant(s, a) ==> GrantsCurrent(cfg, s, [a])
  {
    assert [a][1..] == [];
  }

  /** What the holder can do on its own happens in the world, and changes nothing else that matters. */
  lemma {:induction false} Drives(cfg: Config, s: World, w: nat, replies: seq<Reply>, w': Worker)
    returns (actions: seq<Action>)
    requires w in s.workers && s.Holds(w) && Reaches(cfg, s.workers[w], replies, w')
    ensures Happens(cfg, s, actions) && GrantsCurrent(cfg, s, actions)
    ensures var after := After(cfg, s, actions);
            && after.workers == s.workers[w := w'] && after.made == s.made
            && after.lease == s.lease && after.clock == s.clock && after.key == s.key
    decreases replies
  {
    if replies == [] {
      actions := [];
      assert s.workers == s.workers[w := w'];
    } else {
      var a := Advance(w, replies[0], s.made);
      var next := Perform(cfg, s, a);
      var rest := Drives(cfg, next, w, replies[1..], w');
      actions := [a] + rest;
      assert actions[1..] == rest;
      assert next.workers[w := w'] == s.workers[w := w'];
    }
  }

  // ----- A worker that takes the stored run up again.

  lemma {:induction false} Fresh(keys: set<nat>) returns (v: nat)
    ensures forall k :: k in keys ==> k < v
    decreases keys
  {
    if keys == {} {
      v := 0;
    } else {
      var k :| k in keys;
      var rest := Fresh(keys - {k});
      v := if rest <= k then k + 1 else rest;
      assert forall other :: other in keys ==> other == k || other in keys - {k};
    }
  }

  function Taking(r: Run): Worker {
    Worker(InExecute, Reserved(false), r, None, false, None)
  }

  /** Whoever holds the lease lets it run out, and a new delivery reads the stored run. */
  lemma TakenUpAgain(cfg: Config, s: World) returns (v: nat, actions: seq<Action>)
    requires s.stored.Some? && s.stored.value.status !in {Complete, FailedSafe}
    ensures Happens(cfg, s, actions) && GrantsCurrent(cfg, s, actions)
    ensures var after := After(cfg, s, actions);
            && v in after.workers && after.workers[v] == Taking(s.stored.value)
            && after.stored == s.stored && after.made == s.made && after.key == s.key
            && Enabled(after, Acquire(v)) && !after.Busy(v) && CurrentGrant(after, Acquire(v))
  {
    v := Fresh(s.workers.Keys);
    var wait := Tick(if s.lease.Some? then s.lease.value.expiry else 0);
    OneAction(cfg, s, wait);
    var s1 := Perform(cfg, s, wait);
    OneAction(cfg, s1, Reserve(v, None));
    HappensAppend(cfg, s, [wait], [Reserve(v, None)]);
    actions := [wait] + [Reserve(v, None)];
  }

  /** Evidence of the same broken promise that no existing issue was filed for. */
  lemma FreshEvidence(made: Artifacts) returns (evidence: seq<EvidenceItem>)
    requires |made.issues| <= 1
    ensures CalculateVerdict(evidence) == Contradicted
    ensures forall k :: k in made.issues ==> k.observations != Observed(evidence)
  {
    var item := EvidenceItem("app", "profile", "absent", "present", ObservedFail, "synthetic");
    VerdictMeaning([item]);
    VerdictMeaning([item, item]);
    assert [item][0].result == ObservedFail && [item, item][0].result == ObservedFail;
    assert |Observed([item])| == 1 && |Observed([item, item])| == 2;
    evidence := [item];
    if k :| k in made.issues && k.observations == Observed([item]) {
      evidence := [item, item];
      forall other | other in made.issues ensures other.observations != Observed(evidence) {
        assert made.issues == {k} by {
          assert {k} <= made.issues && |{k}| == 1;
          assert |made.issues - {k}| == 0;
        }
      }
    }
  }

  function Observed(evidence: seq<EvidenceItem>): multiset<Fingerprints.Fields> {
    multiset(Fingerprints.AllFields(evidence))
  }

  /** A page whose only text makes the promise that the control covers. */
  const PROMISE_WORDS :=
    ["delete", "your", "account", "profile", "analytics", "system", "within", "24", "hours"]
  const PROMISE := VisibleText.Join(PROMISE_WORDS)
  const PROMISE_PAGE := Source.Page("https://example.test/privacy", "hash", [Source.Data(PROMISE)])
  const PROMISE_PAYLOAD := Payload(PROMISE, true, Some(24), true)

  lemma PromiseIsBindable()
    ensures Bindable(PROMISE_PAGE, PROMISE_PAYLOAD)
  {
    PromiseWords();
    VisibleText.JoinNormal(PROMISE_WORDS);
    VisibleText.NormalExactly(PROMISE);
    hide VisibleText.Join, VisibleText.Normalize, VisibleText.Normal, VisibleText.Words, Source.Grounded;
    QuoteItself(PROMISE);
  }

  predicate Plain(word: string) {
    word != "" && forall i :: 0 <= i < |word| ==> '0' <= word[i] <= 'z'
  }

  lemma PlainIsNormal(word: string)
    requires Plain(word)
    ensures VisibleText.Normal(word)
  {
  }

  lemma PromiseWords()
    ensures VisibleText.Words(PROMISE_WORDS)
  {
    assert forall i :: 0 <= i < |PROMISE_WORDS| ==> Plain(PROMISE_WORDS[i]);
    hide Plain, VisibleText.Normal;
    forall i | 0 <= i < |PROMISE_WORDS|
      ensures PROMISE_WORDS[i] != "" && VisibleText.Normal(PROMISE_WORDS[i])
    {
      PlainIsNormal(PROMISE_WORDS[i]);
    }
  }

  lemma QuoteItself(text: string)
    requires text != "" && VisibleText.Normalize(text) == text
    ensures Source.Grounded(text, Source.CaptureOf(Source.Parse(Source.INITIAL, [Source.Data(text)])))
  {
    hide VisibleText.Normalize, VisibleText.Normal;
    var events := [Source.Data(text)];
    assert events[..0] == [];
    var s := Source.Parse(Source.INITIAL, events);
    assert s == Source.OnEvent(Source.Parse(Source.INITIAL, []), Source.Data(text));
    assert s.visible == [] + [text] && s.markedClaims == map[];
    assert VisibleText.Join([text]) == text;
    VisibleText.OccursAround("", text, "");
    assert "" + text + "" == text;
  }

  predicate NewTarget(w: Worker, made: Artifacts) {
    && w.pc.Calling? && w.pc.call.Publish?
    && match w.pc.call.kind
       case PullRequest => PrKeyOf(w.run) !in made.prs
       case Issue => IssueKeyOf(w.run) !in made.issues
       case Email => false
  }

  lemma DrivenToSecond(cfg: Config, s: World, w: nat, replies: seq<Reply>, w': Worker) returns (actions: seq<Action>)
    requires w in s.workers && s.Holds(w) && Reaches(cfg, s.workers[w], replies, w')
    requires NewTarget(w', s.made) && s.made.Count() == 1
    ensures Happens(cfg, s, actions) && GrantsCurrent(cfg, s, actions) && After(cfg, s, actions).made.Count() == 2
  {
    hide NewTarget, Step, Granted;
    var driven := Drives(cfg, s, w, replies, w');
    var middle := After(cfg, s, driven);
    var publish := PublishesAnother(cfg, middle, w);
    HappensAppend(cfg, s, driven, [publish]);
    actions := driven + [publish];
  }

  lemma PublishesAnother(cfg: Config, s: World, w: nat) returns (publish: Action)
    requires w in s.workers && s.Holds(w) && s.made.Count() == 1
    requires NewTarget(s.workers[w], s.made)
    ensures Happens(cfg, s, [publish]) && GrantsCurrent(cfg, s, [publish])
    ensures After(cfg, s, [publish]).made.Count() == 2
  {
    var r := s.workers[w].run;
    var made :=
      if s.workers[w].pc.call.kind == PullRequest then s.made.(prs := s.made.prs + {PrKeyOf(r)})
      else s.made.(issues := s.made.issues + {IssueKeyOf(r)});
    publish := Advance(w, PublishConfirmed("url"), made);
    OneAction(cfg, s, publish);
  }

  lemma TwoDeliveries(cfg: Config, key: string, repository: Option<Repository>) returns (actions: seq<Action>)
    ensures Happens(cfg, Start(key), actions) && GrantsCurrent(cfg, Start(key), actions)
    ensures var s := After(cfg, Start(key), actions);
            && s.workers.Keys == {0, 1} && s.Holds(0) && s.made.Empty()
            && s.workers[1] == Worker(InExecute, Reserved(false), NewRun(key, repository), None, false, None)
            && At(s.workers[0], CaptureStarted, Capturing, Running) && s.workers[0].run.repository == repository
            && Attempts(s.workers[0].run.events) == 1 && s.workers[0].mode == InExecute
  {
    var s0 := Start(key);
    var s1 := Perform(cfg, s0, Reserve(0, repository));
    var s2 := Perform(cfg, s1, Reserve(1, repository));
    NewRunOk(cfg, key, repository);
    Started(NewRun(key, repository), Capturing);
    OneAction(cfg, s0, Reserve(0, repository));
    OneAction(cfg, s1, Reserve(1, repository));
    OneAction(cfg, s2, Acquire(0));
    HappensAppend(cfg, s0, [Reserve(0, repository)], [Reserve(1, repository)]);
    HappensAppend(cfg, s0, [Reserve(0, repository)] + [Reserve(1, repository)], [Acquire(0)]);
    actions := [Reserve(0, repository)] + [Reserve(1, repository)] + [Acquire(0)];
  }
}
