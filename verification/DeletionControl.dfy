/** The synthetic account store (apps/demo_saas store.py) and the approved deletion control that probes it
    (control.py). Times are whole seconds; an account's id is an injective hash of the run's id. */
module DeletionControl {
  import opened Wrappers
  import opened Actions

  datatype AccountId = Synthetic(runId: string)

  datatype Profile = Profile(seededAt: int, deletionRequestedAt: int)

  datatype Store = Store(
    profiles: map<AccountId, Profile>, analytics: map<AccountId, int>,
    requests: map<AccountId, int>, observations: map<AccountId, int>, processed: map<AccountId, int>,
    known: set<AccountId>)

  const HOUR := 3600

  /** What `inspect` reports: `None` where the store knows no such fixture. */
  datatype Inspection = Inspection(
    known: bool, profileExists: Option<bool>, analyticsExists: Option<bool>, elapsed: Option<int>)

  /** The store as written, or with the approved removal of the analytics profile inserted. */
  datatype Version = AsWritten | Repaired

  function SeedStep(s: Store, runId: string, hours: nat, now: int): Store {
    var id := Synthetic(runId);
    var requested := now - hours * HOUR;
    Store(
      s.profiles[id := Profile(now, requested)], s.analytics[id := now],
      s.requests[id := requested], s.observations[id := now], s.processed, s.known + {id})
  }

  /** `process_deletion`: the elapsed processing time, or nothing for an unknown or already deleted account. */
  function ProcessStep(v: Version, s: Store, id: AccountId): (Store, Option<int>) {
    if id !in s.known || id !in s.profiles then (s, None)
    else
      var deleted := s.(
        profiles := s.profiles - {id},
        processed := s.processed[id := s.profiles[id].deletionRequestedAt + HOUR]);
      (if v == Repaired then deleted.(analytics := s.analytics - {id}) else deleted, Some(HOUR))
  }

  function Inspect(s: Store, id: AccountId): Inspection {
    Inspection(
      id in s.known,
      if id in s.known then Some(id in s.profiles) else None,
      if id in s.known then Some(id in s.analytics) else None,
      if id in s.requests && id in s.observations then Some(s.observations[id] - s.requests[id]) else None)
  }

  const EMPTY_STORE := Store(map[], map[], map[], map[], map[], {})

  class SyntheticStore {
    const version: Version
    var profiles: map<AccountId, Profile>
    var analytics: map<AccountId, int>
    var requests: map<AccountId, int>
    var observations: map<AccountId, int>
    var processed: map<AccountId, int>
    var known: set<AccountId>

    function View(): Store
      reads this
    {
      Store(profiles, analytics, requests, observations, processed, known)
    }

    constructor (version: Version)
      ensures this.version == version && View() == EMPTY_STORE
    {
      this.version := version;
      profiles, analytics, requests, observations, processed, known := map[], map[], map[], map[], map[], {};
    }

    method Seed(runId: string, hours: nat, now: int) returns (id: AccountId)
      modifies this
      ensures View() == SeedStep(old(View()), runId, hours, now) && id == Synthetic(runId)
    {
      var requested := now - hours * HOUR;
      id := Synthetic(runId);
      profiles := profiles[id := Profile(now, requested)];
      analytics := analytics[id := now];
      requests := requests[id := requested];
      observations := observations[id := now];
      known := known + {id};
    }

    method ProcessDeletion(id: AccountId) returns (elapsed: Option<int>)
      modifies this
      ensures (View(), elapsed) == ProcessStep(version, old(View()), id)
    {
      if id !in known || id !in profiles {
        return None;
      }
      var profile := profiles[id];
      profiles := profiles - {id};
      processed := processed[id := profile.deletionRequestedAt + HOUR];
      if version == Repaired {
        analytics := analytics - {id};
      }
      return Some(HOUR);
    }

    method Reset() returns (count: nat)
      modifies this
      ensures View() == EMPTY_STORE && count == |old(known)|
    {
      count := |known|;
      profiles, analytics, requests, observations, processed, known := map[], map[], map[], map[], map[], {};
    }
  }

  // ----- The control.

  const DEADLINE_HOURS := 24
  const SEEDED_HOURS_AGO := 25

  function RecordEvidence(id: string, caption: string, exists': Option<bool>, scope: string): EvidenceItem {
    match exists'
    case None =>
      EvidenceItem(id, caption, "Removed within 24h", "Required store evidence was unavailable", ObservedUnknown, scope)
    case Some(present) =>
      EvidenceItem(
        id, caption, "Removed within 24h",
        if present then "1 active record at +25h" else "No active record at +25h",
        if present then ObservedFail else ObservedPass, scope)
  }

  function TimelineResult(crossed: bool, processing: int): EvidenceResult {
    if !crossed || processing < 0 then ObservedUnknown
    else if processing <= DEADLINE_HOURS * HOUR then ObservedPass
    else ObservedFail
  }

  predicate Crossed(state: Inspection) {
    state.elapsed.Some? && state.elapsed.value > DEADLINE_HOURS * HOUR
  }

  /** The evidence of `execute`; `timeline` is the formatted observation, and `scope` the synthetic subject. */
  function Evidence(state: Inspection, processing: int, timeline: string, scope: string): seq<EvidenceItem> {
    [ EvidenceItem(
        "synthetic-virtual-timeline", "Deletion timeline",
        "Worker runs by T0+24h; evidence observed after T0+24h", timeline,
        TimelineResult(Crossed(state), processing), scope),
      RecordEvidence("app-profile", "App profile", if Crossed(state) then state.profileExists else None, scope),
      RecordEvidence(
        "analytics-profile", "Analytics profile", if Crossed(state) then state.analyticsExists else None, scope) ]
  }

  /** The control supports the promise only on complete evidence after the deadline, and contradicts it only on an
      active record after the deadline or on processing that was itself late. */
  lemma VerdictOfState(state: Inspection, processing: int, timeline: string, scope: string)
    ensures var v := CalculateVerdict(Evidence(state, processing, timeline, scope));
            var after := state.elapsed.Some? && state.elapsed.value > 24 * 3600;
            && (v == Supported <==>
                  && after && 0 <= processing <= 24 * 3600
                  && state.profileExists == Some(false) && state.analyticsExists == Some(false))
            && (v == Contradicted <==>
                  && after
                  && (processing > 24 * 3600
                      || state.profileExists == Some(true) || state.analyticsExists == Some(true)))
  {
    var e := Evidence(state, processing, timeline, scope);
    VerdictMeaning(e);
    assert e[0].result == TimelineResult(Crossed(state), processing);
    assert e[1].result == ObservedFail <==> Crossed(state) && state.profileExists == Some(true);
    assert e[2].result == ObservedFail <==> Crossed(state) && state.analyticsExists == Some(true);
    assert e[1].result == ObservedPass <==> Crossed(state) && state.profileExists == Some(false);
    assert e[2].result == ObservedPass <==> Crossed(state) && state.analyticsExists == Some(false);
  }

  // ----- Interleaving with other accounts.

  datatype Op =
    SeedOther(runId: string, hours: nat, now: int) | ProcessOther(id: AccountId) | InspectOther(other: AccountId)

  function Apply(v: Version, s: Store, op: Op): Store {
    match op
    case SeedOther(runId, hours, now) => SeedStep(s, runId, hours, now)
    case ProcessOther(id) => ProcessStep(v, s, id).0
    case InspectOther(_) => s
  }

  predicate Elsewhere(op: Op, id: AccountId) {
    match op
    case SeedOther(runId, _, _) => Synthetic(runId) != id
    case ProcessOther(other) => other != id
    case InspectOther(_) => true
  }

  function ApplyAll(v: Version, s: Store, ops: seq<Op>): Store
    decreases ops
  {
    if ops == [] then s else ApplyAll(v, Apply(v, s, ops[0]), ops[1..])
  }

  /** Two stores that agree on one account. */
  predicate SameAccount(s: Store, t: Store, id: AccountId) {
    && (id in s.known <==> id in t.known)
    && (id in s.profiles <==> id in t.profiles) && (id in s.profiles ==> s.profiles[id] == t.profiles[id])
    && (id in s.analytics <==> id in t.analytics)
    && (id in s.requests <==> id in t.requests) && (id in s.requests ==> s.requests[id] == t.requests[id])
    && (id in s.observations <==> id in t.observations)
    && (id in s.observations ==> s.observations[id] == t.observations[id])
  }

  lemma {:induction false} OthersDoNotMatter(v: Version, s: Store, ops: seq<Op>, id: AccountId)
    requires forall i :: 0 <= i < |ops| ==> Elsewhere(ops[i], id)
    ensures SameAccount(s, ApplyAll(v, s, ops), id)
    decreases ops
  {
    if ops != [] {
      assert Elsewhere(ops[0], id);
      forall i | 0 <= i < |ops[1..]| ensures Elsewhere(ops[1..][i], id) {
        assert ops[1..][i] == ops[i + 1];
      }
      OthersDoNotMatter(v, Apply(v, s, ops[0]), ops[1..], id);
    }
  }

  // ----- What the store says of an account, told from the operations alone.

  predicate Touches(op: Op, id: AccountId) {
    match op
    case SeedOther(runId, _, _) => Synthetic(runId) == id
    case ProcessOther(other) => other == id
    case InspectOther(_) => false
  }

  /** How long ago, in hours, the last seeding of an account put its deletion request. */
  function LastSeed(ops: seq<Op>, id: AccountId): Option<nat> {
    if ops == [] then None
    else
      var last := ops[|ops| - 1];
      if last.SeedOther? && Touches(last, id) then Some(last.hours) else LastSeed(ops[..|ops| - 1], id)
  }

  /** It was seeded, and its deletion has not been processed since. */
  predicate Live(ops: seq<Op>, id: AccountId) {
    ops != []
    && var last := ops[|ops| - 1];
       if Touches(last, id) then last.SeedOther? else Live(ops[..|ops| - 1], id)
  }

  lemma {:induction false} ApplySnoc(v: Version, s: Store, ops: seq<Op>, op: Op)
    ensures ApplyAll(v, s, ops + [op]) == Apply(v, ApplyAll(v, s, ops), op)
    decreases ops
  {
    if ops == [] {
      assert [] + [op] == [op] && [op][1..] == [];
    } else {
      assert (ops + [op])[1..] == ops[1..] + [op];
      ApplySnoc(v, Apply(v, s, ops[0]), ops[1..], op);
    }
  }

  /** After any operations, on this account and others: a fixture is known if and only if it was seeded, its profile
      is there if and only if it was not deleted since, its analytics profile also after a deletion by the store as
      written, and the elapsed time is that of its last seeding. A deletion is processed exactly while the profile is
      there. */
  lemma {:induction false} InspectedExactly(v: Version, ops: seq<Op>, id: AccountId)
    ensures var s, seed := ApplyAll(v, EMPTY_STORE, ops), LastSeed(ops, id);
            && Inspect(s, id)
               == (if seed.None? then Inspection(false, None, None, None)
                   else Inspection(
                     true, Some(Live(ops, id)), Some(Live(ops, id) || v == AsWritten), Some(seed.value * 3600)))
            && ProcessStep(v, s, id).1 == (if Live(ops, id) then Some(3600) else None)
            && (Live(ops, id) ==> seed.Some?)
    decreases |ops|
  {
    if ops != [] {
      var front, last := ops[..|ops| - 1], ops[|ops| - 1];
      assert ops == front + [last];
      InspectedExactly(v, front, id);
      ApplySnoc(v, EMPTY_STORE, front, last);
      var s := ApplyAll(v, EMPTY_STORE, front);
      assert (id in s.known <==> LastSeed(front, id).Some?)
             && (id in s.known ==> (id in s.profiles <==> Live(front, id)));
    }
  }

  /** One execution of the control, with anything happening to other accounts between its three calls: the verdict,
      or nothing where the deletion call would fail. */
  function Execute(v: Version, s: Store, runId: string, now: int, first: seq<Op>, second: seq<Op>, timeline: string)
    : Option<Verdict>
  {
    var id := Synthetic(runId);
    var seeded := ApplyAll(v, SeedStep(s, runId, SEEDED_HOURS_AGO, now), first);
    match ProcessStep(v, seeded, id).1
    case None => None
    case Some(processing) =>
      var state := Inspect(ApplyAll(v, ProcessStep(v, seeded, id).0, second), id);
      Some(CalculateVerdict(Evidence(state, processing, timeline, "")))
  }

  /** From any prior store, leftovers of earlier attempts included, and through any operations on other accounts, the
      control finds the defect of the store as written, and confirms the repaired one. */
  lemma ControlSeparatesVersions(
    v: Version, s: Store, runId: string, now: int, first: seq<Op>, second: seq<Op>, timeline: string)
    requires forall i :: 0 <= i < |first| ==> Elsewhere(first[i], Synthetic(runId))
    requires forall i :: 0 <= i < |second| ==> Elsewhere(second[i], Synthetic(runId))
    ensures Execute(v, s, runId, now, first, second, timeline)
            == Some(if v == AsWritten then Contradicted else Supported)
  {
    var id := Synthetic(runId);
    var start := SeedStep(s, runId, SEEDED_HOURS_AGO, now);
    var seeded := ApplyAll(v, start, first);
    OthersDoNotMatter(v, start, first, id);
    var deleted := ProcessStep(v, seeded, id);
    assert deleted.1 == Some(HOUR);
    var last := ApplyAll(v, deleted.0, second);
    OthersDoNotMatter(v, deleted.0, second, id);
    var state := Inspect(last, id);
    assert state.elapsed == Some(SEEDED_HOURS_AGO * HOUR);
    assert state.profileExists == Some(false) && state.analyticsExists == Some(v == AsWritten);
    VerdictOfState(state, HOUR, timeline, "");
  }

  /** A control interrupted after seeding or after the deletion gives the same verdict when it is run again. */
  lemma RerunAfterPartialAttempt(
    v: Version, s: Store, runId: string, before: int, now: int, deleted: bool,
    first: seq<Op>, second: seq<Op>, timeline: string)
    requires forall i :: 0 <= i < |first| ==> Elsewhere(first[i], Synthetic(runId))
    requires forall i :: 0 <= i < |second| ==> Elsewhere(second[i], Synthetic(runId))
    ensures var seeded := SeedStep(s, runId, SEEDED_HOURS_AGO, before);
            var partial := if deleted then ProcessStep(v, seeded, Synthetic(runId)).0 else seeded;
            Execute(v, partial, runId, now, first, second, timeline)
            == Execute(v, s, runId, now, first, second, timeline)
  {
    var seeded := SeedStep(s, runId, SEEDED_HOURS_AGO, before);
    var partial := if deleted then ProcessStep(v, seeded, Synthetic(runId)).0 else seeded;
    ControlSeparatesVersions(v, partial, runId, now, first, second, timeline);
    ControlSeparatesVersions(v, s, runId, now, first, second, timeline);
  }

  /** `AccountDeletionControl.execute` against a store object. */
  method RunControl(store: SyntheticStore, runId: string, now: int, timeline: string) returns (verdict: Option<Verdict>)
    modifies store
    ensures verdict == Execute(store.version, old(store.View()), runId, now, [], [], timeline)
    ensures verdict == Some(if store.version == AsWritten then Contradicted else Supported)
  {
    ghost var before := store.View();
    ControlSeparatesVersions(store.version, before, runId, now, [], [], timeline);
    var id := store.Seed(runId, SEEDED_HOURS_AGO, now);
    var processing := store.ProcessDeletion(id);
    if processing.None? {
      return None;
    }
    var state := Inspect(store.View(), id);
    verdict := Some(CalculateVerdict(Evidence(state, processing.value, timeline, "")));
  }
}
