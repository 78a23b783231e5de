/** Who may publish a finding, and that somebody always can: exactly when a claim is granted, over the history of
    claims, releases and completions, and how a fresh worker gets its receipt from any reachable world. */
module IssueClaims {
  import opened Wrappers
  import opened IssueIntents
  import opened IssueProtocol

  /** Some worker completed the intent, and so wrote the durable receipt. */
  ghost predicate Completed(s: World, actions: seq<Action>) {
    exists v :: v in s.workers && Complete(v, true) in actions && s.workers[v].pc.Returned?
  }

  /** Worker `v` was granted a claim, has not given it back, and it has not run out. */
  predicate Outstanding(s: World, actions: seq<Action>, v: nat)
    requires v in s.workers
  {
    s.workers[v].expiry > s.clock && Release(v, true) !in actions
  }

  ghost predicate AnotherClaims(s: World, actions: seq<Action>, w: nat) {
    exists v :: v in s.workers && v != w && Outstanding(s, actions, v)
  }

  /** The intent tells the history: a receipt if it was completed, and otherwise the one claim that is outstanding. */
  ghost predicate Tells(s: World, actions: seq<Action>) {
    && s.clock >= 0
    && (forall v :: Release(v, true) in actions || Complete(v, true) in actions ==> v in s.workers)
    && (s.intent.Some? && s.intent.value.receipt.Some? <==> Completed(s, actions))
    && (s.intent.Some? && s.intent.value.receipt.None? ==>
          && s.intent.value.owner.Some? && s.intent.value.owner.value in s.workers
          && s.intent.value.expiresAt == s.workers[s.intent.value.owner.value].expiry
          && Release(s.intent.value.owner.value, true) !in actions)
    && (forall v :: v in s.workers && Outstanding(s, actions, v) ==>
          s.intent == Some(Intent(Some(v), s.workers[v].expiry, None))
          || (s.intent.Some? && s.intent.value.receipt.Some?))
    && forall v :: v in s.workers ==>
         && (s.workers[v].pc.Claiming? ==> s.workers[v].expiry == 0)
         && (s.workers[v].pc.Claiming? || InPublication(s.workers[v].pc) ==>
               Release(v, true) !in actions && Complete(v, true) !in actions)
         && (Release(v, true) in actions ==> s.workers[v].pc == Raised(Refused))
  }

  /** After its claim was granted, and before it has completed or released it. */
  predicate InPublication(pc: Pc) {
    pc.Tokening? || pc.Searching? || pc.Posting? || pc.Awaiting? || pc.Reconciling? || pc.Completing? || pc.Releasing?
  }

  lemma ClaimTells(s: World, past: seq<Action>, w: nat)
    requires Tells(s, past) && Enabled(s, Claim(w, true))
    ensures Tells(ClaimOnce(s, w), past + [Claim(w, true)])
  {
    var s' := ClaimOnce(s, w);
    SameMentions(past, Claim(w, true));
    CompletedStays(s, past, Claim(w, true));
    assert s' == Perform(s, Claim(w, true));
    hide Completed, Perform;
  }

  /** Only a completion or a release mentions one. */
  lemma SameMentions(past: seq<Action>, a: Action)
    ensures forall v :: Release(v, true) in past + [a] <==> Release(v, true) in past || a == Release(v, true)
    ensures forall v :: Complete(v, true) in past + [a] <==> Complete(v, true) in past || a == Complete(v, true)
  {
  }

  lemma CompletedStays(s: World, past: seq<Action>, a: Action)
    requires Tells(s, past) && Enabled(s, a) && !(a.Complete? && a.reached)
    ensures Completed(Perform(s, a), past + [a]) <==> Completed(s, past)
  {
    SameMentions(past, a);
    var s' := Perform(s, a);
    if v :| v in s.workers && Complete(v, true) in past && s.workers[v].pc.Returned? {
      assert v in s'.workers && Complete(v, true) in past + [a] && s'.workers[v].pc.Returned?;
    }
    if v :| v in s'.workers && Complete(v, true) in past + [a] && s'.workers[v].pc.Returned? {
      assert v in s.workers && Complete(v, true) in past && s.workers[v].pc.Returned?;
    }
  }

  lemma CompleteTells(s: World, past: seq<Action>, w: nat)
    requires Tells(s, past) && Enabled(s, Complete(w, true))
    ensures Tells(Perform(s, Complete(w, true)), past + [Complete(w, true)])
  {
    var s' := Perform(s, Complete(w, true));
    SameMentions(past, Complete(w, true));
    if v :| v in s.workers && Complete(v, true) in past && s.workers[v].pc.Returned? {
      assert v in s'.workers && Complete(v, true) in past + [Complete(w, true)] && s'.workers[v].pc.Returned?;
    }
    if s'.workers[w].pc.Returned? {
      assert w in s'.workers && Complete(w, true) in past + [Complete(w, true)];
    }
  }

  lemma ReleaseTells(s: World, past: seq<Action>, w: nat)
    requires Tells(s, past) && Enabled(s, Release(w, true))
    ensures Tells(Perform(s, Release(w, true)), past + [Release(w, true)])
  {
    CompletedStays(s, past, Release(w, true));
    SameMentions(past, Release(w, true));
    hide Completed;
  }

  lemma EnvironmentTells(s: World, past: seq<Action>, a: Action)
    requires Tells(s, past) && Enabled(s, a) && (a.Arrive? || a.Tick?)
    ensures Tells(Perform(s, a), past + [a])
  {
    CompletedStays(s, past, a);
    SameMentions(past, a);
    hide Completed;
  }

  /** Everything else moves one worker and leaves the intent alone. */
  lemma MoveTells(s: World, past: seq<Action>, a: Action)
    requires Tells(s, past) && Enabled(s, a) && !a.Arrive? && !a.Tick?
    requires !((a.Complete? || a.Claim? || a.Release?) && a.reached)
    ensures Tells(Perform(s, a), past + [a])
  {
    hide Completed, Perform, Enabled;
    CompletedStays(s, past, a);
    SameMentions(past, a);
    Moved(s, a);
  }

  lemma Moved(s: World, a: Action)
    requires Enabled(s, a) && !a.Arrive? && !a.Tick?
    requires !((a.Complete? || a.Claim? || a.Release?) && a.reached)
    ensures a.worker in s.workers
    ensures var s' := Perform(s, a);
            && s'.clock == s.clock && s'.intent == s.intent && s'.workers.Keys == s.workers.Keys
            && (forall v :: v in s.workers && v != a.worker ==> s'.workers[v] == s.workers[v])
            && s'.workers[a.worker].expiry == s.workers[a.worker].expiry
            && (s'.workers[a.worker].pc.Claiming? ==> s.workers[a.worker].pc.Claiming?)
            && (InPublication(s'.workers[a.worker].pc) ==> InPublication(s.workers[a.worker].pc))
            && (s.workers[a.worker].pc == Raised(Refused) ==> s'.workers[a.worker].pc == Raised(Refused))
  {
  }

  lemma ActionTells(s: World, past: seq<Action>, a: Action)
    requires Tells(s, past) && Enabled(s, a)
    ensures Tells(Perform(s, a), past + [a])
  {
    if a.Claim? && a.reached {
      ClaimTells(s, past, a.worker);
    } else if a.Complete? && a.reached {
      CompleteTells(s, past, a.worker);
    } else if a.Release? && a.reached {
      ReleaseTells(s, past, a.worker);
    } else if a.Arrive? || a.Tick? {
      EnvironmentTells(s, past, a);
    } else {
      MoveTells(s, past, a);
    }
  }

  lemma {:induction false} HistoryTells(s: World, past: seq<Action>, rest: seq<Action>)
    requires Tells(s, past) && Happens(s, rest)
    ensures Tells(After(s, rest), past + rest)
    decreases rest
  {
    if rest == [] {
      assert past + rest == past;
    } else {
      ActionTells(s, past, rest[0]);
      HistoryTells(Perform(s, rest[0]), past + [rest[0]], rest[1..]);
      assert past + [rest[0]] + rest[1..] == past + rest;
    }
  }

  /** In every reachable world a claim is granted if and only if nobody has completed the intent and no other worker's
      claim is outstanding. So the claim of a dead worker blocks nobody once it has expired. */
  lemma ClaimedExactly(actions: seq<Action>, w: nat)
    requires Happens(START, actions) && Enabled(After(START, actions), Claim(w, true))
    ensures var s := After(START, actions);
            Perform(s, Claim(w, true)).workers[w].pc.Tokening?
            <==> !Completed(s, actions) && !AnotherClaims(s, actions, w)
  {
    HistoryTells(START, [], actions);
    assert [] + actions == actions;
    hide Happens, After;
  }

  // ----- From every reachable world the finding can still be published.

  lemma {:induction false} HappensAppend(s: World, first: seq<Action>, rest: seq<Action>)
    requires Happens(s, first) && Happens(After(s, first), rest)
    ensures Happens(s, first + rest) && After(s, first + rest) == After(After(s, first), rest)
    decreases first
  {
    if first == [] {
      assert first + rest == rest;
    } else {
      assert (first + rest)[1..] == first[1..] + rest;
      HappensAppend(Perform(s, first[0]), first[1..], rest);
    }
  }

  lemma OneAction(s: World, a: Action)
    requires Enabled(s, a)
    ensures Happens(s, [a]) && After(s, [a]) == Perform(s, a)
  {
    assert [a][1..] == [];
  }

  lemma {:induction false} Fresh(keys: set<nat>) returns (v: nat)
    ensures forall k :: k in keys ==> k < v
    decreases keys
  {
    if keys == {} {
      v := 0;
    } else {
      var k :| k in keys;
      var rest := Fresh(keys - {k});
      v := if rest <= k then k + 1 else rest;
      assert forall other :: other in keys ==> other == k || other in keys - {k};
    }
  }

  /** A fresh worker arrives once the intent's claim has run out. */
  lemma Arrives(s: World) returns (w: nat, actions: seq<Action>)
    ensures Happens(s, actions)
    ensures var after := After(s, actions);
            && w !in s.workers && w in after.workers && after.workers[w].pc.Claiming?
            && after.workers[w].landed.None?
            && after.intent == s.intent && after.issues == s.issues
            && (s.intent.Some? ==> after.clock >= s.intent.value.expiresAt)
  {
    w := Fresh(s.workers.Keys);
    var late := s.intent.Some? && s.intent.value.expiresAt > s.clock;
    var wait := Tick(if late then s.intent.value.expiresAt - s.clock else 0);
    var s1 := Perform(s, wait);
    OneAction(s, wait);
    OneAction(s1, Arrive(w));
    HappensAppend(s, [wait], [Arrive(w)]);
    actions := [wait] + [Arrive(w)];
  }

  /** It is granted the claim, or returns the durable receipt at once. */
  lemma Claims(s: World, w: nat)
    requires w in s.workers && s.workers[w].pc.Claiming? && s.workers[w].landed.None?
    requires s.intent.Some? ==> s.clock >= s.intent.value.expiresAt || s.intent.value.receipt.Some?
    ensures Happens(s, [Claim(w, true)])
    ensures var after := After(s, [Claim(w, true)]);
            && w in after.workers && after.issues == s.issues
            && if s.intent.Some? && s.intent.value.receipt.Some? then after.workers[w].pc.Returned?
               else
                 && after.workers[w].pc.Tokening? && after.clock < after.workers[w].expiry
                 && after.workers[w].landed.None?
                 && after.intent == Some(Intent(Some(w), after.workers[w].expiry, None))
  {
    OneAction(s, Claim(w, true));
  }

  /** It holds the intent, and its receipt names an issue. */
  predicate Holding(s: World, w: nat) {
    w in s.workers && s.clock < s.workers[w].expiry && s.intent == Some(Intent(Some(w), s.workers[w].expiry, None))
  }

  lemma CompletesIt(s: World, w: nat)
    requires Holding(s, w) && s.workers[w].pc.Completing?
    ensures Happens(s, [Complete(w, true)]) && w in After(s, [Complete(w, true)]).workers
    ensures After(s, [Complete(w, true)]).workers[w].pc.Returned?
  {
    OneAction(s, Complete(w, true));
  }

  /** The marker search finds what exists, or the POST creates it. */
  lemma FindsOrPosts(s: World, w: nat) returns (actions: seq<Action>)
    requires Holding(s, w) && s.workers[w].pc.Searching? && s.workers[w].landed.None?
    ensures Happens(s, actions)
    ensures Holding(After(s, actions), w) && After(s, actions).workers[w].pc.Completing?
  {
    if n :| n in s.issues {
      OneAction(s, Search(w, true, Some(n)));
      actions := [Search(w, true, Some(n))];
    } else {
      OneAction(s, Search(w, true, None));
      var s1 := Perform(s, Search(w, true, None));
      OneAction(s1, Send(w));
      var s2 := Perform(s1, Send(w));
      OneAction(s2, Land(w, 1));
      var s3 := Perform(s2, Land(w, 1));
      OneAction(s3, Confirm(w));
      HappensAppend(s2, [Land(w, 1)], [Confirm(w)]);
      HappensAppend(s1, [Send(w)], [Land(w, 1)] + [Confirm(w)]);
      HappensAppend(s, [Search(w, true, None)], [Send(w)] + ([Land(w, 1)] + [Confirm(w)]));
      actions := [Search(w, true, None)] + ([Send(w)] + ([Land(w, 1)] + [Confirm(w)]));
    }
  }

  lemma Publishes(s: World, w: nat) returns (actions: seq<Action>)
    requires Holding(s, w) && s.workers[w].pc.Tokening? && s.workers[w].landed.None?
    ensures Happens(s, actions) && w in After(s, actions).workers && After(s, actions).workers[w].pc.Returned?
  {
    OneAction(s, Token(w, true));
    var s1 := Perform(s, Token(w, true));
    var found := FindsOrPosts(s1, w);
    hide Happens, After, Perform, Enabled;
    var s2 := After(s1, found);
    CompletesIt(s2, w);
    HappensAppend(s1, found, [Complete(w, true)]);
    HappensAppend(s, [Token(w, true)], found + [Complete(w, true)]);
    actions := [Token(w, true)] + (found + [Complete(w, true)]);
  }

  /** Whatever crashed, failed or lost its reply before: after every history there is a continuation in which a worker
      that has not yet arrived returns a receipt. */
  lemma AlwaysPublishable(first: seq<Action>) returns (w: nat, rest: seq<Action>)
    requires Happens(START, first)
    ensures w !in After(START, first).workers
    ensures Happens(After(START, first), rest)
    ensures var s := After(After(START, first), rest); w in s.workers && s.workers[w].pc.Returned?
  {
    var s := After(START, first);
    hide Happens, After;
    var arrival;
    w, arrival := Arrives(s);
    var s1 := After(s, arrival);
    Claims(s1, w);
    var s2 := After(s1, [Claim(w, true)]);
    HappensAppend(s, arrival, [Claim(w, true)]);
    rest := arrival + [Claim(w, true)];
    if !s2.workers[w].pc.Returned? {
      var last := Publishes(s2, w);
      HappensAppend(s, rest, last);
      rest := rest + last;
    }
  }
}
