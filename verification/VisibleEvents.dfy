/** What the visible-text parser (source.py) captures, said about the document's events alone: which data is visible,
    what a claim holds, and which claims are marked. */
module VisibleEvents {
  import opened Wrappers
  import opened VisibleText
  import opened Source

  // ----- Suppressed stretches: script, style and noscript elements.

  /** A suppressing tag opens or closes; an end closes the nearest one that is open, whatever its name. */
  function Delta(e: Event): int {
    match e
    case Start(tag, _) => if tag in HIDDEN then 1 else 0
    case End(tag) => if tag in HIDDEN then -1 else 0
    case Data(_) => 0
  }

  const HIDDEN := {"script", "style", "noscript"}

  /** Suppressing starts less suppressing ends in `events[i..j]`. */
  function Net(events: seq<Event>, i: nat, j: nat): int
    requires i <= j <= |events|
    decreases j
  {
    if i == j then 0 else Net(events, i, j - 1) + Delta(events[j - 1])
  }

  /** No part of `events[i..j]` that begins at `i` closes more than it opens. */
  ghost predicate NeverBelow(events: seq<Event>, i: nat, j: nat)
    requires i <= j <= |events|
  {
    forall m :: i <= m <= j ==> Net(events, i, m) >= 0
  }

  /** The suppressing end at `k` matches the suppressing start at `i`: what lies between is balanced. */
  ghost predicate Matches(events: seq<Event>, i: nat, k: nat) {
    && i < k < |events| && Delta(events[i]) == 1 && Delta(events[k]) == -1
    && Net(events, i + 1, k) == 0 && NeverBelow(events, i + 1, k)
  }

  /** Position `p` lies in a suppressing element: one starts before it and has no matching end before it. */
  ghost predicate Inside(events: seq<Event>, p: nat)
    requires p <= |events|
  {
    exists i :: 0 <= i < p && Delta(events[i]) == 1 && forall k :: i < k < p ==> !Matches(events, i, k)
  }

  lemma {:induction false} NetSplits(events: seq<Event>, i: nat, m: nat, j: nat)
    requires i <= m <= j <= |events|
    ensures Net(events, i, j) == Net(events, i, m) + Net(events, m, j)
    decreases j
  {
    if m < j {
      NetSplits(events, i, m, j - 1);
    }
  }

  function At(events: seq<Event>, p: nat): ParserState
    requires p <= |events|
  {
    Parse(INITIAL, events[..p])
  }

  lemma Next(events: seq<Event>, p: nat)
    requires p < |events|
    ensures At(events, p + 1) == OnEvent(At(events, p), events[p])
  {
    assert events[..p + 1][..p] == events[..p];
  }

  lemma StartsEmpty(events: seq<Event>)
    ensures At(events, 0) == INITIAL
  {
  }

  /** The parser's depth is the largest surplus of a stretch that ends here. */
  lemma {:induction false} DepthBounds(events: seq<Event>, i: nat, p: nat)
    requires i <= p <= |events|
    ensures Net(events, i, p) <= At(events, p).suppressedDepth
    decreases p
  {
    if i < p {
      DepthBounds(events, i, p - 1);
      Next(events, p - 1);
      hide OnData;
    }
  }

  lemma {:induction false} DepthReached(events: seq<Event>, p: nat) returns (i: nat)
    requires p <= |events|
    ensures i <= p && Net(events, i, p) == At(events, p).suppressedDepth
    decreases p
  {
    if p == 0 {
      i := 0;
    } else {
      i := DepthReached(events, p - 1);
      Next(events, p - 1);
      hide OnData;
      if At(events, p).suppressedDepth == 0 && Net(events, i, p) != 0 {
        i := p;
      }
    }
  }

  lemma NotMatched(events: seq<Event>, i: nat, k: nat)
    requires i < k < |events| && !Matches(events, i, k)
    requires Delta(events[i]) == 1 && NeverBelow(events, i + 1, k) && Net(events, i + 1, k) == 0
    ensures Delta(events[k]) != -1
  {
  }

  /** After a start without a matching end, no stretch closes more than it opens. */
  lemma {:induction false} StaysOpen(events: seq<Event>, i: nat, p: nat)
    requires i < p <= |events| && Delta(events[i]) == 1
    requires forall k :: i < k < p ==> !Matches(events, i, k)
    ensures NeverBelow(events, i + 1, p)
    decreases p
  {
    if i + 1 < p {
      StaysOpen(events, i, p - 1);
      assert Net(events, i + 1, p - 1) >= 0;
      if Net(events, i + 1, p - 1) == 0 {
        NotMatched(events, i, p - 1);
      }
    }
  }

  /** The last start whose stretch has a surplus has no matching end. */
  lemma {:induction false} LastSurplus(events: seq<Event>, i: nat, p: nat) returns (j: nat)
    requires i <= p <= |events| && Net(events, i, p) >= 1
    ensures i <= j < p && Net(events, j, p) >= 1 && forall m :: j < m <= p ==> Net(events, m, p) <= 0
    decreases p - i
  {
    if m: nat :| i < m <= p && Net(events, m, p) >= 1 {
      j := LastSurplus(events, m, p);
    } else {
      j := i;
    }
  }

  lemma SurplusStarts(events: seq<Event>, j: nat, p: nat)
    requires j < p <= |events| && Net(events, j, p) >= 1 && forall m :: j < m <= p ==> Net(events, m, p) <= 0
    ensures Delta(events[j]) == 1 && forall k :: j < k < p ==> !Matches(events, j, k)
  {
    NetSplits(events, j, j + 1, p);
    assert Net(events, j, j + 1) == Delta(events[j]) by { assert Net(events, j, j) == 0; }
    forall k | j < k < p ensures !Matches(events, j, k) {
      if Matches(events, j, k) {
        AfterMatch(events, j, k, p);
      }
    }
  }

  lemma AfterMatch(events: seq<Event>, j: nat, k: nat, p: nat)
    requires k < p <= |events| && Matches(events, j, k)
    ensures Net(events, k + 1, p) == Net(events, j + 1, p) + 1
  {
    NetSplits(events, j + 1, k, p);
    NetSplits(events, k, k + 1, p);
    assert Net(events, k, k) == 0;
  }

  /** The parser suppresses exactly inside suppressing elements. */
  lemma SuppressedExactly(events: seq<Event>, p: nat)
    requires p <= |events|
    ensures At(events, p).suppressedDepth > 0 <==> Inside(events, p)
  {
    if At(events, p).suppressedDepth > 0 {
      var i := DepthReached(events, p);
      var j := LastSurplus(events, i, p);
      SurplusStarts(events, j, p);
    }
    if Inside(events, p) {
      var i :| 0 <= i < p && Delta(events[i]) == 1 && forall k :: i < k < p ==> !Matches(events, i, k);
      StaysOpen(events, i, p);
      NetSplits(events, i, i + 1, p);
      assert Net(events, i, i + 1) == 1 by { assert Net(events, i, i) == 0; }
      DepthBounds(events, i, p);
    }
  }

  // ----- What is visible.

  /** What an event adds to the visible parts of a parser. */
  function Heard(s: ParserState, e: Event): seq<string> {
    if e.Data? && s.suppressedDepth == 0 && Normalize(e.data) != "" then [Normalize(e.data)] else []
  }

  lemma EventSays(s: ParserState, e: Event)
    ensures OnEvent(s, e).visible == s.visible + Heard(s, e)
    ensures OnEvent(s, e).titleParts == s.titleParts + if s.inTitle then Heard(s, e) else []
  {
    hide Normalize, ClaimId, WithPart;
  }

  lemma HeardIsWord(events: seq<Event>, q: nat)
    requires q < |events|
    ensures Heard(At(events, q), events[q]) == Word(events, q)
  {
    SuppressedExactly(events, q);
    hide Normalize, Inside, At;
  }

  /** What the event at `q` says: the normalized text of data outside every suppressing element, if there is any. */
  ghost function Word(events: seq<Event>, q: nat): seq<string>
    requires q < |events|
  {
    if events[q].Data? && !Inside(events, q) && Normalize(events[q].data) != "" then [Normalize(events[q].data)] else []
  }

  /** What `events[i..p]` say, in order. */
  ghost function Spoken(events: seq<Event>, i: nat, p: nat): seq<string>
    requires i <= p <= |events|
    decreases p
  {
    if i == p then [] else Spoken(events, i, p - 1) + Word(events, p - 1)
  }

  /** The visible parts are exactly the non-empty normalized data outside script, style and noscript, in order. */
  lemma {:induction false} VisibleExactly(events: seq<Event>, p: nat)
    requires p <= |events|
    ensures At(events, p).visible == Spoken(events, 0, p)
    decreases p
  {
    StartsEmpty(events);
    if p > 0 {
      hide At, Word, Heard, OnEvent;
      VisibleExactly(events, p - 1);
      HeardIsWord(events, p - 1);
      EventSays(At(events, p - 1), events[p - 1]);
      Next(events, p - 1);
    }
  }

  // ----- The title.

  ghost predicate TitleStart(events: seq<Event>, i: nat) {
    i < |events| && events[i].Start? && events[i].tag == "title" && !Inside(events, i)
  }

  ghost predicate TitleEnd(events: seq<Event>, k: nat) {
    k < |events| && events[k].End? && events[k].endTag == "title" && !Inside(events, k)
  }

  ghost predicate InTitle(events: seq<Event>, p: nat)
    requires p <= |events|
  {
    exists i :: 0 <= i < p && TitleStart(events, i) && forall k :: i < k < p ==> !TitleEnd(events, k)
  }

  lemma EventTitles(s: ParserState, e: Event)
    ensures OnEvent(s, e).inTitle
            <==> || (e.Start? && e.tag == "title" && s.suppressedDepth == 0)
                 || (s.inTitle && !(e.End? && e.endTag == "title" && s.suppressedDepth == 0))
  {
    hide Normalize, ClaimId, WithPart, Join;
  }

  lemma {:induction false} TitleExactly(events: seq<Event>, p: nat)
    requires p <= |events|
    ensures At(events, p).inTitle <==> InTitle(events, p)
    decreases p
  {
    StartsEmpty(events);
    if p > 0 {
      var q := p - 1;
      TitleExactly(events, q);
      SuppressedExactly(events, q);
      Next(events, q);
      TitleNext(events, q);
      EventTitles(At(events, q), events[q]);
      hide Inside, InTitle, OnEvent, At;
    }
  }

  lemma TitleNext(events: seq<Event>, p: nat)
    requires p < |events|
    ensures InTitle(events, p + 1)
            <==> TitleStart(events, p) || (InTitle(events, p) && !TitleEnd(events, p))
  {
    hide Inside;
    if InTitle(events, p) && !TitleEnd(events, p) {
      var i :| 0 <= i < p && TitleStart(events, i) && forall k :: i < k < p ==> !TitleEnd(events, k);
      assert forall k :: i < k < p + 1 ==> !TitleEnd(events, k);
    }
    if i :| 0 <= i < p + 1 && TitleStart(events, i) && forall k :: i < k < p + 1 ==> !TitleEnd(events, k) {
      if i < p {
        assert forall k :: i < k < p ==> !TitleEnd(events, k);
      }
    }
  }

  ghost function TitleWords(events: seq<Event>, p: nat): seq<string>
    requires p <= |events|
  {
    if p == 0 then []
    else TitleWords(events, p - 1) + if InTitle(events, p - 1) then Word(events, p - 1) else []
  }

  lemma TitleWordsNext(events: seq<Event>, q: nat)
    requires q < |events|
    ensures TitleWords(events, 0) == [] && INITIAL.titleParts == []
    ensures TitleWords(events, q + 1) == TitleWords(events, q) + if InTitle(events, q) then Word(events, q) else []
  {
    hide Word, InTitle;
  }

  /** The title parts are what is said inside title elements. */
  lemma {:induction false} TitlePartsExactly(events: seq<Event>, p: nat)
    requires p <= |events|
    ensures At(events, p).titleParts == TitleWords(events, p)
    decreases p
  {
    StartsEmpty(events);
    if p > 0 {
      var q := p - 1;
      TitlePartsExactly(events, q);
      HeardIsWord(events, q);
      TitleExactly(events, q);
      EventSays(At(events, q), events[q]);
      Next(events, q);
      TitleWordsNext(events, q);
      hide *;
      var s := At(events, q);
      assert At(events, p) == OnEvent(s, events[q]);
      assert s.inTitle <==> InTitle(events, q);
    }
  }

  // ----- Claims.

  ghost predicate ClaimStart(events: seq<Event>, i: nat) {
    && i < |events| && events[i].Start? && !Suppresses(events[i].tag) && !Inside(events, i)
    && ClaimId(events[i].attributes) != ""
  }

  /** The claim that starts at `i` is still open before the event at `p`. */
  ghost predicate Open(events: seq<Event>, i: nat, p: nat)
    decreases p, 0
  {
    ClaimStart(events, i) && i < p && forall k :: i < k < p ==> !Closes(events, i, k)
  }

  /** An end outside suppressing elements closes the innermost open claim, if the tag is that claim's. */
  ghost predicate Closes(events: seq<Event>, i: nat, k: nat)
    decreases k, 1
  {
    && k < |events| && events[k].End? && !Inside(events, k)
    && Open(events, i, k) && events[k].endTag == events[i].tag
    && forall j :: i < j < k ==> !Open(events, j, k)
  }

  /** A claim with its own tag and id and with what has been said since its start tag. */
  ghost function ClaimAt(events: seq<Event>, i: nat, p: nat): OpenClaim
    requires i < p <= |events| && events[i].Start?
  {
    OpenClaim(events[i].tag, ClaimId(events[i].attributes), Spoken(events, i + 1, p))
  }

  /** The claims among the first `m` events that are open before `p`, in order of their starts. */
  ghost function Claims(events: seq<Event>, m: nat, p: nat): seq<OpenClaim>
    requires m <= p <= |events|
    decreases m
  {
    if m == 0 then []
    else Claims(events, m - 1, p) + if Open(events, m - 1, p) then [ClaimAt(events, m - 1, p)] else []
  }

  lemma OpenNext(events: seq<Event>, i: nat, p: nat)
    requires i <= p < |events|
    ensures Open(events, i, p + 1)
            <==> if i == p then ClaimStart(events, p) else Open(events, i, p) && !Closes(events, i, p)
  {
    hide ClaimStart, Closes;
    if i < p && Open(events, i, p) && !Closes(events, i, p) {
      assert forall k :: i < k < p + 1 ==> !Closes(events, i, k);
    }
  }

  lemma SpokenNext(events: seq<Event>, i: nat, p: nat)
    requires i <= p < |events|
    ensures Spoken(events, i, p + 1) == Spoken(events, i, p) + Word(events, p)
  {
  }

  /** An event that closes none of the first `m` claims adds its word to each that is open. */
  lemma {:induction false} ClaimsGoOn(events: seq<Event>, m: nat, p: nat)
    requires m <= p < |events| && forall i :: 0 <= i < m ==> !Closes(events, i, p)
    ensures |Claims(events, m, p + 1)| == |Claims(events, m, p)|
    ensures forall k :: 0 <= k < |Claims(events, m, p)| ==>
              Claims(events, m, p + 1)[k]
              == Claims(events, m, p)[k].(parts := Claims(events, m, p)[k].parts + Word(events, p))
    decreases m
  {
    hide Open, Closes, Word;
    if m > 0 {
      ClaimsGoOn(events, m - 1, p);
      OpenNext(events, m - 1, p);
      if Open(events, m - 1, p) {
        OpenStarts(events, m - 1, p);
        SpokenNext(events, m, p);
      }
    }
  }

  lemma OpenStarts(events: seq<Event>, i: nat, p: nat)
    requires Open(events, i, p) || Closes(events, i, p)
    ensures ClaimStart(events, i) && i < p && i < |events| && events[i].Start?
  {
  }

  /** The innermost open claim is the last. */
  lemma {:induction false} Innermost(events: seq<Event>, m: nat, p: nat) returns (i: nat)
    requires m <= p <= |events| && Claims(events, m, p) != []
    ensures i < m && Open(events, i, p) && forall j :: i < j < m ==> !Open(events, j, p)
    ensures i < p && events[i].Start?
    ensures Claims(events, m, p) == Claims(events, i, p) + [ClaimAt(events, i, p)]
    decreases m
  {
    hide Open;
    if Open(events, m - 1, p) {
      i := m - 1;
      OpenStarts(events, i, p);
    } else {
      i := Innermost(events, m - 1, p);
    }
  }

  lemma {:induction false} NoneOpen(events: seq<Event>, m: nat, n: nat, p: nat)
    requires m <= n <= p <= |events| && forall j :: m <= j < n ==> !Open(events, j, p)
    ensures Claims(events, n, p) == Claims(events, m, p)
    decreases n
  {
    hide Open;
    if m < n {
      NoneOpen(events, m, n - 1, p);
    }
  }

  lemma {:induction false} OpenIsListed(events: seq<Event>, i: nat, m: nat, p: nat)
    requires i < m <= p <= |events| && Open(events, i, p)
    ensures Claims(events, m, p) != []
    decreases m
  {
    hide Open;
    if i < m - 1 {
      OpenIsListed(events, i, m - 1, p);
    }
  }

  /** What an event does to the stack of a parser. */
  predicate Pops(s: ParserState, e: Event) {
    && e.End? && s.suppressedDepth == 0
    && s.claimStack != [] && s.claimStack[|s.claimStack| - 1].tag == e.endTag && !Suppresses(e.endTag)
  }

  function Pushed(s: ParserState, e: Event): seq<OpenClaim> {
    if e.Start? && !Suppresses(e.tag) && s.suppressedDepth == 0 && ClaimId(e.attributes) != "" then
      [OpenClaim(e.tag, ClaimId(e.attributes), [])]
    else []
  }

  lemma EventStacks(s: ParserState, e: Event)
    requires forall k :: 0 <= k < |s.claimStack| ==> !Suppresses(s.claimStack[k].tag)
    ensures Pops(s, e) ==> OnEvent(s, e).claimStack == s.claimStack[..|s.claimStack| - 1]
    ensures !Pops(s, e) ==>
              && |OnEvent(s, e).claimStack| == |s.claimStack| + |Pushed(s, e)|
              && OnEvent(s, e).claimStack[|s.claimStack|..] == Pushed(s, e)
              && forall k :: 0 <= k < |s.claimStack| ==>
                   OnEvent(s, e).claimStack[k] == s.claimStack[k].(parts := s.claimStack[k].parts + Heard(s, e))
  {
    hide Normalize, ClaimId;
    assert forall c: OpenClaim :: c.(parts := c.parts + []) == c;
  }

  lemma {:induction false} ClaimTags(events: seq<Event>, m: nat, p: nat)
    requires m <= p <= |events|
    ensures forall k :: 0 <= k < |Claims(events, m, p)| ==> !Suppresses(Claims(events, m, p)[k].tag)
    decreases m
  {
    if m > 0 {
      ClaimTags(events, m - 1, p);
      if Open(events, m - 1, p) {
        assert ClaimStart(events, m - 1);
      }
    }
  }

  /** The parser pops exactly when the end closes the innermost open claim. */
  lemma PopsExactly(events: seq<Event>, q: nat)
    requires q < |events| && At(events, q).claimStack == Claims(events, q, q)
    ensures Pops(At(events, q), events[q]) <==> exists i :: Closes(events, i, q)
  {
    SuppressedExactly(events, q);
    ClaimTags(events, q, q);
    hide At, Inside, Open, Claims;
    if Pops(At(events, q), events[q]) {
      var i := Innermost(events, q, q);
      assert Closes(events, i, q);
    }
    if i :| Closes(events, i, q) {
      OpenStarts(events, i, q);
      OpenIsListed(events, i, q, q);
      var j := Innermost(events, q, q);
      assert i == j;
    }
  }

  lemma StackGoesOn(events: seq<Event>, q: nat)
    requires q < |events| && At(events, q).claimStack == Claims(events, q, q)
    requires forall i :: !Closes(events, i, q)
    ensures At(events, q + 1).claimStack == Claims(events, q + 1, q + 1)
  {
    PopsExactly(events, q);
    ClaimTags(events, q, q);
    EventStacks(At(events, q), events[q]);
    HeardIsWord(events, q);
    SuppressedExactly(events, q);
    ClaimsGoOn(events, q, q);
    OpenNext(events, q, q);
    Next(events, q);
    hide At, Inside, Open, Closes, Heard, Word, OnEvent, Normalize, ClaimId;
    assert Claims(events, q + 1, q + 1)
           == Claims(events, q, q + 1) + if Open(events, q, q + 1) then [ClaimAt(events, q, q + 1)] else [];
    assert Pushed(At(events, q), events[q])
           == if Open(events, q, q + 1) then [ClaimAt(events, q, q + 1)] else [];
    hide Claims, Pushed;
    var s, t := At(events, q).claimStack, At(events, q + 1).claimStack;
    assert t == t[..|s|] + t[|s|..];
    assert t[..|s|] == Claims(events, q, q + 1);
  }

  /** The claim that is closed is the last of the stack. */
  lemma ClosedIsTop(events: seq<Event>, q: nat, i: nat)
    requires q < |events| && At(events, q).claimStack == Claims(events, q, q) && Closes(events, i, q)
    ensures Pops(At(events, q), events[q]) && i < q && events[i].Start?
    ensures At(events, q).claimStack == Claims(events, i, q) + [ClaimAt(events, i, q)]
  {
    PopsExactly(events, q);
    OpenStarts(events, i, q);
    var last := ClosesLast(events, i, q);
    hide At, Open, Closes, Claims, Pops;
    OpenIsListed(events, i, q, q);
    var j := Innermost(events, q, q);
    assert i == j;
  }

  lemma ClosesLast(events: seq<Event>, i: nat, q: nat) returns (last: nat)
    requires Closes(events, i, q)
    ensures last == i && Open(events, i, q) && forall j :: i < j < q ==> !Open(events, j, q)
  {
    last := i;
  }

  lemma StackPops(events: seq<Event>, q: nat, i: nat)
    requires q < |events| && At(events, q).claimStack == Claims(events, q, q) && Closes(events, i, q)
    ensures At(events, q + 1).claimStack == Claims(events, q + 1, q + 1)
  {
    hide At, Open, Closes, Claims, OnEvent, Pops, Word;
    ClosedIsTop(events, q, i);
    ClaimTags(events, q, q);
    EventStacks(At(events, q), events[q]);
    Next(events, q);
    EndSaysNothing(events, i, q);
    OthersStayOpen(events, i, q, q + 1);
    NoneOpen(events, i, q + 1, q + 1);
    ClaimsGoOn(events, i, q);
    assert forall c: OpenClaim :: c.(parts := c.parts + []) == c;
    assert Claims(events, i, q + 1) == Claims(events, i, q);
  }

  lemma EndSaysNothing(events: seq<Event>, i: nat, q: nat)
    requires q < |events| && Closes(events, i, q)
    ensures Word(events, q) == []
  {
  }

  lemma OthersStayOpen(events: seq<Event>, i: nat, q: nat, p: nat)
    requires q < |events| && p == q + 1 && Closes(events, i, q)
    ensures forall j :: i <= j < p ==> !Open(events, j, p)
    ensures forall j :: 0 <= j < i ==> !Closes(events, j, q)
  {
    forall j | i <= j < p ensures !Open(events, j, p) {
      OpenNext(events, j, q);
    }
  }

  /** The open claims are exactly those that no end has closed, each holding what was said since its start tag. */
  lemma {:induction false} OpenClaimsExactly(events: seq<Event>, p: nat)
    requires p <= |events|
    ensures At(events, p).claimStack == Claims(events, p, p)
    decreases p
  {
    StartsEmpty(events);
    if p > 0 {
      OpenClaimsExactly(events, p - 1);
      hide At, Closes, Claims;
      var q := p - 1;
      if i: nat :| Closes(events, i, q) {
        StackPops(events, q, i);
      } else {
        StackGoesOn(events, q);
      }
    }
  }

  // ----- Marked claims.

  /** The claim from `i` to `k` is the last one closed under its id before `p`. */
  ghost predicate LastMarked(events: seq<Event>, i: nat, k: nat, p: nat)
    requires p <= |events|
  {
    && k < p && Closes(events, i, k)
    && forall j: nat, m: nat :: k < m < p && Closes(events, j, m) ==> IdAt(events, j) != IdAt(events, i)
  }

  function IdAt(events: seq<Event>, i: nat): string {
    if i < |events| && events[i].Start? then ClaimId(events[i].attributes) else ""
  }

  ghost predicate Marks(events: seq<Event>, id: string, p: nat)
    requires p <= |events|
  {
    exists i: nat, k: nat :: k < p && Closes(events, i, k) && IdAt(events, i) == id
  }

  lemma EventMarks(s: ParserState, e: Event)
    requires forall k :: 0 <= k < |s.claimStack| ==> !Suppresses(s.claimStack[k].tag)
    ensures Pops(s, e) ==>
              var top := s.claimStack[|s.claimStack| - 1];
              OnEvent(s, e).markedClaims == s.markedClaims[top.id := Normalize(Join(top.parts))]
    ensures !Pops(s, e) ==> OnEvent(s, e).markedClaims == s.markedClaims
  {
    hide Normalize, ClaimId, Join;
  }

  lemma MarksNext(events: seq<Event>, id: string, q: nat)
    requires q < |events|
    ensures Marks(events, id, q + 1)
            <==> Marks(events, id, q) || exists i: nat :: Closes(events, i, q) && IdAt(events, i) == id
  {
    hide Closes;
    if Marks(events, id, q) {
      var i: nat, k: nat :| k < q && Closes(events, i, k) && IdAt(events, i) == id;
      assert k < q + 1;
    }
    if i: nat :| Closes(events, i, q) && IdAt(events, i) == id {
      assert q < q + 1;
    }
  }

  lemma OneClosed(events: seq<Event>, i: nat, j: nat, q: nat)
    requires Closes(events, i, q) && Closes(events, j, q)
    ensures i == j
  {
    hide Inside, ClaimStart;
  }

  /** The text of the claim that starts at `i` and is closed at `k`. */
  ghost function TextOf(events: seq<Event>, i: nat, k: nat): string
    requires i < k <= |events|
  {
    Normalize(Join(Spoken(events, i + 1, k)))
  }

  /** The claims marked before `p` are those of the claims that were closed, each with what was said between the start
      and the end of the last one with its id. */
  ghost predicate MarkedRight(events: seq<Event>, p: nat)
    requires p <= |events|
  {
    && (forall id :: id in At(events, p).markedClaims <==> Marks(events, id, p))
    && forall i: nat, k: nat :: LastMarked(events, i, k, p) ==>
         && i < k && IdAt(events, i) in At(events, p).markedClaims
         && At(events, p).markedClaims[IdAt(events, i)] == TextOf(events, i, k)
  }

  lemma EventMarked(events: seq<Event>, q: nat, i: nat)
    requires q < |events| && At(events, q).claimStack == Claims(events, q, q) && Closes(events, i, q)
    ensures i < q
    ensures At(events, q + 1).markedClaims == At(events, q).markedClaims[IdAt(events, i) := TextOf(events, i, q)]
  {
    hide At, Closes, Claims, OnEvent, Pops;
    ClosedIsTop(events, q, i);
    ClaimTags(events, q, q);
    EventMarks(At(events, q), events[q]);
    Next(events, q);
  }

  lemma EventUnmarked(events: seq<Event>, q: nat)
    requires q < |events| && At(events, q).claimStack == Claims(events, q, q)
    requires forall i: nat :: !Closes(events, i, q)
    ensures At(events, q + 1).markedClaims == At(events, q).markedClaims
  {
    hide At, Closes, Claims, OnEvent, Pops;
    PopsExactly(events, q);
    ClaimTags(events, q, q);
    EventMarks(At(events, q), events[q]);
    Next(events, q);
  }

  lemma NothingMarked(events: seq<Event>)
    ensures MarkedRight(events, 0)
  {
    StartsEmpty(events);
    hide At;
  }

  /** The parser marks exactly these. */
  lemma {:induction false} MarkedExactly(events: seq<Event>, p: nat)
    requires p <= |events|
    ensures MarkedRight(events, p)
    decreases p
  {
    NothingMarked(events);
    if p > 0 {
      hide *;
      var q := p - 1;
      MarkedExactly(events, q);
      OpenClaimsExactly(events, q);
      PopsExactly(events, q);
      if i: nat :| Closes(events, i, q) {
        EventMarked(events, q, i);
        MarksOne(events, q, p, i);
      } else {
        EventUnmarked(events, q);
        MarksNone(events, q, p);
      }
    }
  }

  lemma MarksNone(events: seq<Event>, q: nat, p: nat)
    requires q < |events| && p == q + 1 && MarkedRight(events, q)
    requires At(events, p).markedClaims == At(events, q).markedClaims && forall i: nat :: !Closes(events, i, q)
    ensures MarkedRight(events, p)
  {
    hide At, Closes, Marks, LastMarked, TextOf;
    forall id ensures Marks(events, id, p) <==> Marks(events, id, q) {
      MarksNext(events, id, q);
    }
    forall i: nat, k: nat | LastMarked(events, i, k, p) ensures LastMarked(events, i, k, q) {
      LastBefore(events, i, k, q, p);
    }
  }

  lemma LastBefore(events: seq<Event>, i: nat, k: nat, q: nat, p: nat)
    requires q < |events| && p == q + 1 && LastMarked(events, i, k, p)
    ensures Closes(events, i, k)
    ensures k != q ==> LastMarked(events, i, k, q)
    ensures forall c: nat :: k != q && Closes(events, c, q) ==> IdAt(events, c) != IdAt(events, i)
  {
    hide Closes;
  }

  lemma MarksOne(events: seq<Event>, q: nat, p: nat, c: nat)
    requires q < |events| && p == q + 1 && MarkedRight(events, q) && Closes(events, c, q) && c < q
    requires At(events, p).markedClaims
             == At(events, q).markedClaims[IdAt(events, c) := TextOf(events, c, q)]
    ensures MarkedRight(events, p)
  {
    hide At, Closes, Marks, LastMarked, TextOf;
    forall i: nat ensures Closes(events, i, q) ==> i == c {
      if Closes(events, i, q) {
        OneClosed(events, i, c, q);
      }
    }
    forall id ensures Marks(events, id, p) <==> Marks(events, id, q) || id == IdAt(events, c) {
      MarksNext(events, id, q);
    }
    forall i: nat, k: nat | LastMarked(events, i, k, p)
      ensures if k == q then i == c else LastMarked(events, i, k, q) && IdAt(events, i) != IdAt(events, c)
    {
      LastBefore(events, i, k, q, p);
    }
  }

  // ----- The capture.

  /** The id that an element's attributes give a claim: that of the last attribute of the name, and none where this is
      missing, has no value or an empty one. */
  lemma ClaimIdExactly(attributes: seq<(string, Option<string>)>, i: nat)
    requires i < |attributes| && attributes[i].0 == "data-ipromise-claim"
    requires forall j :: i < j < |attributes| ==> attributes[j].0 != "data-ipromise-claim"
    ensures ClaimId(attributes) == if attributes[i].1.Some? then attributes[i].1.value else ""
  {
    DictLastWins(attributes, i);
  }

  lemma {:induction false} NoClaimId(attributes: seq<(string, Option<string>)>)
    requires forall j :: 0 <= j < |attributes| ==> attributes[j].0 != "data-ipromise-claim"
    ensures ClaimId(attributes) == ""
  {
    DictKeys(attributes);
  }

  lemma {:induction false} SpokenWords(events: seq<Event>, i: nat, p: nat)
    requires i <= p <= |events|
    ensures Words(Spoken(events, i, p))
    decreases p
  {
    if i < p {
      SpokenWords(events, i, p - 1);
      if events[p - 1].Data? {
        NormalizeIsNormal(events[p - 1].data);
      }
      hide Normalize, Normal, Inside;
    }
  }

  lemma {:induction false} TitleWordsWords(events: seq<Event>, p: nat)
    requires p <= |events|
    ensures Words(TitleWords(events, p))
    decreases p
  {
    if p > 0 {
      TitleWordsWords(events, p - 1);
      if events[p - 1].Data? {
        NormalizeIsNormal(events[p - 1].data);
      }
      hide Normalize, Normal, Inside, InTitle;
    }
  }

  /** The captured text is what the page says, joined by single spaces, and so is its title, but for a page without
      one. */
  lemma CapturedExactly(page: Page)
    ensures var said := Spoken(page.events, 0, |page.events|);
            var title := Join(TitleWords(page.events, |page.events|));
            && Captured(page).visibleText == Join(said)
            && Captured(page).title == if title == "" then "Untitled source" else title
  {
    var events := page.events;
    VisibleExactly(events, |events|);
    TitlePartsExactly(events, |events|);
    SpokenWords(events, 0, |events|);
    TitleWordsWords(events, |events|);
    JoinIsNormalized(Spoken(events, 0, |events|));
    JoinIsNormalized(TitleWords(events, |events|));
    assert events[..|events|] == events;
    assert At(events, |events|) == Parse(INITIAL, events);
    hide Normalize, Join, Spoken, TitleWords, Parse, Words;
  }

  // ----- Grounding.

  /** The last claim closed under an id. */
  lemma {:induction false} LastMark(events: seq<Event>, i: nat, k: nat, p: nat) returns (i': nat, k': nat)
    requires p <= |events| && k < p && Closes(events, i, k)
    ensures LastMarked(events, i', k', p) && IdAt(events, i') == IdAt(events, i)
    decreases p - k
  {
    hide Closes;
    if j: nat, m: nat :| k < m < p && Closes(events, j, m) && IdAt(events, j) == IdAt(events, i) {
      i', k' := LastMark(events, j, m, p);
    } else {
      i', k' := i, k;
    }
  }

  /** The quote is what was said in a claim that is the last one closed under its id. */
  ghost predicate QuotesClaim(events: seq<Event>, quote: string) {
    exists i: nat, k: nat :: LastMarked(events, i, k, |events|) && i < k && TextOf(events, i, k) == quote
  }

  ghost predicate AnyMarked(events: seq<Event>) {
    exists i: nat, k: nat :: k < |events| && Closes(events, i, k)
  }

  lemma MarkedQuote(events: seq<Event>, marked: map<string, string>, quote: string)
    requires MarkedRight(events, |events|) && marked == At(events, |events|).markedClaims
    ensures quote in marked.Values <==> QuotesClaim(events, quote)
    ensures marked != map[] <==> AnyMarked(events)
  {
    hide At, Closes, TextOf;
    var p := |events|;
    if quote in marked.Values {
      var id :| id in marked && marked[id] == quote;
      assert Marks(events, id, p);
      var i: nat, k: nat :| k < p && Closes(events, i, k) && IdAt(events, i) == id;
      var i', k' := LastMark(events, i, k, p);
      assert LastMarked(events, i', k', p);
    }
    if i: nat, k: nat :| LastMarked(events, i, k, p) && i < k && TextOf(events, i, k) == quote {
      assert marked[IdAt(events, i)] == quote;
    }
    if marked != map[] {
      var id :| id in marked;
      assert Marks(events, id, p);
    }
    if i: nat, k: nat :| k < p && Closes(events, i, k) {
      assert Marks(events, IdAt(events, i), p);
    }
  }

  /** A quote is accepted if and only if its normalized text is not empty and, where the page marks any claim, is all
      that was said in a claim that is the last one closed under its id, or, where it marks none, is part of what is
      said. */
  lemma GroundedExactly(page: Page, quote: string)
    ensures Grounded(quote, Captured(page))
            <==> && Normalize(quote) != ""
                 && if AnyMarked(page.events) then QuotesClaim(page.events, Normalize(quote))
                    else Occurs(Normalize(quote), Normalize(Join(Spoken(page.events, 0, |page.events|))))
  {
    var events := page.events;
    MarkedExactly(events, |events|);
    VisibleExactly(events, |events|);
    assert events[..|events|] == events;
    var s := At(events, |events|);
    assert s == Parse(INITIAL, events);
    MarkedQuote(events, s.markedClaims, Normalize(quote));
    hide MarkedRight, QuotesClaim, AnyMarked, Occurs, Normalize, Join, Spoken, Parse;
  }
}
