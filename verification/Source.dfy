/** The visible-text parser and the grounding test (source.py). */
module Source {
  import opened Wrappers
  import opened VisibleText

  datatype Event =
    | Start(tag: string, attributes: seq<(string, Option<string>)>)
    | End(endTag: string)
    | Data(data: string)

  datatype OpenClaim = OpenClaim(tag: string, id: string, parts: seq<string>)

  datatype ParserState = ParserState(
    visible: seq<string>, titleParts: seq<string>, markedClaims: map<string, string>,
    suppressedDepth: nat, inTitle: bool, claimStack: seq<OpenClaim>)

  const INITIAL := ParserState([], [], map[], 0, false, [])

  predicate Suppresses(tag: string) {
    tag == "script" || tag == "style" || tag == "noscript"
  }

  /** `dict(attrs).get("data-ipromise-claim")`, with no claim for an absent, valueless or empty attribute. */
  function ClaimId(attributes: seq<(string, Option<string>)>): string {
    var d := Dict(attributes);
    if "data-ipromise-claim" in d && d["data-ipromise-claim"].Some? then d["data-ipromise-claim"].value else ""
  }

  function WithPart(stack: seq<OpenClaim>, text: string): seq<OpenClaim> {
    seq(|stack|, i requires 0 <= i < |stack| => stack[i].(parts := stack[i].parts + [text]))
  }

  function OnStart(s: ParserState, tag: string, attributes: seq<(string, Option<string>)>): ParserState {
    if Suppresses(tag) then s.(suppressedDepth := s.suppressedDepth + 1)
    else if s.suppressedDepth > 0 then s
    else
      var id := ClaimId(attributes);
      s.(inTitle := s.inTitle || tag == "title",
         claimStack := if id != "" then s.claimStack + [OpenClaim(tag, id, [])] else s.claimStack)
  }

  function OnEnd(s: ParserState, tag: string): ParserState {
    if Suppresses(tag) && s.suppressedDepth > 0 then s.(suppressedDepth := s.suppressedDepth - 1)
    else if s.suppressedDepth > 0 then s
    else
      var t := s.(inTitle := s.inTitle && tag != "title");
      if s.claimStack != [] && s.claimStack[|s.claimStack| - 1].tag == tag then
        var top := s.claimStack[|s.claimStack| - 1];
        t.(claimStack := s.claimStack[..|s.claimStack| - 1],
           markedClaims := s.markedClaims[top.id := Normalize(Join(top.parts))])
      else t
  }

  function OnData(s: ParserState, data: string): ParserState {
    if s.suppressedDepth > 0 || Normalize(data) == "" then s
    else
      var text := Normalize(data);
      s.(visible := s.visible + [text],
         titleParts := if s.inTitle then s.titleParts + [text] else s.titleParts,
         claimStack := WithPart(s.claimStack, text))
  }

  function OnEvent(s: ParserState, e: Event): ParserState {
    match e
    case Start(tag, attributes) => OnStart(s, tag, attributes)
    case End(tag) => OnEnd(s, tag)
    case Data(data) => OnData(s, data)
  }

  function Parse(s: ParserState, events: seq<Event>): ParserState
    decreases |events|
  {
    if events == [] then s else OnEvent(Parse(s, events[..|events| - 1]), events[|events| - 1])
  }

  class VisibleTextParser {
    var visible: seq<string>
    var titleParts: seq<string>
    var markedClaims: map<string, string>
    var suppressedDepth: nat
    var inTitle: bool
    var claimStack: seq<OpenClaim>

    function View(): ParserState
      reads this
    {
      ParserState(visible, titleParts, markedClaims, suppressedDepth, inTitle, claimStack)
    }

    constructor ()
      ensures View() == INITIAL
    {
      visible, titleParts, markedClaims := [], [], map[];
      suppressedDepth, inTitle, claimStack := 0, false, [];
    }

    method HandleStartTag(tag: string, attributes: seq<(string, Option<string>)>)
      modifies this
      ensures View() == OnStart(old(View()), tag, attributes)
    {
      if Suppresses(tag) {
        suppressedDepth := suppressedDepth + 1;
        return;
      }
      if suppressedDepth > 0 {
        return;
      }
      if tag == "title" {
        inTitle := true;
      }
      var claimId := ClaimId(attributes);
      if claimId != "" {
        claimStack := claimStack + [OpenClaim(tag, claimId, [])];
      }
    }

    method HandleEndTag(tag: string)
      modifies this
      ensures View() == OnEnd(old(View()), tag)
    {
      if Suppresses(tag) && suppressedDepth > 0 {
        suppressedDepth := suppressedDepth - 1;
        return;
      }
      if suppressedDepth > 0 {
        return;
      }
      if tag == "title" {
        inTitle := false;
      }
      if |claimStack| > 0 && claimStack[|claimStack| - 1].tag == tag {
        var top := claimStack[|claimStack| - 1];
        claimStack := claimStack[..|claimStack| - 1];
        markedClaims := markedClaims[top.id := Normalize(Join(top.parts))];
      }
    }

    method HandleData(data: string)
      modifies this
      ensures View() == OnData(old(View()), data)
    {
      if suppressedDepth > 0 {
        return;
      }
      var text := Normalize(data);
      if text == "" {
        return;
      }
      visible := visible + [text];
      if inTitle {
        titleParts := titleParts + [text];
      }
      ghost var before := claimStack;
      for i := 0 to |claimStack|
        invariant |claimStack| == |before|
        invariant forall j :: 0 <= j < i ==> claimStack[j] == before[j].(parts := before[j].parts + [text])
        invariant forall j :: i <= j < |before| ==> claimStack[j] == before[j]
        invariant View() == old(View()).(
                    visible := visible, titleParts := titleParts, claimStack := claimStack)
        invariant visible == old(visible) + [text]
        invariant titleParts == if old(inTitle) then old(titleParts) + [text] else old(titleParts)
      {
        claimStack := claimStack[i := claimStack[i].(parts := claimStack[i].parts + [text])];
      }
      assert claimStack == WithPart(before, text);
    }

    /** `feed`: the events of the document, one after the other. */
    method Feed(events: seq<Event>)
      modifies this
      ensures View() == Parse(old(View()), events)
    {
      for i := 0 to |events|
        invariant View() == Parse(old(View()), events[..i])
      {
        assert events[..i + 1][..i] == events[..i];
        match events[i]
        case Start(tag, attributes) => HandleStartTag(tag, attributes);
        case End(tag) => HandleEndTag(tag);
        case Data(data) => HandleData(data);
      }
      assert events[..|events|] == events;
    }
  }

  // ----- What the parser keeps.

  /** The parts of an open claim are what has become visible since it was opened. */
  ghost predicate ClaimOpen(s: ParserState, c: OpenClaim) {
    |c.parts| <= |s.visible| && c.parts == s.visible[|s.visible| - |c.parts|..]
  }

  /** A marked claim is the normalized join of a contiguous stretch of visible parts. */
  ghost predicate ClaimMarked(s: ParserState, text: string) {
    exists i: nat, j: nat :: Stretch(s.visible, i, j, text)
  }

  predicate Stretch(visible: seq<string>, i: nat, j: nat, text: string) {
    i <= j <= |visible| && text == Normalize(Join(visible[i..j]))
  }

  ghost predicate ParserOk(s: ParserState) {
    && Words(s.visible)
    && (forall k :: 0 <= k < |s.claimStack| ==> ClaimOpen(s, s.claimStack[k]))
    && forall id :: id in s.markedClaims ==> ClaimMarked(s, s.markedClaims[id])
  }

  /** Marked claims stay stretches of the visible parts when more becomes visible. */
  lemma MarkedStays(s: ParserState, s': ParserState, text: string)
    requires s.visible <= s'.visible && ClaimMarked(s, text)
    ensures ClaimMarked(s', text)
  {
    var i: nat, j: nat :| Stretch(s.visible, i, j, text);
    assert s'.visible[i..j] == s.visible[i..j];
    assert Stretch(s'.visible, i, j, text);
  }

  lemma PartAdded(s: ParserState, s': ParserState, c: OpenClaim, text: string)
    requires ClaimOpen(s, c) && s'.visible == s.visible + [text]
    ensures ClaimOpen(s', c.(parts := c.parts + [text]))
  {
    var n := |s.visible| - |c.parts|;
    assert s'.visible[n..] == s.visible[n..] + [text];
  }

  lemma DataKeeps(s: ParserState, data: string)
    requires ParserOk(s)
    ensures ParserOk(OnData(s, data))
  {
    var text := Normalize(data);
    if s.suppressedDepth == 0 && text != "" {
      NormalizeIsNormal(data);
      VisibleAdded(s, OnData(s, data), text);
    }
  }

  lemma VisibleAdded(s: ParserState, s': ParserState, text: string)
    requires ParserOk(s) && text != "" && Normal(text) && s'.visible == s.visible + [text]
    requires s'.claimStack == WithPart(s.claimStack, text) && s'.markedClaims == s.markedClaims
    ensures ParserOk(s')
  {
    forall k | 0 <= k < |s'.claimStack| ensures ClaimOpen(s', s'.claimStack[k]) {
      PartAdded(s, s', s.claimStack[k], text);
    }
    forall id | id in s'.markedClaims ensures ClaimMarked(s', s'.markedClaims[id]) {
      MarkedStays(s, s', s.markedClaims[id]);
    }
  }

  lemma ClosedIsMarked(s: ParserState, c: OpenClaim)
    requires ClaimOpen(s, c)
    ensures ClaimMarked(s, Normalize(Join(c.parts)))
  {
    var n := |s.visible| - |c.parts|;
    assert s.visible[n..|s.visible|] == c.parts;
    assert Stretch(s.visible, n, |s.visible|, Normalize(Join(c.parts)));
  }

  lemma EndKeeps(s: ParserState, tag: string)
    requires ParserOk(s)
    ensures ParserOk(OnEnd(s, tag))
  {
    hide Words, Join, Normalize;
    var s' := OnEnd(s, tag);
    if s'.claimStack != s.claimStack {
      ClaimClosed(s, s', s.claimStack[|s.claimStack| - 1]);
    } else {
      forall id | id in s'.markedClaims ensures ClaimMarked(s', s'.markedClaims[id]) {
        MarkedStays(s, s', s.markedClaims[id]);
      }
    }
  }

  lemma ClaimClosed(s: ParserState, s': ParserState, top: OpenClaim)
    requires ParserOk(s) && s.claimStack != [] && top == s.claimStack[|s.claimStack| - 1]
    requires s'.visible == s.visible && s'.claimStack == s.claimStack[..|s.claimStack| - 1]
    requires s'.markedClaims == s.markedClaims[top.id := Normalize(Join(top.parts))]
    ensures ParserOk(s')
  {
    hide Words, Join, Normalize;
    forall k | 0 <= k < |s'.claimStack| ensures ClaimOpen(s', s'.claimStack[k]) {
      assert ClaimOpen(s, s.claimStack[k]);
    }
    forall id | id in s'.markedClaims ensures ClaimMarked(s', s'.markedClaims[id]) {
      if id == top.id {
        ClosedIsMarked(s, top);
        MarkedStays(s, s', s'.markedClaims[id]);
      } else {
        MarkedStays(s, s', s.markedClaims[id]);
      }
    }
  }

  lemma StartKeeps(s: ParserState, tag: string, attributes: seq<(string, Option<string>)>)
    requires ParserOk(s)
    ensures ParserOk(OnStart(s, tag, attributes))
  {
    hide Words, Join, Normalize, ClaimId;
    var s' := OnStart(s, tag, attributes);
    forall k | 0 <= k < |s'.claimStack| ensures ClaimOpen(s', s'.claimStack[k]) {
      if k < |s.claimStack| { assert ClaimOpen(s, s.claimStack[k]); }
    }
    forall id | id in s'.markedClaims ensures ClaimMarked(s', s'.markedClaims[id]) {
      assert ClaimMarked(s, s.markedClaims[id]);
    }
  }

  lemma {:induction false} ParseKeeps(s: ParserState, events: seq<Event>)
    requires ParserOk(s)
    ensures ParserOk(Parse(s, events))
    decreases |events|
  {
    if events != [] {
      var front := Parse(s, events[..|events| - 1]);
      ParseKeeps(s, events[..|events| - 1]);
      match events[|events| - 1]
      case Start(tag, attributes) => StartKeeps(front, tag, attributes);
      case End(tag) => EndKeeps(front, tag);
      case Data(data) => DataKeeps(front, data);
    }
  }

  // ----- Capture and grounding.

  datatype Capture = Capture(title: string, visibleText: string, markedClaims: map<string, string>)

  /** `parse_capture`, from the parser's final state. */
  function CaptureOf(s: ParserState): Capture {
    var title := Normalize(Join(s.titleParts));
    Capture(if title == "" then "Untitled source" else title, Normalize(Join(s.visible)), s.markedClaims)
  }

  lemma StretchOccurs(visible: seq<string>, i: nat, j: nat)
    requires Words(visible) && i <= j <= |visible|
    ensures Occurs(Normalize(Join(visible[i..j])), Normalize(Join(visible)))
  {
    hide Occurs, Join, Normalize, Normal;
    assert Words(visible[i..j]) by {
      forall k | 0 <= k < |visible[i..j]| ensures visible[i..j][k] != "" && Normal(visible[i..j][k]) {
        assert visible[i..j][k] == visible[i + k];
      }
    }
    JoinIsNormalized(visible[i..j]);
    JoinIsNormalized(visible);
    JoinSlice(visible, i, j);
  }

  /** Every marked claim is a contiguous substring of the captured visible text, whatever the document. */
  lemma MarkedClaimsAreVisible(events: seq<Event>, id: string)
    requires var c := CaptureOf(Parse(INITIAL, events)); id in c.markedClaims
    ensures var c := CaptureOf(Parse(INITIAL, events)); Occurs(c.markedClaims[id], c.visibleText)
  {
    ParseKeeps(INITIAL, events);
    var s := Parse(INITIAL, events);
    assert ClaimMarked(s, s.markedClaims[id]);
    var i: nat, j: nat :| Stretch(s.visible, i, j, s.markedClaims[id]);
    StretchOccurs(s.visible, i, j);
  }

  /** `CapturedSource`, with the parser events of its HTML in place of the HTML. */
  datatype Page = Page(url: string, contentHash: string, events: seq<Event>)

  function Captured(p: Page): Capture {
    CaptureOf(Parse(INITIAL, p.events))
  }

  /** `exact_quote_is_grounded`. */
  ghost predicate Grounded(quote: string, c: Capture) {
    var q := Normalize(quote);
    q != "" && if c.markedClaims != map[] then q in c.markedClaims.Values else Occurs(q, c.visibleText)
  }

  /** Whichever branch accepts, the normalized quote is a non-empty literal part of the visible text; and without
      marked claims every such quote is accepted. */
  lemma GroundedIsLiteral(events: seq<Event>, quote: string)
    ensures var c := CaptureOf(Parse(INITIAL, events));
            && (Grounded(quote, c) ==> Normalize(quote) != "" && Occurs(Normalize(quote), c.visibleText))
            && (c.markedClaims == map[] && Normalize(quote) != "" && Occurs(Normalize(quote), c.visibleText) ==>
                  Grounded(quote, c))
  {
    var c := CaptureOf(Parse(INITIAL, events));
    if Grounded(quote, c) && c.markedClaims != map[] {
      var id :| id in c.markedClaims && c.markedClaims[id] == Normalize(quote);
      MarkedClaimsAreVisible(events, id);
    }
  }
}
