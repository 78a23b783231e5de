/** Whitespace normalization of captured text (source.py) and its behaviour on joined parts. */
module VisibleText {
  /** `str.isspace`, which `\s` and `strip()` share. */
  predicate IsSpace(c: char) {
    var n := c as int;
    || 9 <= n <= 13 || 28 <= n <= 32 || n == 0x85 || n == 0xA0 || n == 0x1680 || 0x2000 <= n <= 0x200A
    || n == 0x2028 || n == 0x2029 || n == 0x202F || n == 0x205F || n == 0x3000
  }

  function SkipSpaces(s: string): (r: string)
    ensures |r| <= |s| && (r != [] ==> !IsSpace(r[0]))
    ensures s != [] && IsSpace(s[0]) ==> |r| < |s|
  {
    if s != [] && IsSpace(s[0]) then SkipSpaces(s[1..]) else s
  }

  /** `re.sub(r"\s+", " ", s)`. */
  function Collapse(s: string): string
    decreases |s|
  {
    if s == [] then []
    else if IsSpace(s[0]) then " " + Collapse(SkipSpaces(s))
    else [s[0]] + Collapse(s[1..])
  }

  function SkipSpacesEnd(s: string): string {
    if s != [] && IsSpace(s[|s| - 1]) then SkipSpacesEnd(s[..|s| - 1]) else s
  }

  /** `normalize_visible_text`: collapse whitespace, then strip both ends. */
  function Normalize(s: string): string {
    SkipSpacesEnd(SkipSpaces(Collapse(s)))
  }

  /** Single blanks between words, none at either end, no other whitespace. */
  ghost predicate Normal(s: string) {
    Spaced(s) && (s != [] ==> s[0] != ' ' && s[|s| - 1] != ' ')
  }

  ghost predicate Spaced(s: string) {
    && (forall i :: 0 <= i < |s| && IsSpace(s[i]) ==> s[i] == ' ')
    && forall i :: 0 <= i < |s| - 1 && s[i] == ' ' ==> s[i + 1] != ' '
  }

  lemma {:induction false} CollapseSpaced(s: string)
    ensures Spaced(Collapse(s))
    ensures s != [] && !IsSpace(s[0]) ==> Collapse(s) != [] && Collapse(s)[0] == s[0]
    decreases |s|
  {
    if s != [] {
      if IsSpace(s[0]) {
        CollapseSpaced(SkipSpaces(s));
      } else {
        CollapseSpaced(s[1..]);
      }
    }
  }

  lemma {:induction false} StripStart(s: string)
    requires Spaced(s)
    ensures Spaced(SkipSpaces(s)) && (SkipSpaces(s) != [] ==> SkipSpaces(s)[0] != ' ')
  {
    if s != [] && IsSpace(s[0]) {
      StripStart(s[1..]);
    }
  }

  lemma {:induction false} StripEnd(s: string)
    requires Spaced(s) && (s != [] ==> s[0] != ' ')
    ensures Normal(SkipSpacesEnd(s))
  {
    if s != [] && IsSpace(s[|s| - 1]) {
      StripEnd(s[..|s| - 1]);
    }
  }

  /** Normalization always reaches the normal form. */
  lemma NormalizeIsNormal(s: string)
    ensures Normal(Normalize(s))
  {
    CollapseSpaced(s);
    StripStart(Collapse(s));
    StripEnd(SkipSpaces(Collapse(s)));
  }

  lemma {:induction false} CollapseKeeps(s: string)
    requires Spaced(s)
    ensures Collapse(s) == s
    decreases |s|
  {
    if s != [] {
      assert Spaced(s[1..]);
      CollapseKeeps(s[1..]);
      if IsSpace(s[0]) {
        assert SkipSpaces(s) == SkipSpaces(s[1..]) == s[1..];
      }
      assert s == [s[0]] + s[1..];
    }
  }

  /** The normal form is exactly what normalization leaves alone; in particular it is idempotent. */
  lemma NormalExactly(s: string)
    ensures Normal(s) <==> Normalize(s) == s
  {
    NormalizeIsNormal(s);
    if Normal(s) {
      CollapseKeeps(s);
    }
  }

  // ----- Joined parts.

  /** `" ".join(parts)`. */
  function Join(parts: seq<string>): string {
    if parts == [] then ""
    else if |parts| == 1 then parts[0]
    else parts[0] + " " + Join(parts[1..])
  }

  ghost predicate Words(parts: seq<string>) {
    forall i :: 0 <= i < |parts| ==> parts[i] != "" && Normal(parts[i])
  }

  lemma {:induction false} JoinNormal(parts: seq<string>)
    requires Words(parts)
    ensures Normal(Join(parts)) && (parts != [] ==> Join(parts) != "")
  {
    if |parts| == 1 {
      assert Normal(parts[0]);
    } else if |parts| > 1 {
      assert Words(parts[1..]) by {
        forall i | 0 <= i < |parts[1..]| ensures parts[1..][i] != "" && Normal(parts[1..][i]) {
          assert parts[1..][i] == parts[i + 1];
        }
      }
      JoinNormal(parts[1..]);
      NormalBySpace(parts[0], Join(parts[1..]));
    }
  }

  lemma NormalBySpace(a: string, b: string)
    requires Normal(a) && Normal(b) && a != "" && b != ""
    ensures Normal(a + " " + b)
  {
    var s := a + " " + b;
    forall i | 0 <= i < |s| ensures IsSpace(s[i]) ==> s[i] == ' ' {
      assert s[i] == if i < |a| then a[i] else if i == |a| then ' ' else b[i - |a| - 1];
    }
    forall i | 0 <= i < |s| - 1 && s[i] == ' ' ensures s[i + 1] != ' ' {
      assert s[i] == if i < |a| then a[i] else if i == |a| then ' ' else b[i - |a| - 1];
      assert s[i + 1] == if i + 1 < |a| then a[i + 1] else if i + 1 == |a| then ' ' else b[i - |a|];
    }
    assert s[0] == a[0] && s[|s| - 1] == b[|b| - 1];
  }

  /** Joined words are already normal. */
  lemma JoinIsNormalized(parts: seq<string>)
    requires Words(parts)
    ensures Normalize(Join(parts)) == Join(parts)
  {
    JoinNormal(parts);
    NormalExactly(Join(parts));
  }

  // ----- Normalizing keeps the words.

  function FirstWord(s: string): (r: string)
    ensures |r| <= |s| && r == s[..|r|]
    ensures s != [] && !IsSpace(s[0]) ==> r != []
    ensures |r| < |s| ==> IsSpace(s[|r|])
  {
    if s == [] || IsSpace(s[0]) then [] else [s[0]] + FirstWord(s[1..])
  }

  /** `s.split()`: the maximal runs without whitespace, in order. */
  function Fields(s: string): seq<string>
    decreases |s|
  {
    var t := SkipSpaces(s);
    if t == [] then [] else [FirstWord(t)] + Fields(t[|FirstWord(t)|..])
  }

  lemma {:induction false} CollapseWord(s: string)
    ensures Collapse(s) == FirstWord(s) + Collapse(s[|FirstWord(s)|..])
    decreases |s|
  {
    if s == [] || IsSpace(s[0]) {
      assert s[0..] == s;
    } else {
      CollapseWord(s[1..]);
      assert s[1..][|FirstWord(s[1..])|..] == s[|FirstWord(s)|..];
    }
  }

  lemma {:induction false} StripAfter(a: string, b: string)
    requires SkipSpacesEnd(b) != []
    ensures SkipSpacesEnd(a + b) == a + SkipSpacesEnd(b)
    decreases |b|
  {
    if IsSpace(b[|b| - 1]) {
      StripAfter(a, b[..|b| - 1]);
      assert (a + b)[..|a + b| - 1] == a + b[..|b| - 1];
    }
  }

  lemma {:induction false} WordsAreSolid(s: string)
    ensures forall i :: 0 <= i < |FirstWord(s)| ==> !IsSpace(FirstWord(s)[i])
  {
    if s != [] && !IsSpace(s[0]) {
      WordsAreSolid(s[1..]);
    }
  }

  lemma SolidStays(word: string)
    requires forall i :: 0 <= i < |word| ==> !IsSpace(word[i])
    ensures SkipSpacesEnd(word) == word && (word != [] ==> SkipSpacesEnd(word + " ") == word)
  {
    assert (word + " ")[..|word|] == word;
  }

  lemma CollapseBlank(s: string)
    requires s != [] && IsSpace(s[0])
    ensures Collapse(s) == " " + Collapse(SkipSpaces(s))
  {
  }

  lemma FieldsSteps(s: string)
    ensures Fields(s) == Fields(SkipSpaces(s)) && Fields([]) == []
    ensures s != [] && !IsSpace(s[0]) ==>
              FirstWord(s) != [] && Fields(s) == [FirstWord(s)] + Fields(s[|FirstWord(s)|..])
  {
  }

  lemma JoinFirst(word: string, rest: seq<string>)
    ensures Join([word]) == word
    ensures rest != [] ==> Join([word] + rest) == word + " " + Join(rest)
  {
    assert ([word] + rest)[1..] == rest;
  }

  /** Text that begins with a word is collapsed and stripped to its words. */
  lemma {:induction false} WordsFromWord(s: string)
    requires s != [] && !IsSpace(s[0])
    ensures SkipSpacesEnd(Collapse(s)) == Join(Fields(s)) && Fields(s) != [] && Join(Fields(s)) != ""
    decreases |s|
  {
    hide Collapse, Fields, Join, SkipSpacesEnd, FirstWord, SkipSpaces;
    var word := FirstWord(s);
    var rest := s[|word|..];
    CollapseWord(s);
    FieldsSteps(s);
    FieldsSteps(rest);
    WordsAreSolid(s);
    CollapseNothing();
    if rest == [] {
      LastWord(word, "");
    } else {
      var t := SkipSpaces(rest);
      CollapseBlank(rest);
      FieldsSteps(t);
      if t == [] {
        LastWord(word, " ");
        assert " " + [] == " ";
      } else {
        WordsFromWord(t);
        MoreWords(word, Collapse(t), Fields(t));
      }
    }
  }

  lemma LastWord(word: string, after: string)
    requires word != [] && after in ["", " "] && forall i :: 0 <= i < |word| ==> !IsSpace(word[i])
    ensures SkipSpacesEnd(word + after) == word == Join([word] + [])
  {
    SolidStays(word);
    JoinFirst(word, []);
    assert [word] + [] == [word] && word + "" == word;
  }

  lemma MoreWords(word: string, rest: string, words: seq<string>)
    requires SkipSpacesEnd(rest) == Join(words) && words != [] && Join(words) != ""
    ensures SkipSpacesEnd(word + (" " + rest)) == Join([word] + words) != ""
  {
    StripAfter(word + " ", rest);
    JoinFirst(word, words);
    assert word + (" " + rest) == (word + " ") + rest;
  }

  lemma CollapseNothing()
    ensures Collapse([]) == []
  {
  }

  /** Normalization is splitting at whitespace and joining the words with single blanks. */
  lemma NormalizeIsSplitJoin(s: string)
    ensures Normalize(s) == Join(Fields(s))
  {
    var t := SkipSpaces(s);
    FieldsSteps(s);
    FieldsSteps(t);
    CollapseNothing();
    if s != [] && IsSpace(s[0]) {
      CollapseBlank(s);
    }
    hide Collapse, Fields;
    if t == [] {
      BlankStripped();
    } else {
      WordsFromWord(t);
      StartStripped(Collapse(t));
      BlankBefore(Collapse(t));
      CollapseStarts(t);
    }
  }

  lemma BlankStripped()
    ensures SkipSpacesEnd(SkipSpaces([])) == [] && SkipSpacesEnd(SkipSpaces(" " + [])) == [] && Join([]) == []
  {
    assert " " + [] == " " && " "[1..] == [];
  }

  lemma StartStripped(s: string)
    ensures s != [] && !IsSpace(s[0]) ==> SkipSpaces(s) == s
  {
  }

  lemma BlankBefore(s: string)
    ensures SkipSpaces(" " + s) == SkipSpaces(s)
  {
    assert (" " + s)[1..] == s;
  }

  lemma CollapseStarts(s: string)
    requires s != [] && !IsSpace(s[0])
    ensures Collapse(s) != [] && !IsSpace(Collapse(s)[0])
  {
  }

  /** `inner in outer`, with the text around one occurrence. */
  ghost predicate Occurs(inner: string, outer: string) {
    exists before, after :: Around(inner, outer, before, after)
  }

  predicate Around(inner: string, outer: string, before: string, after: string) {
    outer == before + inner + after
  }

  lemma {:induction false} JoinAppend(a: seq<string>, b: seq<string>)
    requires a != [] && b != []
    ensures Join(a + b) == Join(a) + " " + Join(b)
  {
    if |a| == 1 {
      assert (a + b)[1..] == b;
    } else {
      assert (a + b)[1..] == a[1..] + b;
      JoinAppend(a[1..], b);
      assert Join(a + b) == a[0] + " " + (Join(a[1..]) + " " + Join(b));
      assert Join(a) + " " + Join(b) == a[0] + " " + Join(a[1..]) + " " + Join(b);
      assert a[0] + " " + (Join(a[1..]) + " " + Join(b)) == a[0] + " " + Join(a[1..]) + " " + Join(b);
    }
  }

  lemma OccursIn(a: string, b: string, c: string)
    requires Occurs(a, b) && Occurs(b, c)
    ensures Occurs(a, c)
  {
    var p, q :| Around(a, b, p, q);
    var r, s :| Around(b, c, r, s);
    assert c == (r + p) + a + (q + s);
    assert Around(a, c, r + p, q + s);
  }

  lemma OccursAround(before: string, inner: string, after: string)
    ensures Occurs(inner, before + inner + after)
  {
    assert Around(inner, before + inner + after, before, after);
  }

  lemma JoinedParts(a: seq<string>, b: seq<string>)
    ensures Occurs(Join(a), Join(a + b)) && Occurs(Join(b), Join(a + b))
  {
    hide Occurs;
    if a == [] {
      assert a + b == b;
      OccursAround("", Join(b), "");
      OccursAround("", "", Join(b));
      assert "" + Join(b) + "" == Join(b) == "" + "" + Join(b);
    } else if b == [] {
      assert a + b == a;
      OccursAround("", Join(a), "");
      OccursAround("", "", Join(a));
      assert "" + Join(a) + "" == Join(a) == "" + "" + Join(a);
    } else {
      JoinAppend(a, b);
      BothOccur(Join(a), Join(b));
    }
  }

  lemma BothOccur(x: string, y: string)
    ensures Occurs(x, x + " " + y) && Occurs(y, x + " " + y)
  {
    assert x + " " + y == "" + x + (" " + y);
    OccursAround("", x, " " + y);
    assert x + " " + y == (x + " ") + y + "";
    OccursAround(x + " ", y, "");
  }

  /** A contiguous stretch of parts joins to a contiguous stretch of the joined text. */
  lemma JoinSlice(parts: seq<string>, i: nat, j: nat)
    requires i <= j <= |parts|
    ensures Occurs(Join(parts[i..j]), Join(parts))
  {
    hide Join, Occurs;
    assert parts[..i] + parts[i..j] == parts[..j];
    assert parts[..j] + parts[j..] == parts;
    JoinedParts(parts[..i], parts[i..j]);
    JoinedParts(parts[..j], parts[j..]);
    OccursIn(Join(parts[i..j]), Join(parts[..j]), Join(parts));
  }
}
