/** What the parser promises about whole lines of input. */
module ParserFacts {
  import opened Base
  import opened Parser

  /** The action depends on the input only through its trimmed, lower-cased form. */
  lemma DecidedByNormalized(a: string, b: string)
    requires Normalized(a) == Normalized(b)
    ensures ParseInput(a) == ParseInput(b).(raw := a)
  {
  }

  /** White space in front of the input changes nothing but `raw`. */
  lemma LeadingSpaceIgnored(c: char, text: string)
    requires IsSpace(c)
    ensures ParseInput([c] + text) == ParseInput(text).(raw := [c] + text)
  {
    TrimIgnoresLeadingSpace(c, text);
    DecidedByNormalized([c] + text, text);
  }

  /** White space after the input changes nothing but `raw`. */
  lemma TrailingSpaceIgnored(text: string, c: char)
    requires IsSpace(c)
    ensures ParseInput(text + [c]) == ParseInput(text).(raw := text + [c])
  {
    TrimIgnoresTrailingSpace(text, c);
    DecidedByNormalized(text + [c], text);
  }

  /** Upper and lower case are read alike. */
  lemma CaseIgnored(text: string)
    ensures ParseInput(ToLower(text)) == ParseInput(text).(raw := ToLower(text))
  {
    TrimLower(text);
    ToLowerTwice(Trim(text));
    DecidedByNormalized(ToLower(text), text);
  }

  /** Every direction alias is one word and a surface form of `go` in the first table row. */
  lemma AliasIsGoForm(x: string)
    requires x in DirectionAliases
    ensures NoSpace(x)
    ensures NormalizeVerb(x) == Some("go")
  {
    WordCharsAreNotSpace();
    var row := VerbSynonyms[0].1;
    if x == "n" { assert Hits(x, row[8]); }
    else if x == "s" { assert Hits(x, row[9]); }
    else if x == "o" { assert Hits(x, row[10]); }
    else if x == "w" { assert Hits(x, row[11]); }
    else if x == "nord" { assert Hits(x, row[12]); }
    else if x == "sued" { assert Hits(x, row[13]); }
    else if x == "ost" { assert Hits(x, row[14]); }
    else { assert Hits(x, row[15]); }
    assert RowHits(x, 0);
  }

  /** The verb is the canonical verb of the first table row that selects the input, or else
      its first word; a lone direction alias agrees, the table sending it to `go`. */
  lemma VerbRule(text: string)
    ensures var lower := Normalized(text);
      ParseInput(text).verb ==
        if NormalizeVerb(lower).Some? then NormalizeVerb(lower).value else Tokens(text)[0]
  {
    var lower := Normalized(text);
    var tokens := Split(lower);
    assert ParseInput(text) == ParseLower(lower, text);
    if |tokens| == 1 && tokens[0] in DirectionAliases {
      SplitWord(lower);
      AliasIsGoForm(tokens[0]);
    }
  }

  /** A lone direction alias is a move in its canonical direction. */
  lemma AliasMoves(text: string)
    requires Normalized(text) in DirectionAliases
    ensures ParseInput(text) ==
      Action("go", None, None, Some(DirectionAliases[Normalized(text)]), text)
  {
    AliasIsGoForm(Normalized(text));
    SplitWord(Normalized(text));
  }

  /** For `go`, the direction is that of the first word that is an alias, and without one the
      second word, if any, becomes the object. */
  lemma GoRule(text: string)
    requires ParseInput(text).verb == "go"
    ensures var tokens := Tokens(text); var a := ParseInput(text);
      a.direction == FirstDirection(tokens) && a.target.None?
      && (a.direction.Some? <==> exists i :: 0 <= i < |tokens| && tokens[i] in DirectionAliases)
      && a.obj == if a.direction.None? && |tokens| > 1 && tokens[1] != "" then Some(tokens[1]) else None
  {
  }

  /** For `combine`, a match of the pattern gives the trimmed object and target; without one the
      object is the rest of the words and there is no target. */
  lemma CombineRule(text: string)
    requires ParseInput(text).verb == "combine"
    ensures var a := ParseInput(text); var g := CombineGroups(Normalized(text));
      a.direction.None?
      && (a.target.Some? <==> g.Some?)
      && (g.Some? ==> a.obj == NonEmpty(Trim(g.value.0)) && a.target == Some(Trim(g.value.1)))
      && (g.None? ==> a.obj == NonEmpty(Join(Tokens(text)[1..], " ")))
  {
  }

  /** Every other verb takes the rest of the words, joined by single spaces, as its object. */
  lemma OtherVerbRule(text: string)
    requires ParseInput(text).verb != "go" && ParseInput(text).verb != "combine"
    ensures var a := ParseInput(text);
      a.target.None? && a.direction.None? && a.obj == NonEmpty(Join(Tokens(text)[1..], " "))
  {
  }

  // ---------------------------------------------------------------------------
  // A worked example: `kombiniere schluessel mit tor` names the item and the target.

  const CombineSample := "kombiniere schluessel mit tor"

  lemma CombineSampleLower()
    ensures ToLower(CombineSample) == CombineSample
  {
    assert forall i :: 0 <= i < |CombineSample| ==> Lower(CombineSample[i]) == CombineSample[i];
  }

  lemma CombineSampleTrimmed()
    ensures Trim(CombineSample) == CombineSample
  {
    SpaceChars(CombineSample[0]);
    SpaceChars(CombineSample[|CombineSample| - 1]);
    TrimKeeps(CombineSample, 0, |CombineSample|);
  }

  /** A surface form that disagrees with the input in one of its first two characters does
      not select its verb. */
  lemma Misses(input: string, entry: string)
    requires 2 <= |input| && 1 <= |entry|
    requires entry[0] != input[0] || (2 <= |entry| && entry[1] != input[1])
    ensures !Hits(input, entry)
  {
  }

  /** None of the rows before `combine` selects its verb. */
  lemma CombineSampleRowMisses(i: nat)
    requires i < 10
    ensures !RowHits(CombineSample, i)
  {
    var row := VerbSynonyms[i].1;
    forall j | 0 <= j < |row| ensures !Hits(CombineSample, row[j]) {
      Misses(CombineSample, row[j]);
    }
  }

  lemma CombineSampleRowHits()
    ensures RowHits(CombineSample, 10)
  {
    assert VerbSynonyms[10].1[0] == "kombiniere";
    assert CombineSample[..10] == "kombiniere";
    assert Hits(CombineSample, VerbSynonyms[10].1[0]);
  }

  lemma CombineSampleVerb()
    ensures NormalizeVerb(CombineSample) == Some("combine")
  {
    CombineSampleRowHits();
    forall i | 0 <= i < 10 ensures !RowHits(CombineSample, i) {
      CombineSampleRowMisses(i);
    }
    var r := NormalizeVerb(CombineSample);
    assert r.Some?;
  }

  /** The sample holds lower-case letters and three single spaces, and no line break. */
  lemma CombineSampleChars(i: nat)
    requires i < |CombineSample|
    ensures IsSpace(CombineSample[i]) <==> i == 10 || i == 21 || i == 25
    ensures !IsLineBreak(CombineSample[i])
  {
    SpaceChars(CombineSample[i]);
  }

  lemma {:induction false} CombineSampleDotRun(i: nat)
    requires i <= |CombineSample|
    ensures DotRun(CombineSample, i) == |CombineSample| - i
    decreases |CombineSample| - i
  {
    if i < |CombineSample| {
      CombineSampleChars(i);
      CombineSampleDotRun(i + 1);
    }
  }

  lemma CombineSampleSpaceRun(i: nat)
    requires i <= |CombineSample|
    ensures SpaceRun(CombineSample, i) == if i == 10 || i == 21 || i == 25 then 1 else 0
  {
    if i < |CombineSample| {
      CombineSampleChars(i);
      if i == 10 || i == 21 || i == 25 {
        CombineSampleChars(i + 1);
      }
    }
  }

  /** The second half `\s+mit\s+(.+)` fits after `schluessel`, with single spaces. */
  lemma CombineSampleTail()
    ensures TailAt(CombineSample, "mit", 21) == (1, 1)
  {
    CombineSampleSpaceRun(21);
    CombineSampleSpaceRun(25);
    CombineSampleDotRun(26);
    assert OccursAt(CombineSample, 22, "mit");
  }

  /** Inside a word the second half cannot be placed. */
  lemma CombineSampleNoTail(t: nat)
    requires t <= |CombineSample| && t != 10 && t != 21 && t != 25
    ensures TailAt(CombineSample, "mit", t).0 == 0
  {
    CombineSampleSpaceRun(t);
  }

  /** `kombiniere` occurs only at the start. */
  lemma CombineSampleKeyword(start: nat)
    requires OccursAt(CombineSample, start, "kombiniere")
    ensures start == 0
  {
    assert CombineSample[start + 0] == "kombiniere"[0];
    if start != 0 {
      CombineSampleOneK(start);
    }
  }

  /** The only `k` within reach of a ten-letter keyword is the first letter. */
  lemma CombineSampleOneK(j: nat)
    requires 0 < j < 20
    ensures CombineSample[j] != 'k'
  {
  }

  lemma CombineSampleFits()
    ensures Fits(CombineSample, "kombiniere", "mit", Hit(0, 1, 10))
  {
    assert OccursAt(CombineSample, 0, "kombiniere");
    CombineSampleSpaceRun(10);
    CombineSampleDotRun(11);
    CombineSampleTail();
  }

  /** Every candidate starts at 0 with one space and a first group of ten characters or more. */
  lemma CombineSampleFitsOnly(h: Hit)
    requires Fits(CombineSample, "kombiniere", "mit", h)
    ensures h.start == 0 && h.gap == 1 && h.len >= 10
  {
    assert Placed(CombineSample, "kombiniere", h.start, h.gap);
    CombineSampleKeyword(h.start);
    CombineSampleSpaceRun(10);
    assert h.gap == 1;
    var t := 11 + h.len;
    assert TailAt(CombineSample, "mit", t).0 > 0;
    if h.len < 10 {
      CombineSampleNoTail(t);
    }
  }

  /** The regular expression matches from 0, with one space and the lazy first group
      `schluessel`. */
  lemma CombineSampleHit()
    ensures FirstHit(CombineSample, "kombiniere", "mit") == Some(Hit(0, 1, 10))
  {
    CombineSampleFits();
    var r := FirstHit(CombineSample, "kombiniere", "mit");
    CombineSampleFitsOnly(r.value);
  }

  /** The groups of a `kombiniere ... mit ...` match whose positions are known. */
  lemma KombiniereGroups(s: string)
    requires Fits(s, "kombiniere", "mit", Hit(0, 1, 10))
    requires TailAt(s, "mit", 21) == (1, 1)
    requires DotRun(s, 26) == 3
    ensures Groups(s, "kombiniere", "mit", Hit(0, 1, 10)) == (s[11..21], s[26..29])
  {
  }

  lemma CombineSampleWords()
    ensures CombineSample[11..21] == "schluessel" && CombineSample[26..29] == "tor"
  {
  }

  lemma CombineSampleSlices()
    ensures Fits(CombineSample, "kombiniere", "mit", Hit(0, 1, 10))
      && Groups(CombineSample, "kombiniere", "mit", Hit(0, 1, 10)) == ("schluessel", "tor")
  {
    CombineSampleFits();
    CombineSampleTail();
    CombineSampleDotRun(26);
    KombiniereGroups(CombineSample);
    CombineSampleWords();
  }

  lemma CombineSampleGroups()
    ensures CombineGroups(CombineSample) == Some(("schluessel", "tor"))
  {
    CombineSampleHit();
    CombineSampleSlices();
  }

  lemma CombineSampleWordsTrimmed()
    ensures Trim("schluessel") == "schluessel" && Trim("tor") == "tor"
  {
    WordCharsAreNotSpace();
    TrimKeeps("schluessel", 0, 10);
    TrimKeeps("tor", 0, 3);
  }

  /** `kombiniere schluessel mit tor` combines the item `schluessel` with the target `tor`. */
  lemma CombineExample()
    ensures ParseInput(CombineSample) ==
      Action("combine", Some("schluessel"), Some("tor"), None, CombineSample)
  {
    CombineSampleLower();
    CombineSampleTrimmed();
    SplitWord(CombineSample);
    CombineSampleChars(10);
    CombineSampleVerb();
    CombineSampleGroups();
    CombineSampleWordsTrimmed();
  }
}
