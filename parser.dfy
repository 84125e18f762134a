/** The command-line parser of the adventure: maps one line of German or English player
    input to an action descriptor (verb, object, target, direction, raw text). */
module Parser {
  import opened Base

  /** The synonym table, in its declaration order: canonical verb, then its surface forms. */
  const VerbSynonyms: seq<(string, seq<string>)> := [
    ("go", ["geh", "gehe", "gehe nach", "gehe zu", "go", "lauf", "laufe", "reise",
            "n", "s", "o", "w", "nord", "sued", "ost", "west"]),
    ("take", ["nimm", "nehmen", "hole", "grab", "pick"]),
    ("inspect", ["untersuche", "untersuchen", "inspect", "schau", "schau an", "ansehen", "look"]),
    ("look", ["umschauen", "umsehen"]),
    ("use", ["benutze", "nutze", "verwende", "use"]),
    ("open", ["öffne", "oeffne", "open"]),
    ("close", ["schließe", "schliesse", "close"]),
    ("push", ["drücke", "druecke", "schiebe", "push"]),
    ("pull", ["ziehe", "pull"]),
    ("attack", ["angriff", "angreifen", "attack", "schlag", "kämpfe", "kaempfe"]),
    ("combine", ["kombiniere", "combine"]),
    ("inventory", ["inventar", "tasche", "beutel", "i", "inv", "rucksack"]),
    ("help", ["hilfe", "help"])
  ]

  /** Direction aliases and their canonical direction. */
  const DirectionAliases: map<string, string> := map[
    "n" := "nord", "s" := "sued", "o" := "ost", "w" := "west",
    "nord" := "nord", "sued" := "sued", "ost" := "ost", "west" := "west"
  ]

  const Directions: set<string> := {"nord", "sued", "ost", "west"}

  datatype Action = Action(verb: string, obj: Option<string>, target: Option<string>,
                           direction: Option<string>, raw: string)

  /** A surface form selects its verb when it is the whole input or the input begins
      with it followed by one space character. */
  predicate Hits(input: string, entry: string) {
    input == entry || (|entry| < |input| && input[..|entry|] == entry && input[|entry|] == ' ')
  }

  /** Some surface form in row `i` of the table selects its verb. */
  predicate RowHits(input: string, i: nat)
    requires i < |VerbSynonyms|
  {
    exists j :: 0 <= j < |VerbSynonyms[i].1| && Hits(input, VerbSynonyms[i].1[j])
  }

  function AnyHits(input: string, entries: seq<string>): (b: bool)
    ensures b <==> exists j :: 0 <= j < |entries| && Hits(input, entries[j])
  {
    if entries == [] then false
    else Hits(input, entries[0]) || AnyHits(input, entries[1..])
  }

  /** Index of the first row at or after `i` that selects its verb, or the table size. */
  function FirstRow(input: string, i: nat): (k: nat)
    requires i <= |VerbSynonyms|
    ensures i <= k <= |VerbSynonyms|
    ensures k < |VerbSynonyms| ==> RowHits(input, k)
    ensures forall m :: i <= m < k ==> !RowHits(input, m)
    decreases |VerbSynonyms| - i
  {
    if i == |VerbSynonyms| then i
    else if AnyHits(input, VerbSynonyms[i].1) then i
    else FirstRow(input, i + 1)
  }

  /** `normalizeVerb`: the canonical verb of the first row, in table order, one of whose
      surface forms selects it; `None` when no form does. */
  function NormalizeVerb(input: string): (r: Option<string>)
    ensures r.None? <==> forall i :: 0 <= i < |VerbSynonyms| ==> !RowHits(input, i)
    ensures r.Some? ==> exists i :: 0 <= i < |VerbSynonyms| && RowHits(input, i)
                           && r.value == VerbSynonyms[i].0
                           && forall m :: 0 <= m < i ==> !RowHits(input, m)
  {
    var k := FirstRow(input, 0);
    if k < |VerbSynonyms| then Some(VerbSynonyms[k].0) else None
  }

  /** `parseDirection`: the canonical direction of an alias. */
  function ParseDirection(word: string): (r: Option<string>)
    ensures r.Some? <==> word in DirectionAliases
    ensures r.Some? ==> r.value in Directions
  {
    if word in DirectionAliases then Some(DirectionAliases[word]) else None
  }

  /** `tokens.find(t => DIRECTION_ALIASES[t])`, mapped to its canonical direction. */
  function FirstDirection(tokens: seq<string>): (r: Option<string>)
    ensures r.None? <==> forall i :: 0 <= i < |tokens| ==> tokens[i] !in DirectionAliases
    ensures r.Some? ==> exists i :: 0 <= i < |tokens| && tokens[i] in DirectionAliases
                           && r.value == DirectionAliases[tokens[i]]
                           && forall m :: 0 <= m < i ==> tokens[m] !in DirectionAliases
  {
    if tokens == [] then None
    else if ParseDirection(tokens[0]).Some? then ParseDirection(tokens[0])
    else
      var r := FirstDirection(tokens[1..]);
      assert forall i :: 1 <= i < |tokens| ==> tokens[i] == tokens[1..][i - 1];
      r
  }

  // ---------------------------------------------------------------------------
  // The combine patterns /kw\s+(.+?)\s+conn\s+(.+)/, searched as a JavaScript
  // regular expression is: leftmost start first, then the longest first
  // white-space run, then the shortest first group; the second half likewise
  // prefers its longest white-space runs, and the last group is greedy.

  /** One way to place the second half `\s+ conn \s+ (.+)` at position `t`,
      with white-space runs of `k2` and `k3` characters. */
  predicate TailFits(s: string, conn: string, t: nat, k2: nat, k3: nat) {
    t <= |s| && 1 <= k2 <= SpaceRun(s, t) && OccursAt(s, t + k2, conn)
    && 1 <= k3 <= SpaceRun(s, t + k2 + |conn|)
    && DotRun(s, t + k2 + |conn| + k3) >= 1
  }

  /** The second half of the pattern can be placed at `t` in some way. */
  ghost predicate HasTail(s: string, conn: string, t: nat) {
    exists k2, k3 :: TailFits(s, conn, t, k2, k3)
  }

  /** The longest last white-space run, at most `k`, after which `.` matches. */
  function PickK3(s: string, u: nat, k: nat): (r: nat)
    requires u + k <= |s|
    ensures r <= k
    ensures r > 0 ==> DotRun(s, u + r) >= 1
    decreases k
  {
    if k == 0 then 0 else if DotRun(s, u + k) >= 1 then k else PickK3(s, u, k - 1)
  }

  lemma {:induction false} PickK3Longest(s: string, u: nat, k: nat)
    requires u + k <= |s|
    ensures forall x :: u + PickK3(s, u, k) < x <= u + k ==> DotRun(s, x) == 0
    decreases k
  {
    if k > 0 && DotRun(s, u + k) == 0 {
      PickK3Longest(s, u, k - 1);
    }
  }

  /** The first placement of the second half at `t` whose first white-space run is at most
      `k` long, in the regular-expression order: the longest first run, then the longest
      last run after which `.` matches. */
  function TailFrom(s: string, conn: string, t: nat, k: nat): (r: (nat, nat))
    requires t <= |s| && k <= SpaceRun(s, t)
    ensures r.0 > 0 ==> r.0 <= k && TailFits(s, conn, t, r.0, r.1)
    decreases k
  {
    if k == 0 then (0, 0)
    else if OccursAt(s, t + k, conn) && PickK3(s, t + k + |conn|, SpaceRun(s, t + k + |conn|)) > 0 then
      (k, PickK3(s, t + k + |conn|, SpaceRun(s, t + k + |conn|)))
    else TailFrom(s, conn, t, k - 1)
  }

  /** A second half that `TailFrom` passes over cannot be placed. */
  lemma {:induction false} TailFromFirst(s: string, conn: string, t: nat, k: nat)
    requires t <= |s| && k <= SpaceRun(s, t)
    ensures TailFrom(s, conn, t, k).0 == 0 ==>
      forall k2, k3 :: 1 <= k2 <= k ==> !TailFits(s, conn, t, k2, k3)
    decreases k
  {
    if k > 0 {
      var u := t + k + |conn|;
      if OccursAt(s, t + k, conn) {
        PickK3Longest(s, u, SpaceRun(s, u));
      }
      TailFromFirst(s, conn, t, k - 1);
    }
  }

  /** The placement of the second half at `t` the regular expression takes, as the lengths
      of its two white-space runs; `(0, 0)` when there is none. */
  function TailAt(s: string, conn: string, t: nat): (r: (nat, nat))
    requires t <= |s|
    ensures r.0 > 0 ==> TailFits(s, conn, t, r.0, r.1)
  {
    TailFrom(s, conn, t, SpaceRun(s, t))
  }

  /** `TailAt` finds a placement exactly when there is one. */
  lemma TailAtFinds(s: string, conn: string, t: nat)
    requires t <= |s|
    ensures TailAt(s, conn, t).0 > 0 <==> HasTail(s, conn, t)
  {
    TailFromFirst(s, conn, t, SpaceRun(s, t));
  }

  /** A candidate match: the keyword at `start`, a first white-space run of `gap`
      characters and a first group of `len` characters. */
  datatype Hit = Hit(start: nat, gap: nat, len: nat)

  /** The keyword at `start`, followed by a first white-space run of `gap` characters. */
  predicate Placed(s: string, kw: string, start: nat, gap: nat) {
    OccursAt(s, start, kw) && 1 <= gap <= SpaceRun(s, start + |kw|)
  }

  /** A candidate for which the whole pattern matches: the second half can be placed
      right after the first group. */
  predicate Fits(s: string, kw: string, conn: string, h: Hit) {
    Placed(s, kw, h.start, h.gap)
    && 1 <= h.len <= DotRun(s, h.start + |kw| + h.gap)
    && TailAt(s, conn, h.start + |kw| + h.gap + h.len).0 > 0
  }

  /** The same, with the second half placed in any way at all. */
  lemma FitsMeans(s: string, kw: string, conn: string, h: Hit)
    ensures Fits(s, kw, conn, h) <==>
      Placed(s, kw, h.start, h.gap)
      && 1 <= h.len <= DotRun(s, h.start + |kw| + h.gap)
      && HasTail(s, conn, h.start + |kw| + h.gap + h.len)
  {
    if Placed(s, kw, h.start, h.gap) && 1 <= h.len <= DotRun(s, h.start + |kw| + h.gap) {
      TailAtFinds(s, conn, h.start + |kw| + h.gap + h.len);
    }
  }

  /** `a` is tried before `b` by the backtracking search. */
  predicate Before(a: Hit, b: Hit) {
    a.start < b.start
    || (a.start == b.start && (a.gap > b.gap || (a.gap == b.gap && a.len < b.len)))
  }

  /** Index of the first `true` in `b`, or `|b|`. */
  function FirstTrue(b: seq<bool>, i: nat): (r: nat)
    requires i <= |b|
    ensures i <= r <= |b|
    ensures r < |b| ==> b[r]
    ensures forall x :: i <= x < r ==> !b[x]
    decreases |b| - i
  {
    if i == |b| || b[i] then i else FirstTrue(b, i + 1)
  }

  /** For a fixed start and gap, which lengths `1, 2, ...` of the first group fit. */
  function LenFits(s: string, kw: string, conn: string, start: nat, gap: nat): (b: seq<bool>)
    requires Placed(s, kw, start, gap)
    ensures |b| == DotRun(s, start + |kw| + gap)
    ensures forall x :: 1 <= x <= |b| ==> (b[x - 1] <==> Fits(s, kw, conn, Hit(start, gap, x)))
  {
    var t := start + |kw| + gap;
    seq(DotRun(s, t), x requires 0 <= x < DotRun(s, t) => TailAt(s, conn, t + x + 1).0 > 0)
  }

  /** The lazy first group: the shortest length that fits, or 0 when none does. */
  function SearchLen(s: string, kw: string, conn: string, start: nat, gap: nat): (r: nat)
    requires Placed(s, kw, start, gap)
    ensures r > 0 ==> Fits(s, kw, conn, Hit(start, gap, r))
    ensures forall x :: 1 <= x && (r == 0 || x < r) ==> !Fits(s, kw, conn, Hit(start, gap, x))
  {
    var b := LenFits(s, kw, conn, start, gap);
    var i := FirstTrue(b, 0);
    if i < |b| then i + 1 else 0
  }

  /** For a fixed start, whether the gaps `n, n - 1, ..., 1` leave a fitting first group,
      `n` being the whole white-space run after the keyword. */
  function GapFits(s: string, kw: string, conn: string, start: nat): (b: seq<bool>)
    requires OccursAt(s, start, kw)
    ensures |b| == SpaceRun(s, start + |kw|)
    ensures forall gap :: 1 <= gap <= |b| ==> (b[|b| - gap] <==> SearchLen(s, kw, conn, start, gap) > 0)
  {
    var n := SpaceRun(s, start + |kw|);
    seq(n, g requires 0 <= g < n => SearchLen(s, kw, conn, start, n - g) > 0)
  }

  /** The greedy first white-space run at `start`: the longest gap that leaves a fitting
      first group, or 0 when none does. */
  function ChosenGap(s: string, kw: string, conn: string, start: nat): (r: nat)
    requires OccursAt(s, start, kw)
    ensures r <= SpaceRun(s, start + |kw|)
    ensures r > 0 ==> SearchLen(s, kw, conn, start, r) > 0
    ensures forall gap :: r < gap <= SpaceRun(s, start + |kw|) ==> SearchLen(s, kw, conn, start, gap) == 0
  {
    var b := GapFits(s, kw, conn, start);
    var g := FirstTrue(b, 0);
    if g < |b| then |b| - g else 0
  }

  /** The first candidate at `start`: the greedy gap first, then the lazy first group. */
  function SearchGap(s: string, kw: string, conn: string, start: nat): (r: Option<Hit>)
    requires OccursAt(s, start, kw)
    ensures r.Some? ==> r.value.start == start && Fits(s, kw, conn, r.value)
  {
    var gap := ChosenGap(s, kw, conn, start);
    if gap > 0 then Some(Hit(start, gap, SearchLen(s, kw, conn, start, gap))) else None
  }

  /** A fitting candidate leaves a first group for its gap, no longer than its own. */
  lemma LenFound(s: string, kw: string, conn: string, start: nat, gap: nat, len: nat)
    requires Fits(s, kw, conn, Hit(start, gap, len))
    ensures 0 < SearchLen(s, kw, conn, start, gap) <= len
  {
  }

  /** No candidate at `start` comes before the one `SearchGap` picks. */
  lemma SearchGapFirst(s: string, kw: string, conn: string, start: nat, h: Hit)
    requires OccursAt(s, start, kw) && h.start == start && Fits(s, kw, conn, h)
    ensures var r := SearchGap(s, kw, conn, start);
      r.Some? && (h == r.value || Before(r.value, h))
  {
    LenFound(s, kw, conn, start, h.gap, h.len);
  }

  /** Which start positions `0, 1, ..., |s|` have a fitting candidate. */
  function StartFits(s: string, kw: string, conn: string): (b: seq<bool>)
    ensures |b| == |s| + 1
    ensures forall i :: 0 <= i < |b| ==> (b[i] <==> OccursAt(s, i, kw) && SearchGap(s, kw, conn, i).Some?)
  {
    seq(|s| + 1, i requires 0 <= i <= |s| => OccursAt(s, i, kw) && SearchGap(s, kw, conn, i).Some?)
  }

  /** The match `s.match(/kw\s+(.+?)\s+conn\s+(.+)/)` finds: the first candidate in the
      backtracking order, or `None` when no candidate fits. */
  function FirstHit(s: string, kw: string, conn: string): (r: Option<Hit>)
    ensures r.None? <==> forall h :: !Fits(s, kw, conn, h)
    ensures r.Some? ==> Fits(s, kw, conn, r.value)
    ensures r.Some? ==> forall h :: Fits(s, kw, conn, h) ==> h == r.value || Before(r.value, h)
  {
    FirstHitFirst(s, kw, conn);
    var b := StartFits(s, kw, conn);
    var i := FirstTrue(b, 0);
    if i < |b| then SearchGap(s, kw, conn, i) else None
  }

  lemma FirstHitFirst(s: string, kw: string, conn: string)
    ensures var b := StartFits(s, kw, conn); var i := FirstTrue(b, 0);
      forall h :: Fits(s, kw, conn, h) ==>
        i < |b| && (h == SearchGap(s, kw, conn, i).value || Before(SearchGap(s, kw, conn, i).value, h))
  {
    var b := StartFits(s, kw, conn);
    var i := FirstTrue(b, 0);
    forall h | Fits(s, kw, conn, h)
      ensures i < |b| && (h == SearchGap(s, kw, conn, i).value || Before(SearchGap(s, kw, conn, i).value, h))
    {
      SearchGapFirst(s, kw, conn, h.start, h);
      assert b[h.start];
      if i == h.start {
        assert h == SearchGap(s, kw, conn, i).value || Before(SearchGap(s, kw, conn, i).value, h);
      }
    }
  }

  /** The two captured groups of a fitting candidate. */
  function Groups(s: string, kw: string, conn: string, h: Hit): (g: (string, string))
    requires Fits(s, kw, conn, h)
  {
    var t := h.start + |kw| + h.gap;
    var tail := TailAt(s, conn, t + h.len);
    var v := t + h.len + tail.0 + |conn| + tail.1;
    (s[t..t + h.len], s[v..v + DotRun(s, v)])
  }

  /** `lower.match(/kombiniere\s+(.+?)\s+mit\s+(.+)/) || lower.match(/combine\s+(.+?)\s+with\s+(.+)/)`,
      as its two groups. */
  function CombineGroups(lower: string): Option<(string, string)> {
    var m := FirstHit(lower, "kombiniere", "mit");
    if m.Some? then Some(Groups(lower, "kombiniere", "mit", m.value))
    else
      var m' := FirstHit(lower, "combine", "with");
      if m'.Some? then Some(Groups(lower, "combine", "with", m'.value)) else None
  }

  // ---------------------------------------------------------------------------

  /** `x || null` for a string result. */
  function NonEmpty(x: string): (r: Option<string>)
    ensures r.Some? <==> x != ""
    ensures r.Some? ==> r.value == x
  {
    if x == "" then None else Some(x)
  }

  /** The trimmed, lower-cased input the parser works on. */
  function Normalized(text: string): string {
    ToLower(Trim(text))
  }

  /** The tokens of the normalized input. */
  function Tokens(text: string): (tokens: seq<string>)
    ensures |tokens| >= 1
  {
    Split(Normalized(text))
  }

  /** The rest of the action descriptor once the verb is chosen: the combine pattern for
      `combine`, the first direction for `go`, and otherwise the remaining words. */
  function Completed(verb: string, lower: string, tokens: seq<string>, raw: string): (a: Action)
    requires |tokens| >= 1
    ensures a.verb == verb && a.raw == raw
    ensures a.obj.Some? ==> a.obj.value != ""
    ensures a.target.Some? ==> verb == "combine"
    ensures a.direction.Some? ==> verb == "go" && a.direction.value in Directions
  {
    if verb == "combine" then
      var g := CombineGroups(lower);
      if g.Some? then Action(verb, NonEmpty(Trim(g.value.0)), Some(Trim(g.value.1)), None, raw)
      else Action(verb, NonEmpty(Join(tokens[1..], " ")), None, None, raw)
    else if verb == "go" then
      var d := FirstDirection(tokens);
      Action(verb, if d.None? && |tokens| > 1 && tokens[1] != "" then Some(tokens[1]) else None,
             None, d, raw)
    else
      Action(verb, NonEmpty(Join(tokens[1..], " ")), None, None, raw)
  }

  /** The action descriptor for the normalized input `lower` of the line `raw`. */
  function ParseLower(lower: string, raw: string): (a: Action)
    ensures a.raw == raw
    ensures a.obj.Some? ==> a.obj.value != ""
    ensures a.target.Some? ==> a.verb == "combine"
    ensures a.direction.Some? ==> a.verb == "go" && a.direction.value in Directions
  {
    var tokens := Split(lower);
    if |tokens| == 1 && ParseDirection(tokens[0]).Some? then
      Action("go", None, None, ParseDirection(tokens[0]), raw)
    else
      var verb := if NormalizeVerb(lower).Some? then NormalizeVerb(lower).value else tokens[0];
      Completed(verb, lower, tokens, raw)
  }

  /** `parseInput`: the action descriptor for one line of input. */
  function ParseInput(text: string): (a: Action)
    ensures a.raw == text
    ensures a.obj.Some? ==> a.obj.value != ""
    ensures a.target.Some? ==> a.verb == "combine"
    ensures a.direction.Some? ==> a.verb == "go" && a.direction.value in Directions
  {
    ParseLower(Normalized(text), text)
  }
}
