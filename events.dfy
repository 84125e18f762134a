/** The effect-script interpreter, together with the room display it re-enters on a
    `transition` effect (and which runs a room's entry script in turn).

    The JavaScript recursion `runEvents` -> `transition` -> `showRoom` -> `runEvents` has no
    bound: a room whose entry script moves back into itself recurses until the stack is
    exhausted. The model gives the recursion `fuel`, the number of room entries whose scripts
    may still run, and ends with the fault `TooDeep` when it is spent. */
module Events {
  import opened Base
  import opened Model
  import Combat

  /** `indexOf`: the first position of `x`, or `|xs|` when there is none. */
  function IndexOf(xs: seq<string>, x: string): (k: nat)
    ensures k <= |xs|
    ensures k < |xs| ==> xs[k] == x
    ensures forall j :: 0 <= j < k ==> xs[j] != x
  {
    if xs == [] then 0
    else if xs[0] == x then 0
    else 1 + IndexOf(xs[1..], x)
  }

  /** `splice(k, 1)`. */
  function RemoveAt(xs: seq<string>, k: nat): (r: seq<string>)
    requires k < |xs|
    ensures |r| == |xs| - 1
    ensures forall j :: 0 <= j < k ==> r[j] == xs[j]
    ensures forall j :: k <= j < |r| ==> r[j] == xs[j + 1]
  {
    xs[..k] + xs[k + 1..]
  }

  function Quote(s: string): string {
    "\"" + s + "\""
  }

  function QuoteAll(ids: seq<string>): (r: seq<string>)
    ensures |r| == |ids| && forall i :: 0 <= i < |ids| ==> r[i] == Quote(ids[i])
  {
    if ids == [] then [] else [Quote(ids[0])] + QuoteAll(ids[1..])
  }

  function Keys(exits: seq<(string, string)>): (r: seq<string>)
    ensures |r| == |exits| && forall i :: 0 <= i < |exits| ==> r[i] == exits[i].0
  {
    if exits == [] then [] else [exits[0].0] + Keys(exits[1..])
  }

  /** The lines `showRoom` prints for a room: title, description, then the items, the
      objects and the exits, each line only when its list is non-empty. */
  function RoomLines(r: Room): (lines: seq<string>)
    ensures |lines| >= 2 && lines[0] == r.title && lines[1] == r.description
  {
    [r.title, r.description]
    + (if |r.items| > 0 then ["Hier siehst du: " + Join(QuoteAll(r.items), ", ")] else [])
    + (if r.objects.Some? && |r.objects.value| > 0 then ["Objekte: " + Join(r.objects.value, ", ")] else [])
    + (if |r.exits| > 0 then ["Ausgänge: " + Join(Keys(r.exits), ", ")] else [])
  }

  /** The entry script: `on_first_enter` on a first visit when the room has one, else
      `on_enter`. */
  function Script(r: Room, first: bool): (es: seq<Effect>)
    ensures first && r.onFirstEnter.Some? ==> es == r.onFirstEnter.value
    ensures !first || r.onFirstEnter.None? ==> es == r.onEnter
  {
    if first && r.onFirstEnter.Some? then r.onFirstEnter.value else r.onEnter
  }

  /** The room as `showRoom` finds it, marked visited, with its art and lines printed. */
  function Shown(st: State, r: Room): State {
    var st1 := st.(visited := st.visited + {r.id});
    var st2 := if Truthy(r.ascii) then st1.(out := st1.out + [Art(r.ascii.value)]) else st1;
    PrintAll(st2, RoomLines(r))
  }

  /** The text of the message for an effect with an unknown tag. */
  function UnknownText(kind: string): string {
    "Unbekanntes Event: " + (if kind == "" then "unbenannt" else kind)
  }

  /** `runEvents(events)`: the effects in order; a fault ends the script. */
  function Run(c: Content, st: State, es: seq<Effect>, fuel: nat): Outcome
    decreases fuel, SizeAll(es), 1
  {
    if es == [] then Outcome(st, None)
    else
      var r := Handle(c, st, es[0], fuel);
      if r.fault.Some? then r else Run(c, r.st, es[1..], fuel)
  }

  /** The effects that neither run a script nor load a document. */
  predicate Local(e: Effect) {
    !e.FlagIf? && !e.Transition? && !e.TriggerFight?
  }

  /** `add_item` before the save: push the id and announce it, unless it is there. */
  function Added(st: State, id: string): State {
    if id in st.inventory then st
    else Print(st.(inventory := st.inventory + [id]), id + " erhalten.")
  }

  /** `remove_item` before the save: splice out the first occurrence and announce it. */
  function Removed(st: State, id: string): State {
    var k := IndexOf(st.inventory, id);
    if k == |st.inventory| then st
    else Print(st.(inventory := RemoveAt(st.inventory, k)), id + " entfernt.")
  }

  /** `lock_exit` / `unlock_exit` before the save. */
  function Relocked(st: State, room: string, dir: string, locked: bool): State {
    Print(st.(lockedExits := st.lockedExits[LockKey(room, dir) := locked]),
          "Ausgang " + dir + (if locked then " ist nun versperrt." else " ist nun offen."))
  }

  /** A local effect on the state. */
  function Apply(st: State, e: Effect): State
    requires Local(e)
  {
    match e
    case Message(text) => Print(st, text)
    case Ascii(file) => st.(out := st.out + [Art(file)])
    case FlagSet(k, v) => Save(st.(flags := st.flags[k := v]))
    case AddItem(id) => Save(Added(st, id))
    case RemoveItem(id) => Save(Removed(st, id))
    case UnlockExit(room, dir) => Save(Relocked(st, room, dir, false))
    case LockExit(room, dir) => Save(Relocked(st, room, dir, true))
    case Unknown(kind) => Print(st, UnknownText(kind))
  }

  /** `handleEvent(event)`. */
  function Handle(c: Content, st: State, e: Effect, fuel: nat): Outcome
    decreases fuel, Size(e), 0
  {
    match e
    case FlagIf(k, v, t, f) => Run(c, st, if Read(st.flags, k) == v then t else f, fuel)
    case Transition(to) => Show(c, Save(st.(location := to)), true, fuel)
    case TriggerFight(enemy) => Combat.Begin(c, st, enemy)
    case _ => Outcome(Apply(st, e), None)
  }

  /** `showRoom(firstTime)`: load the current room, mark it visited, print it, then run
      its entry script. */
  function Show(c: Content, st: State, first: bool, fuel: nat): Outcome
    decreases fuel, 0, 0
  {
    var (st1, room) := LoadRoom(c, st, st.location);
    if room.None? then Outcome(st1, Some(Missing(RoomPath(st.location))))
    else
      var st2 := Shown(st1, room.value);
      var es := Script(room.value, first);
      if es == [] then Outcome(st2, None)
      else if fuel == 0 then Outcome(st2, Some(TooDeep))
      else Run(c, st2, es, fuel - 1)
  }

  // ---------------------------------------------------------------------------------------
  // Properties

  /** Effects run one after the other: a script is its first part followed by the rest,
      and a fault in the first part skips the rest. */
  lemma {:induction false} RunSequential(c: Content, st: State, a: seq<Effect>, b: seq<Effect>, fuel: nat)
    ensures Run(c, st, a + b, fuel)
         == (var r := Run(c, st, a, fuel); if r.fault.Some? then r else Run(c, r.st, b, fuel))
    decreases |a|
  {
    if a != [] {
      assert (a + b)[0] == a[0];
      assert (a + b)[1..] == a[1..] + b;
      var r := Handle(c, st, a[0], fuel);
      if r.fault.None? {
        RunSequential(c, r.st, a[1..], b, fuel);
      }
    } else {
      assert a + b == b;
    }
  }

  /** `flag_set` sets one flag, keeps every other flag, and saves. */
  lemma FlagSetSetsOne(c: Content, st: State, k: string, v: Value, fuel: nat)
    ensures var r := Handle(c, st, FlagSet(k, v), fuel);
      r.fault.None? && Read(r.st.flags, k) == v
      && (forall other :: other != k ==> Read(r.st.flags, other) == Read(st.flags, other))
      && r.st == st.(flags := r.st.flags, saves := st.saves + 1)
  {
  }

  /** `flag_if` runs `then` exactly when the flag is strictly equal to `equals`, else
      `else`; a missing branch runs nothing and changes nothing. */
  lemma FlagIfChooses(c: Content, st: State, k: string, v: Value, t: seq<Effect>, f: seq<Effect>, fuel: nat)
    ensures Read(st.flags, k) == v ==> Handle(c, st, FlagIf(k, v, t, f), fuel) == Run(c, st, t, fuel)
    ensures Read(st.flags, k) != v ==> Handle(c, st, FlagIf(k, v, t, f), fuel) == Run(c, st, f, fuel)
    ensures Read(st.flags, k) == v && t == [] ==> Handle(c, st, FlagIf(k, v, t, f), fuel) == Outcome(st, None)
    ensures Read(st.flags, k) != v && f == [] ==> Handle(c, st, FlagIf(k, v, t, f), fuel) == Outcome(st, None)
  {
  }

  /** `add_item` puts the id into the inventory once, announces it only when it was new,
      and saves either way. */
  lemma AddItemOnce(c: Content, st: State, id: string, fuel: nat)
    ensures var r := Handle(c, st, AddItem(id), fuel);
      r.fault.None? && id in r.st.inventory && r.st.saves == st.saves + 1
      && (id in st.inventory ==> r.st == st.(saves := st.saves + 1))
      && (id !in st.inventory ==> r.st.inventory == st.inventory + [id]
                                  && r.st.out == st.out + [Line(id + " erhalten.")]
                                  && r.st == st.(inventory := r.st.inventory, out := r.st.out,
                                                 saves := st.saves + 1))
      && (NoDuplicates(st.inventory) ==> NoDuplicates(r.st.inventory))
  {
    assert Handle(c, st, AddItem(id), fuel) == Outcome(Save(Added(st, id)), None);
    if id !in st.inventory {
      var inv := st.inventory + [id];
      assert inv[|st.inventory|] == id;
      assert NoDuplicates(st.inventory) ==> NoDuplicates(inv);
    }
  }

  /** `remove_item` drops the first occurrence of the id and only that one, and saves
      whether or not the id was there. */
  lemma RemoveItemFirst(c: Content, st: State, id: string, fuel: nat)
    ensures var r := Handle(c, st, RemoveItem(id), fuel);
      r.fault.None? && r.st.saves == st.saves + 1
      && (id !in st.inventory ==> r.st == st.(saves := st.saves + 1))
      && (id in st.inventory ==>
            exists k :: 0 <= k < |st.inventory| && st.inventory[k] == id
              && (forall j :: 0 <= j < k ==> st.inventory[j] != id)
              && r.st.inventory == st.inventory[..k] + st.inventory[k + 1..]
              && multiset(r.st.inventory) + multiset{id} == multiset(st.inventory))
      && (id in st.inventory ==>
            r.st.out == st.out + [Line(id + " entfernt.")]
            && r.st == st.(inventory := r.st.inventory, out := r.st.out, saves := st.saves + 1))
  {
    assert Handle(c, st, RemoveItem(id), fuel) == Outcome(Save(Removed(st, id)), None);
    var k := IndexOf(st.inventory, id);
    if id in st.inventory {
      assert k < |st.inventory|;
      RemoveAtCount(st.inventory, k);
    }
  }

  /** Removing position `k` takes exactly one copy of `xs[k]` out of the multiset. */
  lemma RemoveAtCount(xs: seq<string>, k: nat)
    requires k < |xs|
    ensures multiset(RemoveAt(xs, k)) + multiset{xs[k]} == multiset(xs)
  {
    assert xs == xs[..k] + [xs[k]] + xs[k + 1..];
  }

  /** `lock_exit` and `unlock_exit` set the "room:direction" key and no other. */
  lemma LockSetsKey(c: Content, st: State, room: string, dir: string, fuel: nat)
    ensures var r := Handle(c, st, LockExit(room, dir), fuel);
      r.fault.None? && r.st.lockedExits == st.lockedExits[room + ":" + dir := true]
      && r.st.out == st.out + [Line("Ausgang " + dir + " ist nun versperrt.")]
      && r.st == st.(lockedExits := r.st.lockedExits, out := r.st.out, saves := st.saves + 1)
    ensures var r := Handle(c, st, UnlockExit(room, dir), fuel);
      r.fault.None? && r.st.lockedExits == st.lockedExits[room + ":" + dir := false]
      && r.st.out == st.out + [Line("Ausgang " + dir + " ist nun offen.")]
      && r.st == st.(lockedExits := r.st.lockedExits, out := r.st.out, saves := st.saves + 1)
  {
    assert Handle(c, st, LockExit(room, dir), fuel) == Outcome(Save(Relocked(st, room, dir, true)), None);
    assert Handle(c, st, UnlockExit(room, dir), fuel) == Outcome(Save(Relocked(st, room, dir, false)), None);
  }

  /** `transition` moves, saves, and shows the new room as a first visit. */
  lemma TransitionShows(c: Content, st: State, to: string, fuel: nat)
    ensures Handle(c, st, Transition(to), fuel)
         == Show(c, st.(location := to, saves := st.saves + 1), true, fuel)
  {
  }

  /** An effect with an unknown tag only prints a line naming it. */
  lemma UnknownOnlyPrints(c: Content, st: State, kind: string, fuel: nat)
    ensures Handle(c, st, Unknown(kind), fuel)
         == Outcome(st.(out := st.out + [Line(UnknownText(kind))]), None)
    ensures kind == "" ==> UnknownText(kind) == "Unbekanntes Event: unbenannt"
  {
  }

  /** Showing a room marks its id visited and prints its art, then its lines. */
  lemma ShownMarksVisited(st: State, r: Room)
    ensures var st1 := Shown(st, r);
      r.id in st1.visited && st1.visited == st.visited + {r.id}
      && st1.out == st.out + (if Truthy(r.ascii) then [Art(r.ascii.value)] else []) + Lines(RoomLines(r))
      && st1 == st.(visited := st1.visited, out := st1.out)
  {
  }

  /** The room is marked and printed before its script runs; on a first visit the script
      is the first-visit script when the room has one, else the entry script. */
  lemma ShowRunsScript(c: Content, st: State, first: bool, fuel: nat)
    requires st.location in st.rooms || st.location in c.rooms
    ensures var (st0, room) := LoadRoom(c, st, st.location);
      var es := Script(room.value, first);
      (es == [] ==> Show(c, st, first, fuel) == Outcome(Shown(st0, room.value), None))
      && (es != [] && fuel > 0 ==> Show(c, st, first, fuel) == Run(c, Shown(st0, room.value), es, fuel - 1))
  {
  }

  /** Scripts never unmark a room, and never give the inventory a duplicate. */
  predicate Grows(st: State, r: State) {
    st.visited <= r.visited && (NoDuplicates(st.inventory) ==> NoDuplicates(r.inventory))
  }

  lemma {:induction false} RunGrows(c: Content, st: State, es: seq<Effect>, fuel: nat)
    ensures Grows(st, Run(c, st, es, fuel).st)
    decreases fuel, SizeAll(es), 1
  {
    if es != [] {
      var r := Handle(c, st, es[0], fuel);
      SizeOfElement(es, 0);
      HandleGrows(c, st, es[0], fuel);
      if r.fault.None? {
        RunGrows(c, r.st, es[1..], fuel);
      }
    }
  }

  lemma {:induction false} HandleGrows(c: Content, st: State, e: Effect, fuel: nat)
    ensures Grows(st, Handle(c, st, e, fuel).st)
    decreases fuel, Size(e), 0
  {
    match e
    case FlagIf(k, v, t, f) =>
      if Read(st.flags, k) == v {
        RunGrows(c, st, t, fuel);
      } else {
        RunGrows(c, st, f, fuel);
      }
    case Transition(to) =>
      ShowGrows(c, Save(st.(location := to)), true, fuel);
    case TriggerFight(enemy) =>
    case _ =>
      ApplyGrows(st, e);
  }

  lemma ApplyGrows(st: State, e: Effect)
    requires Local(e)
    ensures Grows(st, Apply(st, e))
  {
    if e.RemoveItem? {
      var k := IndexOf(st.inventory, e.id);
      if k < |st.inventory| {
        var r := RemoveAt(st.inventory, k);
        assert Apply(st, e).inventory == r;
        assert forall i, j :: 0 <= i < j < |r| ==>
          r[i] == st.inventory[if i < k then i else i + 1] && r[j] == st.inventory[if j < k then j else j + 1];
      }
    } else if e.AddItem? && e.id !in st.inventory {
      var inv := st.inventory + [e.id];
      assert Apply(st, e).inventory == inv && inv[|st.inventory|] == e.id;
    }
  }

  lemma {:induction false} ShowGrows(c: Content, st: State, first: bool, fuel: nat)
    ensures Grows(st, Show(c, st, first, fuel).st)
    decreases fuel, 0, 0
  {
    var (st1, room) := LoadRoom(c, st, st.location);
    if room.Some? {
      var st2 := Shown(st1, room.value);
      var es := Script(room.value, first);
      if es != [] && fuel > 0 {
        RunGrows(c, st2, es, fuel - 1);
      }
    }
  }

  // ---------------------------------------------------------------------------------------
  // The interpreter on the engine state

  /** `runEvents(events, state, ctx)`. */
  method RunEvents(s: Session, es: seq<Effect>, fuel: nat) returns (fault: Option<Fault>)
    modifies s
    ensures s.Snapshot() == Run(s.content, old(s.Snapshot()), es, fuel).st
    ensures fault == Run(s.content, old(s.Snapshot()), es, fuel).fault
    decreases fuel, SizeAll(es), 1
  {
    ghost var whole := Run(s.content, s.Snapshot(), es, fuel);
    fault := None;
    var i := 0;
    while i < |es| && fault.None?
      invariant 0 <= i <= |es|
      invariant fault.None? ==> whole == Run(s.content, s.Snapshot(), es[i..], fuel)
      invariant fault.Some? ==> whole == Outcome(s.Snapshot(), fault)
    {
      assert es[i..][0] == es[i];
      assert es[i..][1..] == es[i + 1..];
      SizeOfElement(es, i);
      fault := HandleEvent(s, es[i], fuel);
      i := i + 1;
    }
    if fault.None? {
      assert es[i..] == [];
    }
  }

  /** `handleEvent(event, state, ctx)`. */
  method HandleEvent(s: Session, e: Effect, fuel: nat) returns (fault: Option<Fault>)
    modifies s
    ensures s.Snapshot() == Handle(s.content, old(s.Snapshot()), e, fuel).st
    ensures fault == Handle(s.content, old(s.Snapshot()), e, fuel).fault
    decreases fuel, Size(e), 0
  {
    ghost var st0 := s.Snapshot();
    fault := None;
    match e {
      case FlagIf(k, v, t, f) =>
        var matches := Read(s.flags, k) == v;
        var chain := if matches then t else f;
        assert Handle(s.content, st0, e, fuel) == Run(s.content, st0, chain, fuel);
        fault := RunEvents(s, chain, fuel);
      case Transition(to) =>
        s.location := to;
        s.saves := s.saves + 1;
        assert Handle(s.content, st0, e, fuel) == Show(s.content, s.Snapshot(), true, fuel);
        fault := ShowRoom(s, true, fuel);
      case TriggerFight(enemy) =>
        assert Handle(s.content, st0, e, fuel) == Combat.Begin(s.content, st0, enemy);
        var ok := Combat.StartCombat(s, enemy);
        if !ok {
          fault := Some(Missing(EnemyPath(enemy)));
        }
      case _ =>
        assert Handle(s.content, st0, e, fuel) == Outcome(Apply(st0, e), None);
        ApplyEffect(s, e);
    }
  }

  /** The local cases of `handleEvent`. */
  method ApplyEffect(s: Session, e: Effect)
    requires Local(e)
    modifies s
    ensures s.Snapshot() == Apply(old(s.Snapshot()), e)
  {
    match e {
      case Message(text) =>
        s.out := s.out + [Line(text)];
      case Ascii(file) =>
        s.out := s.out + [Art(file)];
      case FlagSet(k, v) =>
        s.flags := s.flags[k := v];
        s.saves := s.saves + 1;
      case AddItem(id) =>
        AddToInventory(s, id);
        s.saves := s.saves + 1;
      case RemoveItem(id) =>
        RemoveFromInventory(s, id);
        s.saves := s.saves + 1;
      case UnlockExit(room, dir) =>
        SetExitLock(s, room, dir, false);
        s.saves := s.saves + 1;
      case LockExit(room, dir) =>
        SetExitLock(s, room, dir, true);
        s.saves := s.saves + 1;
      case Unknown(kind) =>
        s.out := s.out + [Line(UnknownText(kind))];
    }
  }

  method AddToInventory(s: Session, id: string)
    modifies s
    ensures s.Snapshot() == Added(old(s.Snapshot()), id)
  {
    if id !in s.inventory {
      s.inventory := s.inventory + [id];
      s.out := s.out + [Line(id + " erhalten.")];
    }
  }

  method RemoveFromInventory(s: Session, id: string)
    modifies s
    ensures s.Snapshot() == Removed(old(s.Snapshot()), id)
  {
    var k := IndexOf(s.inventory, id);
    if k != |s.inventory| {
      s.inventory := RemoveAt(s.inventory, k);
      s.out := s.out + [Line(id + " entfernt.")];
    }
  }

  method SetExitLock(s: Session, room: string, dir: string, locked: bool)
    modifies s
    ensures s.Snapshot() == Relocked(old(s.Snapshot()), room, dir, locked)
  {
    s.lockedExits := s.lockedExits[LockKey(room, dir) := locked];
    s.out := s.out + [Line("Ausgang " + dir + (if locked then " ist nun versperrt." else " ist nun offen."))];
  }

  /** `showRoom(firstTime)`. */
  method ShowRoom(s: Session, first: bool, fuel: nat) returns (fault: Option<Fault>)
    modifies s
    ensures s.Snapshot() == Show(s.content, old(s.Snapshot()), first, fuel).st
    ensures fault == Show(s.content, old(s.Snapshot()), first, fuel).fault
    decreases fuel, 0, 0
  {
    var room := LoadRoomInto(s, s.location);
    if room.None? {
      return Some(Missing(RoomPath(s.location)));
    }
    DisplayRoom(s, room.value);
    var es := Script(room.value, first);
    if es == [] {
      return None;
    }
    if fuel == 0 {
      return Some(TooDeep);
    }
    fault := RunEvents(s, es, fuel - 1);
  }

  /** `loadRoom(id)` on the engine's room cache. */
  method LoadRoomInto(s: Session, id: string) returns (room: Option<Room>)
    modifies s
    ensures (s.Snapshot(), room) == LoadRoom(s.content, old(s.Snapshot()), id)
  {
    if id !in s.rooms {
      if id !in s.content.rooms {
        return None;
      }
      s.rooms := s.rooms[id := s.content.rooms[id]];
    }
    room := Some(s.rooms[id]);
  }

  /** The display part of `showRoom`. */
  method DisplayRoom(s: Session, room: Room)
    modifies s
    ensures s.Snapshot() == Shown(old(s.Snapshot()), room)
  {
    s.visited := s.visited + {room.id};
    if Truthy(room.ascii) {
      s.out := s.out + [Art(room.ascii.value)];
    }
    s.out := s.out + Lines(RoomLines(room));
  }
}
