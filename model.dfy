/** The records of the adventure engine: the content it loads (world, rooms, items, objects,
    enemies), the effect scripts they carry, and the player state that the engine mutates,
    both as a value (`State`) and as the object the engine updates in place (`Session`). */
module Model {
  import opened Base

  /** A flag value as JSON gives it; `Undefined` is what a missing field or an unset flag
      reads as. */
  datatype Value = Undefined | Null | Bool(b: bool) | Num(n: int) | Str(s: string)

  /** `flags[key]`: an unset flag reads as `undefined`. */
  function Read(flags: map<string, Value>, key: string): (v: Value)
    ensures key !in flags ==> v == Undefined
    ensures key in flags ==> v == flags[key]
  {
    if key in flags then flags[key] else Undefined
  }

  /** One effect of an event script, by its `type` tag. `Unknown` carries a tag the engine
      does not know ("" when the tag is missing). A missing `then`/`else` list of `flag_if`
      is the empty list, which runs nothing either. */
  datatype Effect =
    | Message(text: string)
    | Ascii(file: string)
    | FlagSet(key: string, value: Value)
    | FlagIf(key: string, equals: Value, thenDo: seq<Effect>, elseDo: seq<Effect>)
    | AddItem(id: string)
    | RemoveItem(id: string)
    | UnlockExit(room: string, direction: string)
    | LockExit(room: string, direction: string)
    | Transition(to: string)
    | TriggerFight(enemy: string)
    | Unknown(kind: string)

  /** The number of effects in a script, nested branches included. */
  function Size(e: Effect): (n: nat)
    ensures n >= 1
  {
    match e
    case FlagIf(_, _, t, f) => 1 + SizeAll(t) + SizeAll(f)
    case _ => 1
  }

  function SizeAll(es: seq<Effect>): nat {
    if es == [] then 0 else Size(es[0]) + SizeAll(es[1..])
  }

  lemma {:induction false} SizeOfElement(es: seq<Effect>, i: nat)
    requires i < |es|
    ensures Size(es[i]) <= SizeAll(es)
  {
    if i > 0 {
      SizeOfElement(es[1..], i - 1);
    }
  }

  datatype Stats = Stats(hp: int, attack: int, defense: int)

  /** `defaultStats`. */
  const DefaultStats: Stats := Stats(12, 2, 1)

  /** An enemy document. For rooms and enemies alike, `ascii` is the art to show:
      `Some(f)` with a non-empty `f` stands for the `{file: f}` record `loadAscii` reads;
      `None` and the empty string, which the engine tests as falsy, show no art. */
  datatype Enemy = Enemy(name: string, description: string, stats: Stats,
                         drops: seq<string>, ascii: Option<string>)

  /** A room document. `objects` is `None` when the document has no `objects` list; a
      missing `items` list is empty. `exits` keeps the document's key order. */
  datatype Room = Room(id: string, title: string, description: string, ascii: Option<string>,
                       items: seq<string>, objects: Option<seq<string>>,
                       exits: seq<(string, string)>,
                       onEnter: seq<Effect>, onFirstEnter: Option<seq<Effect>>)

  datatype Item = Item(id: string, name: string, description: string, pickup: bool,
                       onUse: seq<Effect>, combine: map<string, seq<Effect>>)

  /** An object document (a fixture of a room). */
  datatype Fixture = Fixture(name: string, description: string, locked: bool,
                             inspect: seq<Effect>, use: seq<Effect>, onLockedUse: seq<Effect>)

  datatype Messages = Messages(cannotGo: string, unknownCommand: string, cannotTake: string)

  datatype World = World(startRoom: string, globalFlags: map<string, Value>, messages: Messages)

  /** The data files the loader can fetch, by id. */
  datatype Content = Content(world: World, rooms: map<string, Room>, items: map<string, Item>,
                             objects: map<string, Fixture>, enemies: map<string, Enemy>)

  /** One entry of the output log: a printed line or a piece of ASCII art by file name. */
  datatype Out = Line(text: string) | Art(file: string)

  /** The engine's state record together with the room cache, the number of saves taken and
      the output log. */
  datatype State = State(location: string, inventory: seq<string>, flags: map<string, Value>,
                         stats: Stats, inCombat: bool, enemy: Option<Enemy>,
                         visited: set<string>, lockedExits: map<string, bool>,
                         rooms: map<string, Room>, saves: nat, out: seq<Out>)

  /** Why an operation stopped early: a data file that could not be loaded, scripts
      nested deeper than the fuel allows, or a JavaScript `TypeError` (a property read on
      `undefined`). */
  datatype Fault = Missing(path: string) | TooDeep | TypeError(property: string)

  /** The state reached, and the fault that stopped the operation, if any. */
  datatype Outcome = Outcome(st: State, fault: Option<Fault>)

  function Print(st: State, text: string): State {
    st.(out := st.out + [Line(text)])
  }

  /** `printLines(texts)`: one output line per text. */
  function Lines(texts: seq<string>): (r: seq<Out>)
    ensures |r| == |texts| && forall i :: 0 <= i < |texts| ==> r[i] == Line(texts[i])
  {
    seq(|texts|, i requires 0 <= i < |texts| => Line(texts[i]))
  }

  function PrintAll(st: State, texts: seq<string>): State {
    st.(out := st.out + Lines(texts))
  }

  /** `saveState()`: a snapshot of the state is written; the model counts them. */
  function Save(st: State): State {
    st.(saves := st.saves + 1)
  }

  /** No id occurs twice: what `includes` before every `push` keeps for the inventory. */
  predicate NoDuplicates(xs: seq<string>) {
    forall i, j :: 0 <= i < j < |xs| ==> xs[i] != xs[j]
  }

  /** The key of an exit in `lockedExits`. */
  function LockKey(room: string, direction: string): (k: string)
    ensures |k| == |room| + 1 + |direction|
    ensures k[..|room|] == room && k[|room|] == ':' && k[|room| + 1..] == direction
  {
    room + ":" + direction
  }

  /** `loadRoom(id)`: the cached room, else the room document, which is then cached. */
  function LoadRoom(c: Content, st: State, id: string): (r: (State, Option<Room>))
    ensures r.1.Some? <==> id in st.rooms || id in c.rooms
    ensures id in st.rooms ==> r == (st, Some(st.rooms[id]))
    ensures id !in st.rooms && id in c.rooms ==>
      r == (st.(rooms := st.rooms[id := c.rooms[id]]), Some(c.rooms[id]))
    ensures r.1.None? ==> r.0 == st
  {
    if id in st.rooms then (st, Some(st.rooms[id]))
    else if id in c.rooms then (st.(rooms := st.rooms[id := c.rooms[id]]), Some(c.rooms[id]))
    else (st, None)
  }

  function RoomPath(id: string): string { "rooms/" + id + ".json" }
  function ItemPath(id: string): string { "items/" + id + ".json" }
  function ObjectPath(id: string): string { "objects/" + id + ".json" }
  function EnemyPath(id: string): string { "enemies/" + id + ".json" }

  /** `ids.find(id => id.toLowerCase().includes(phrase))`. */
  function FindContaining(ids: seq<string>, phrase: string): (r: Option<string>)
    ensures r.None? <==> forall i :: 0 <= i < |ids| ==> !Contains(ToLower(ids[i]), phrase)
    ensures r.Some? ==> exists i :: 0 <= i < |ids| && ids[i] == r.value
                           && Contains(ToLower(ids[i]), phrase)
                           && forall m :: 0 <= m < i ==> !Contains(ToLower(ids[m]), phrase)
  {
    if ids == [] then None
    else if Contains(ToLower(ids[0]), phrase) then Some(ids[0])
    else
      var r := FindContaining(ids[1..], phrase);
      assert forall i :: 1 <= i < |ids| ==> ids[i] == ids[1..][i - 1];
      r
  }

  /** The state the engine mutates in place: the module-level `state` record and the room
      cache of the engine, the save counter and the output log. The loadable data is fixed. */
  class Session {
    const content: Content
    var location: string
    var inventory: seq<string>
    var flags: map<string, Value>
    var stats: Stats
    var inCombat: bool
    var enemy: Option<Enemy>
    var visited: set<string>
    var lockedExits: map<string, bool>
    var rooms: map<string, Room>
    var saves: nat
    var out: seq<Out>

    /** The state as a value. */
    function Snapshot(): (st: State)
      reads this
    {
      State(location, inventory, flags, stats, inCombat, enemy, visited, lockedExits,
            rooms, saves, out)
    }

    /** The initial state record, before the adventure starts: no location yet (the empty
        id), default stats, nothing cached, nothing printed. */
    constructor (content: Content)
      ensures this.content == content
      ensures Snapshot() == State("", [], map[], DefaultStats, false, None, {}, map[], map[], 0, [])
    {
      this.content := content;
      location := "";
      inventory := [];
      flags := map[];
      stats := DefaultStats;
      inCombat := false;
      enemy := None;
      visited := {};
      lockedExits := map[];
      rooms := map[];
      saves := 0;
      out := [];
    }
  }
}
