/** The dialog graphs of the adventure builder. A dialog names a start node and holds a table
    of nodes; each node has a text and a list of choices, and the `next` of a choice names
    another node. Renaming and removing a node keep the `next` references in step, validation
    lists what is missing, and normalisation fills in the defaults of every choice. */
module Dialogs {
  import opened Base
  import opened Model

  /** `gate.flag` as the JSON gives it: `key` may be missing, `equals` is any value. */
  datatype GateFlag = GateFlag(key: Option<string>, equals: Value)

  /** A gate: the `requires` or `hidden_if` of a choice. `items` is `None` when the field is
      missing or is not an array. */
  datatype Gate = Gate(items: Option<seq<string>>, flag: Option<GateFlag>)

  /** A choice of a node. A field missing from the JSON is `None`; `rest` holds the fields the
      builder does not interpret, which every copy keeps. `needs` is the JSON field
      `requires`, `hiddenIf` the field `hidden_if`. */
  datatype Choice = Choice(text: Option<string>, next: Option<string>, status: Option<string>,
                           events: Option<seq<Effect>>, needs: Option<Gate>,
                           hiddenIf: Option<Gate>, rest: map<string, Value>)

  /** A node; `choices` is `None` when the node has no `choices` list. */
  datatype Node = Node(text: string, choices: Option<seq<Choice>>)

  /** A dialog as a value. `start` is `None` when the field is missing; `order` lists the keys
      of `nodes` in the order JavaScript enumerates them, which is insertion order. */
  datatype DialogData = DialogData(npc: string, start: Option<string>, order: seq<string>,
                                   nodes: map<string, Node>)

  /** What `renameNode` and `removeNode` end with: their boolean result, or the exception
      thrown by a node without a `choices` list. */
  datatype Reply = Returned(ok: bool) | Threw(error: Fault)

  /** `order` enumerates exactly the keys of `nodes`, each once: the two describe one object. */
  ghost predicate WellFormed(d: DialogData) {
    NoDuplicates(d.order) && forall id :: id in d.order <==> id in d.nodes
  }

  /** Every node has a `choices` list, as after `normalizeDialog`. */
  predicate HasChoices(nodes: map<string, Node>) {
    forall id :: id in nodes ==> nodes[id].choices.Some?
  }

  /** The empty node that `createEmptyDialog` and `ensureDialogForNpc` put in. */
  const EmptyNode: Node := Node("", Some([]))

  // ---------------------------------------------------------------- normalisation

  /** A gate in the form `normalizeGate` produces: an item list, and a flag only with a key and
      a boolean `equals`. */
  predicate NormalGate(g: Gate) {
    g.items.Some? && (g.flag.Some? ==> Truthy(g.flag.value.key) && g.flag.value.equals.Bool?)
  }

  /** `normalizeGate(gate)`. */
  function NormalizeGate(g: Option<Gate>): (r: Gate)
    ensures NormalGate(r)
    ensures g.None? ==> r == Gate(Some([]), None)
    ensures g.Some? && g.value.items.Some? ==> r.items == g.value.items
    ensures g.Some? && g.value.items.None? ==> r.items == Some([])
    ensures r.flag.Some? <==> g.Some? && g.value.flag.Some? && Truthy(g.value.flag.value.key)
    ensures r.flag.Some? ==>
      r.flag.value.key == g.value.flag.value.key &&
      (r.flag.value.equals == Bool(false) <==> g.value.flag.value.equals == Bool(false))
  {
    match g
    case None => Gate(Some([]), None)
    case Some(gate) =>
      var items := if gate.items.Some? then gate.items.value else [];
      var flag := if gate.flag.Some? && Truthy(gate.flag.value.key)
                  then Some(GateFlag(gate.flag.value.key, Bool(gate.flag.value.equals != Bool(false))))
                  else None;
      Gate(Some(items), flag)
  }

  /** A choice in the form `normalizeChoice` produces. */
  predicate NormalChoice(c: Choice) {
    c.text.Some? && c.next.Some? && Truthy(c.status) && c.events.Some? &&
    c.needs.Some? && NormalGate(c.needs.value) &&
    c.hiddenIf.Some? && NormalGate(c.hiddenIf.value)
  }

  /** `normalizeChoice(choice)`: a copy with every default filled in. */
  function NormalizeChoice(c: Choice): (r: Choice)
    ensures NormalChoice(r)
    ensures Truthy(c.text) ==> r.text == c.text
    ensures !Truthy(c.text) ==> r.text == Some("")
    ensures Truthy(c.next) ==> r.next == c.next
    ensures !Truthy(c.next) ==> r.next == Some("")
    ensures Truthy(c.status) ==> r.status == c.status
    ensures !Truthy(c.status) ==> r.status == Some("active")
    ensures c.events.Some? ==> r.events == c.events
    ensures c.events.None? ==> r.events == Some([])
    ensures r.needs == Some(NormalizeGate(c.needs))
    ensures r.hiddenIf == Some(NormalizeGate(c.hiddenIf))
    ensures r.rest == c.rest
  {
    c.(text := Some(OrElse(c.text, "")),
       next := Some(OrElse(c.next, "")),
       status := Some(OrElse(c.status, "active")),
       events := if c.events.Some? then c.events else Some([]),
       needs := Some(NormalizeGate(c.needs)),
       hiddenIf := Some(NormalizeGate(c.hiddenIf)))
  }

  /** A normal gate is a fixed point of `normalizeGate`. */
  lemma NormalGateSettles(g: Gate)
    requires NormalGate(g)
    ensures NormalizeGate(Some(g)) == g
  {
    if g.flag.Some? {
      assert g.flag.value.equals == Bool(g.flag.value.equals != Bool(false));
    }
  }

  /** A normal choice is a fixed point of `normalizeChoice`, so normalising twice is
      normalising once. */
  lemma NormalChoiceSettles(c: Choice)
    requires NormalChoice(c)
    ensures NormalizeChoice(c) == c
  {
    NormalGateSettles(c.needs.value);
    NormalGateSettles(c.hiddenIf.value);
  }

  /** A node in the form `normalizeDialog` leaves it. */
  predicate NormalNode(n: Node) {
    n.choices.Some? && forall i :: 0 <= i < |n.choices.value| ==> NormalChoice(n.choices.value[i])
  }

  /** One node of `normalizeDialog`: `(node.choices || []).map(normalizeChoice)`. */
  function NormalizeNode(n: Node): (r: Node)
    ensures NormalNode(r) && r.text == n.text
    ensures n.choices.None? ==> r.choices == Some([])
    ensures n.choices.Some? ==> |r.choices.value| == |n.choices.value|
    ensures n.choices.Some? ==> forall i :: 0 <= i < |n.choices.value| ==>
      r.choices.value[i] == NormalizeChoice(n.choices.value[i])
  {
    var cs := if n.choices.Some? then n.choices.value else [];
    Node(n.text, Some(seq(|cs|, i requires 0 <= i < |cs| => NormalizeChoice(cs[i]))))
  }

  /** `normalizeDialog(dialog)`: every node normalised, the key set and the order kept. */
  function NormalizeDialog(d: DialogData): (r: DialogData)
    ensures r.npc == d.npc && r.start == d.start && r.order == d.order
    ensures r.nodes.Keys == d.nodes.Keys
    ensures forall id :: id in d.nodes ==> r.nodes[id] == NormalizeNode(d.nodes[id])
  {
    d.(nodes := map id | id in d.nodes :: NormalizeNode(d.nodes[id]))
  }

  /** After `normalizeDialog` every node is normal, so it has a `choices` list. */
  lemma NormalizedIsNormal(d: DialogData)
    ensures forall id :: id in NormalizeDialog(d).nodes ==> NormalNode(NormalizeDialog(d).nodes[id])
    ensures HasChoices(NormalizeDialog(d).nodes)
  {
  }

  /** Normalising a normal node changes nothing. */
  lemma NormalNodeSettles(n: Node)
    requires NormalNode(n)
    ensures NormalizeNode(n) == n
  {
    var cs := n.choices.value;
    var r := NormalizeNode(n).choices.value;
    forall i | 0 <= i < |cs|
      ensures r[i] == cs[i]
    {
      NormalChoiceSettles(cs[i]);
    }
    assert r == cs;
  }

  /** `normalizeDialog` is idempotent. */
  lemma NormalizeTwice(d: DialogData)
    ensures NormalizeDialog(NormalizeDialog(d)) == NormalizeDialog(d)
  {
    var once := NormalizeDialog(d);
    var twice := NormalizeDialog(once);
    forall id | id in once.nodes
      ensures twice.nodes[id] == once.nodes[id]
    {
      NormalNodeSettles(once.nodes[id]);
    }
    assert twice.nodes == once.nodes;
  }

  // ---------------------------------------------------------------- creating

  /** `createEmptyDialog(npcId)`. */
  function CreateEmptyDialog(npc: string): (r: DialogData)
    ensures r.npc == npc && r.start == Some("start")
    ensures WellFormed(r) && r.nodes.Keys == {"start"} && r.nodes["start"] == EmptyNode
  {
    DialogData(npc, Some("start"), ["start"], map["start" := EmptyNode])
  }

  /** The property key `dialog.start` reads: JavaScript turns a missing start into the key
      "undefined". */
  function StartKey(start: Option<string>): string {
    if start.Some? then start.value else "undefined"
  }

  /** The start-node repair of `ensureDialogForNpc`: when no node sits under the start key, an
      empty node is stored under the start id, or under "start" when the start id is missing or
      empty, and that id becomes the start. */
  function EnsureStart(d: DialogData): (r: DialogData)
    ensures StartKey(r.start) in r.nodes
    ensures r.npc == d.npc && d.nodes.Keys <= r.nodes.Keys
    ensures StartKey(d.start) in d.nodes ==> r == d
    ensures StartKey(d.start) !in d.nodes ==>
      r.start == Some(OrElse(d.start, "start")) && r.nodes == d.nodes[r.start.value := EmptyNode]
    ensures WellFormed(d) ==> WellFormed(r)
  {
    if StartKey(d.start) in d.nodes then d
    else
      var id := OrElse(d.start, "start");
      var r := d.(start := Some(id), nodes := d.nodes[id := EmptyNode],
                  order := if id in d.nodes then d.order else d.order + [id]);
      AppendKeepsDistinct(d.order, id);
      r
  }

  /** With a missing or empty start id and no node under its key, `ensureDialogForNpc` stores
      the empty node under "start" even when a "start" node exists: that node's text and
      choices are replaced. */
  lemma EnsureStartReplaces(d: DialogData)
    requires !Truthy(d.start) && StartKey(d.start) !in d.nodes
    ensures EnsureStart(d).start == Some("start")
    ensures EnsureStart(d).nodes["start"] == EmptyNode
  {
  }

  // ---------------------------------------------------------------- renaming and removing

  /** `if (choice.next === from) choice.next = to`. */
  function Retarget(c: Choice, from: string, to: string): (r: Choice)
    ensures c.next == Some(from) ==> r == c.(next := Some(to))
    ensures c.next != Some(from) ==> r == c
  {
    if c.next == Some(from) then c.(next := Some(to)) else c
  }

  /** Every choice of a list retargeted. */
  function RetargetAll(cs: seq<Choice>, from: string, to: string): (r: seq<Choice>)
    ensures |r| == |cs| && forall i :: 0 <= i < |cs| ==> r[i] == Retarget(cs[i], from, to)
  {
    seq(|cs|, i requires 0 <= i < |cs| => Retarget(cs[i], from, to))
  }

  /** A node with every choice retargeted. */
  function Retargeted(n: Node, from: string, to: string): (r: Node)
    requires n.choices.Some?
    ensures r.text == n.text && r.choices.Some? && |r.choices.value| == |n.choices.value|
    ensures forall i :: 0 <= i < |n.choices.value| ==>
      r.choices.value[i] == Retarget(n.choices.value[i], from, to)
  {
    Node(n.text, Some(RetargetAll(n.choices.value, from, to)))
  }

  /** `choices.forEach(choice => { if (choice.next === from) choice.next = to; })`. */
  method RetargetList(choices: seq<Choice>, from: string, to: string) returns (cs: seq<Choice>)
    ensures cs == RetargetAll(choices, from, to)
  {
    cs := choices;
    var j := 0;
    while j < |cs|
      invariant 0 <= j <= |cs| && |cs| == |choices|
      invariant forall k :: 0 <= k < j ==> cs[k] == Retarget(choices[k], from, to)
      invariant forall k :: j <= k < |cs| ==> cs[k] == choices[k]
    {
      if cs[j].next == Some(from) {
        cs := cs[j := cs[j].(next := Some(to))];
      }
      j := j + 1;
    }
  }

  /** The `Object.values(nodes).forEach(...)` pass of `renameNode` and `removeNode` over the
      nodes `ids`, in order. A node without a `choices` list throws (reading `forEach` of
      `undefined`), and the nodes before it stay retargeted. */
  function RetargetNodes(nodes: map<string, Node>, ids: seq<string>, from: string, to: string)
    : (r: (map<string, Node>, Option<Fault>))
    ensures r.0.Keys == nodes.Keys
    decreases |ids|
  {
    if ids == [] then (nodes, None)
    else if ids[0] !in nodes then RetargetNodes(nodes, ids[1..], from, to)
    else if nodes[ids[0]].choices.None? then (nodes, Some(TypeError("forEach")))
    else RetargetNodes(nodes[ids[0] := Retargeted(nodes[ids[0]], from, to)], ids[1..], from, to)
  }

  /** When every node has its list, the pass throws nothing and retargets exactly the nodes
      listed. */
  lemma {:induction false} RetargetNodesDone(nodes: map<string, Node>, ids: seq<string>,
                                             from: string, to: string)
    requires NoDuplicates(ids)
    requires forall k :: 0 <= k < |ids| ==> ids[k] in nodes && nodes[ids[k]].choices.Some?
    ensures RetargetNodes(nodes, ids, from, to).1 == None
    ensures forall id :: id in nodes ==>
      RetargetNodes(nodes, ids, from, to).0[id] ==
        (if id in ids then Retargeted(nodes[id], from, to) else nodes[id])
  {
    if ids != [] {
      var a := ids[0];
      var rest := ids[1..];
      var next := nodes[a := Retargeted(nodes[a], from, to)];
      forall k | 0 <= k < |rest|
        ensures rest[k] != a && rest[k] in next && next[rest[k]].choices.Some?
      {
        assert rest[k] == ids[k + 1];
      }
      assert NoDuplicates(rest) by {
        forall i, j | 0 <= i < j < |rest|
          ensures rest[i] != rest[j]
        {
          assert rest[i] == ids[i + 1] && rest[j] == ids[j + 1];
        }
      }
      RetargetNodesDone(next, rest, from, to);
      forall id | id in nodes
        ensures RetargetNodes(nodes, ids, from, to).0[id] ==
          (if id in ids then Retargeted(nodes[id], from, to) else nodes[id])
      {
        assert id in ids <==> id == a || id in rest;
        if id in rest {
          assert id != a;
        }
      }
    }
  }

  /** A node without a `choices` list among those listed makes the pass throw. */
  lemma {:induction false} RetargetNodesThrows(nodes: map<string, Node>, ids: seq<string>,
                                               from: string, to: string, k: nat)
    requires k < |ids| && ids[k] in nodes && nodes[ids[k]].choices.None?
    ensures RetargetNodes(nodes, ids, from, to).1 == Some(TypeError("forEach"))
  {
    if ids[0] in nodes && nodes[ids[0]].choices.Some? {
      assert k > 0 && ids[k] != ids[0];
      var next := nodes[ids[0] := Retargeted(nodes[ids[0]], from, to)];
      assert ids[1..][k - 1] == ids[k];
      RetargetNodesThrows(next, ids[1..], from, to, k - 1);
    } else if ids[0] !in nodes {
      assert k > 0;
      assert ids[1..][k - 1] == ids[k];
      RetargetNodesThrows(nodes, ids[1..], from, to, k - 1);
    }
  }

  /** `renameNode(dialog, oldId, newId)`. */
  function Rename(d: DialogData, oldId: string, newId: string): (r: (DialogData, Reply))
    ensures r.1 == Returned(false) <==> oldId !in d.nodes || newId in d.nodes
    ensures r.1 == Returned(false) ==> r.0 == d
  {
    if oldId !in d.nodes || newId in d.nodes then (d, Returned(false))
    else
      var moved := d.(nodes := d.nodes[newId := d.nodes[oldId]] - {oldId},
                      order := Without(d.order, oldId) + [newId],
                      start := if d.start == Some(oldId) then Some(newId) else d.start);
      var pass := RetargetNodes(moved.nodes, moved.order, oldId, newId);
      (moved.(nodes := pass.0), if pass.1.Some? then Threw(pass.1.value) else Returned(true))
  }

  /** `removeNode(dialog, nodeId)`. */
  function Remove(d: DialogData, nodeId: string): (r: (DialogData, Reply))
    ensures r.1 == Returned(false) <==> d.start == Some(nodeId)
    ensures r.1 == Returned(false) ==> r.0 == d
  {
    if d.start == Some(nodeId) then (d, Returned(false))
    else
      var cut := d.(nodes := d.nodes - {nodeId}, order := Without(d.order, nodeId));
      var pass := RetargetNodes(cut.nodes, cut.order, nodeId, "");
      (cut.(nodes := pass.0), if pass.1.Some? then Threw(pass.1.value) else Returned(true))
  }

  lemma {:induction false} WithoutKeepsDistinct(xs: seq<string>, x: string)
    requires NoDuplicates(xs)
    ensures NoDuplicates(Without(xs, x))
  {
    if xs != [] {
      var rest := xs[1..];
      assert NoDuplicates(rest) by {
        forall i, j | 0 <= i < j < |rest|
          ensures rest[i] != rest[j]
        {
          assert rest[i] == xs[i + 1] && rest[j] == xs[j + 1];
        }
      }
      WithoutKeepsDistinct(rest, x);
      if xs[0] != x {
        assert xs[0] !in rest;
        assert xs[0] !in Without(rest, x);
      }
    }
  }

  lemma AppendKeepsDistinct(xs: seq<string>, x: string)
    ensures NoDuplicates(xs) && x !in xs ==> NoDuplicates(xs + [x])
  {
  }

  /** The node table and order after the move of a rename describe one object. */
  lemma MovedWellFormed(d: DialogData, oldId: string, newId: string)
    requires WellFormed(d) && oldId in d.nodes && newId !in d.nodes
    ensures var order := Without(d.order, oldId) + [newId];
            var nodes := d.nodes[newId := d.nodes[oldId]] - {oldId};
            NoDuplicates(order) && forall id :: id in order <==> id in nodes
  {
    WithoutKeepsDistinct(d.order, oldId);
    AppendKeepsDistinct(Without(d.order, oldId), newId);
  }

  /** Renaming keeps a dialog well-formed, whether it returns, refuses or throws. */
  lemma RenameKeepsWellFormed(d: DialogData, oldId: string, newId: string)
    requires WellFormed(d)
    ensures WellFormed(Rename(d, oldId, newId).0)
  {
    if oldId in d.nodes && newId !in d.nodes {
      MovedWellFormed(d, oldId, newId);
    }
  }

  /** Some choice of the node has `next` equal to `id`. */
  predicate RefersTo(n: Node, id: string) {
    n.choices.Some? && exists i :: 0 <= i < |n.choices.value| && n.choices.value[i].next == Some(id)
  }

  /** Retargeting away from an id leaves no choice naming it. */
  lemma RetargetClears(n: Node, from: string, to: string)
    requires n.choices.Some? && from != to
    ensures !RefersTo(Retargeted(n, from, to), from)
  {
    var r := Retargeted(n, from, to);
    forall i | 0 <= i < |r.choices.value|
      ensures r.choices.value[i].next != Some(from)
    {
      assert r.choices.value[i] == Retarget(n.choices.value[i], from, to);
    }
  }

  /** A rename of an existing node to a free id moves the node, keeps the number of nodes and
      moves the start with it; every node, the moved one included, has its references to the
      old id redirected to the new one. */
  lemma RenameMoves(d: DialogData, oldId: string, newId: string)
    requires WellFormed(d) && HasChoices(d.nodes)
    requires oldId in d.nodes && newId !in d.nodes
    ensures Rename(d, oldId, newId).1 == Returned(true)
    ensures var e := Rename(d, oldId, newId).0;
      e.nodes.Keys == d.nodes.Keys - {oldId} + {newId} && |e.nodes| == |d.nodes| &&
      e.npc == d.npc && e.start == (if d.start == Some(oldId) then Some(newId) else d.start)
    ensures var e := Rename(d, oldId, newId).0;
      forall id :: id in e.nodes ==>
        e.nodes[id] == Retargeted(d.nodes[if id == newId then oldId else id], oldId, newId)
  {
    MovedWellFormed(d, oldId, newId);
    var order := Without(d.order, oldId) + [newId];
    var nodes := d.nodes[newId := d.nodes[oldId]] - {oldId};
    RetargetNodesDone(nodes, order, oldId, newId);
    var e := Rename(d, oldId, newId).0;
    assert e.nodes == RetargetNodes(nodes, order, oldId, newId).0;
    forall id | id in e.nodes
      ensures e.nodes[id] == Retargeted(d.nodes[if id == newId then oldId else id], oldId, newId)
    {
      assert id in order;
    }
    assert nodes.Keys == d.nodes.Keys - {oldId} + {newId};
    assert |d.nodes.Keys - {oldId}| == |d.nodes.Keys| - 1;
  }

  /** A rename that goes ahead, returning or throwing, moves the node to the end of the key
      order and keeps the order of the others: JavaScript enumerates a string key added to
      an object after all the keys it already has, and deleting the old key leaves the
      others in place. */
  lemma RenameAppends(d: DialogData, oldId: string, newId: string)
    requires oldId in d.nodes && newId !in d.nodes
    ensures var e := Rename(d, oldId, newId).0;
      e.order == Without(d.order, oldId) + [newId] && e.order[|e.order| - 1] == newId
  {
  }

  /** After a successful rename no choice names the old id. */
  lemma RenameLeavesNoOldReference(d: DialogData, oldId: string, newId: string)
    requires WellFormed(d) && HasChoices(d.nodes)
    requires oldId in d.nodes && newId !in d.nodes
    ensures var e := Rename(d, oldId, newId).0;
      forall id :: id in e.nodes ==> !RefersTo(e.nodes[id], oldId)
  {
    RenameMoves(d, oldId, newId);
    var e := Rename(d, oldId, newId).0;
    forall id | id in e.nodes
      ensures !RefersTo(e.nodes[id], oldId)
    {
      RetargetClears(d.nodes[if id == newId then oldId else id], oldId, newId);
    }
  }

  /** A rename over a node without a `choices` list throws. */
  lemma RenameThrows(d: DialogData, oldId: string, newId: string, id: string)
    requires WellFormed(d) && oldId in d.nodes && newId !in d.nodes
    requires id in d.nodes && d.nodes[id].choices.None?
    ensures Rename(d, oldId, newId).1 == Threw(TypeError("forEach"))
  {
    MovedWellFormed(d, oldId, newId);
    var order := Without(d.order, oldId) + [newId];
    var nodes := d.nodes[newId := d.nodes[oldId]] - {oldId};
    var key := if id == oldId then newId else id;
    assert key in order;
    var k :| 0 <= k < |order| && order[k] == key;
    RetargetNodesThrows(nodes, order, oldId, newId, k);
  }

  /** Removing keeps a dialog well-formed, whether it returns, refuses or throws. */
  lemma RemoveKeepsWellFormed(d: DialogData, nodeId: string)
    requires WellFormed(d)
    ensures WellFormed(Remove(d, nodeId).0)
  {
    WithoutKeepsDistinct(d.order, nodeId);
  }

  /** Removing a node other than the start deletes it and blanks every reference to it. */
  lemma RemoveDeletes(d: DialogData, nodeId: string)
    requires WellFormed(d) && HasChoices(d.nodes) && d.start != Some(nodeId)
    ensures Remove(d, nodeId).1 == Returned(true)
    ensures var e := Remove(d, nodeId).0;
      e.nodes.Keys == d.nodes.Keys - {nodeId} && e.npc == d.npc && e.start == d.start &&
      forall id :: id in e.nodes ==> e.nodes[id] == Retargeted(d.nodes[id], nodeId, "")
  {
    WithoutKeepsDistinct(d.order, nodeId);
    var order := Without(d.order, nodeId);
    assert forall k :: 0 <= k < |order| ==> order[k] in order;
    RetargetNodesDone(d.nodes - {nodeId}, Without(d.order, nodeId), nodeId, "");
  }

  /** After a successful removal of a non-empty id no choice names it. */
  lemma RemoveLeavesNoReference(d: DialogData, nodeId: string)
    requires WellFormed(d) && HasChoices(d.nodes) && d.start != Some(nodeId) && nodeId != ""
    ensures var e := Remove(d, nodeId).0;
      forall id :: id in e.nodes ==> !RefersTo(e.nodes[id], nodeId)
  {
    RemoveDeletes(d, nodeId);
    var e := Remove(d, nodeId).0;
    forall id | id in e.nodes
      ensures !RefersTo(e.nodes[id], nodeId)
    {
      RetargetClears(d.nodes[id], nodeId, "");
    }
  }

  // ---------------------------------------------------------------- validation

  const StartMissing := "Start-Node fehlt"

  /** The warning for the choice at 1-based position `index` of node `id`. */
  function Warning(index: nat, id: string): (w: string)
    ensures |w| > 0 && w[0] == 'C'
  {
    "Choice #" + NatToString(index) + " in " + id + " ohne Ziel"
  }

  /** The warnings of the choices of node `id`, in order: one per choice whose `next` is
      missing or empty. */
  function ChoiceWarnings(id: string, cs: seq<Choice>): seq<string> {
    if cs == [] then []
    else
      ChoiceWarnings(id, cs[..|cs| - 1]) +
      (if Truthy(cs[|cs| - 1].next) then [] else [Warning(|cs|, id)])
  }

  /** The choice warnings of the nodes `ids`, in order; a node without a list has none. */
  function NodeWarnings(nodes: map<string, Node>, ids: seq<string>): seq<string> {
    if ids == [] then []
    else
      var id := ids[|ids| - 1];
      NodeWarnings(nodes, ids[..|ids| - 1]) +
      (if id in nodes && nodes[id].choices.Some? then ChoiceWarnings(id, nodes[id].choices.value)
       else [])
  }

  /** The start id is missing, empty or names no node. */
  predicate StartBroken(d: DialogData) {
    !Truthy(d.start) || d.start.value !in d.nodes
  }

  /** `validateDialog(dialog)`. */
  function Validate(d: DialogData): (r: seq<string>)
    ensures StartBroken(d) ==> |r| > 0 && r[0] == StartMissing
  {
    (if StartBroken(d) then [StartMissing] else []) + NodeWarnings(d.nodes, d.order)
  }

  /** The positions of the choices with a missing or empty `next`. */
  function UnsetPositions(cs: seq<Choice>): set<nat> {
    set j: nat | j < |cs| && !Truthy(cs[j].next)
  }

  /** A node gets one warning per choice without a target. */
  lemma {:induction false} ChoiceWarningsCount(id: string, cs: seq<Choice>)
    ensures |ChoiceWarnings(id, cs)| == |UnsetPositions(cs)|
  {
    if cs != [] {
      var p := cs[..|cs| - 1];
      var n := |cs| - 1;
      ChoiceWarningsCount(id, p);
      forall j: nat | j < n
        ensures j in UnsetPositions(cs) <==> j in UnsetPositions(p)
      {
        assert p[j] == cs[j];
      }
      if Truthy(cs[n].next) {
        assert UnsetPositions(cs) == UnsetPositions(p);
      } else {
        assert UnsetPositions(cs) == UnsetPositions(p) + {n};
      }
    }
  }

  /** Every choice without a target is reported. */
  lemma {:induction false} ChoiceWarningsComplete(id: string, cs: seq<Choice>, j: nat)
    requires j < |cs| && !Truthy(cs[j].next)
    ensures Warning(j + 1, id) in ChoiceWarnings(id, cs)
  {
    var p := cs[..|cs| - 1];
    if j < |cs| - 1 {
      assert p[j] == cs[j];
      ChoiceWarningsComplete(id, p, j);
    }
  }

  /** Every report of a node names one of its choices without a target. */
  lemma {:induction false} ChoiceWarningsSound(id: string, cs: seq<Choice>, w: string)
    requires w in ChoiceWarnings(id, cs)
    ensures exists j :: 0 <= j < |cs| && !Truthy(cs[j].next) && w == Warning(j + 1, id)
  {
    var p := cs[..|cs| - 1];
    var n := |cs| - 1;
    if w in ChoiceWarnings(id, p) {
      ChoiceWarningsSound(id, p, w);
      var j :| 0 <= j < |p| && !Truthy(p[j].next) && w == Warning(j + 1, id);
      assert p[j] == cs[j];
    } else {
      assert !Truthy(cs[n].next) && w == Warning(n + 1, id);
    }
  }

  /** The warnings of a listed node are among the dialog's warnings. */
  lemma {:induction false} NodeWarningsComplete(nodes: map<string, Node>, ids: seq<string>,
                                                k: nat, w: string)
    requires k < |ids| && ids[k] in nodes && nodes[ids[k]].choices.Some?
    requires w in ChoiceWarnings(ids[k], nodes[ids[k]].choices.value)
    ensures w in NodeWarnings(nodes, ids)
  {
    var p := ids[..|ids| - 1];
    if k < |ids| - 1 {
      assert p[k] == ids[k];
      NodeWarningsComplete(nodes, p, k, w);
    }
  }

  /** Every choice warning of the dialog comes from a listed node. */
  lemma {:induction false} NodeWarningsSound(nodes: map<string, Node>, ids: seq<string>, w: string)
    requires w in NodeWarnings(nodes, ids)
    ensures exists k :: (0 <= k < |ids| && ids[k] in nodes && nodes[ids[k]].choices.Some? &&
      w in ChoiceWarnings(ids[k], nodes[ids[k]].choices.value))
  {
    var p := ids[..|ids| - 1];
    var n := |ids| - 1;
    if w in NodeWarnings(nodes, p) {
      NodeWarningsSound(nodes, p, w);
      var k :| 0 <= k < |p| && p[k] in nodes && nodes[p[k]].choices.Some? &&
        w in ChoiceWarnings(p[k], nodes[p[k]].choices.value);
      assert p[k] == ids[k];
    } else {
      assert ids[n] in nodes && nodes[ids[n]].choices.Some?;
    }
  }

  /** Validation reports a choice of a listed node exactly when its `next` is missing or
      empty, and reports nothing else besides the missing start. */
  lemma ValidateReportsChoices(d: DialogData, id: string, j: nat)
    requires WellFormed(d) && id in d.nodes && d.nodes[id].choices.Some?
    requires j < |d.nodes[id].choices.value| && !Truthy(d.nodes[id].choices.value[j].next)
    ensures Warning(j + 1, id) in Validate(d)
  {
    ChoiceWarningsComplete(id, d.nodes[id].choices.value, j);
    assert id in d.order;
    var k :| 0 <= k < |d.order| && d.order[k] == id;
    NodeWarningsComplete(d.nodes, d.order, k, Warning(j + 1, id));
  }

  /** Every warning other than the missing start names a choice without a target. */
  lemma ValidateOnlyReports(d: DialogData, w: string)
    requires w in Validate(d) && w != StartMissing
    ensures exists id, j :: (id in d.nodes && d.nodes[id].choices.Some? &&
      0 <= j < |d.nodes[id].choices.value| && !Truthy(d.nodes[id].choices.value[j].next) &&
      w == Warning(j + 1, id))
  {
    assert w in NodeWarnings(d.nodes, d.order);
    NodeWarningsSound(d.nodes, d.order, w);
    var k :| 0 <= k < |d.order| && d.order[k] in d.nodes && d.nodes[d.order[k]].choices.Some? &&
      w in ChoiceWarnings(d.order[k], d.nodes[d.order[k]].choices.value);
    ChoiceWarningsSound(d.order[k], d.nodes[d.order[k]].choices.value, w);
  }

  /** "Start-Node fehlt" is reported exactly when the start id is missing, empty or names no
      node: no choice warning has that text. */
  lemma ValidateStart(d: DialogData)
    ensures StartMissing in Validate(d) <==> StartBroken(d)
  {
    if StartMissing in NodeWarnings(d.nodes, d.order) {
      NodeWarningsSound(d.nodes, d.order, StartMissing);
      var k :| 0 <= k < |d.order| && d.order[k] in d.nodes && d.nodes[d.order[k]].choices.Some? &&
        StartMissing in ChoiceWarnings(d.order[k], d.nodes[d.order[k]].choices.value);
      ChoiceWarningsSound(d.order[k], d.nodes[d.order[k]].choices.value, StartMissing);
      assert false;
    }
  }

  /** A freshly created dialog validates without a warning. */
  lemma EmptyDialogValid(npc: string)
    ensures Validate(CreateEmptyDialog(npc)) == []
  {
    var d := CreateEmptyDialog(npc);
    assert d.order[..0] == [];
    assert NodeWarnings(d.nodes, d.order) == ChoiceWarnings("start", []);
  }

  /** `node.choices?.forEach((choice, idx) => ...)` of `validateDialog`. */
  method CheckChoices(id: string, cs: seq<Choice>) returns (warnings: seq<string>)
    ensures warnings == ChoiceWarnings(id, cs)
  {
    warnings := [];
    var j := 0;
    while j < |cs|
      invariant 0 <= j <= |cs|
      invariant warnings == ChoiceWarnings(id, cs[..j])
    {
      assert cs[..j + 1][..j] == cs[..j];
      if !Truthy(cs[j].next) {
        warnings := warnings + [Warning(j + 1, id)];
      }
      j := j + 1;
    }
    assert cs[..j] == cs;
  }

  // ---------------------------------------------------------------- the dialog object

  /** A dialog object of the builder, edited in place. */
  class Dialog {
    var npc: string
    var start: Option<string>
    var order: seq<string>
    var nodes: map<string, Node>

    function Snapshot(): (d: DialogData)
      reads this
    {
      DialogData(npc, start, order, nodes)
    }

    ghost predicate Valid()
      reads this
    {
      WellFormed(Snapshot())
    }

    constructor (d: DialogData)
      requires WellFormed(d)
      ensures Snapshot() == d && Valid()
    {
      npc := d.npc;
      start := d.start;
      order := d.order;
      nodes := d.nodes;
    }

    /** The retargeting pass shared by `renameNode` and `removeNode`. */
    method RetargetChoices(from: string, to: string) returns (fault: Option<Fault>)
      requires Valid()
      modifies this
      ensures npc == old(npc) && start == old(start) && order == old(order)
      ensures (nodes, fault) == RetargetNodes(old(nodes), order, from, to)
    {
      ghost var whole := RetargetNodes(nodes, order, from, to);
      var i := 0;
      while i < |order|
        invariant 0 <= i <= |order|
        invariant npc == old(npc) && start == old(start) && order == old(order)
        invariant nodes.Keys == old(nodes).Keys
        invariant RetargetNodes(nodes, order[i..], from, to) == whole
      {
        var id := order[i];
        assert order[i..][1..] == order[i + 1..];
        var node := nodes[id];
        if node.choices.None? {
          return Some(TypeError("forEach"));
        }
        var cs := RetargetList(node.choices.value, from, to);
        nodes := nodes[id := Node(node.text, Some(cs))];
        i := i + 1;
      }
      return None;
    }

    /** `renameNode(this, oldId, newId)`. */
    method RenameNode(oldId: string, newId: string) returns (reply: Reply)
      requires Valid()
      modifies this
      ensures (Snapshot(), reply) == Rename(old(Snapshot()), oldId, newId)
      ensures Valid()
    {
      RenameKeepsWellFormed(Snapshot(), oldId, newId);
      if oldId !in nodes || newId in nodes {
        return Returned(false);
      }
      MovedWellFormed(Snapshot(), oldId, newId);
      nodes := nodes[newId := nodes[oldId]] - {oldId};
      order := Without(order, oldId) + [newId];
      if start == Some(oldId) {
        start := Some(newId);
      }
      var fault := RetargetChoices(oldId, newId);
      reply := if fault.Some? then Threw(fault.value) else Returned(true);
    }

    /** `removeNode(this, nodeId)`. */
    method RemoveNode(nodeId: string) returns (reply: Reply)
      requires Valid()
      modifies this
      ensures (Snapshot(), reply) == Remove(old(Snapshot()), nodeId)
      ensures Valid()
    {
      RemoveKeepsWellFormed(Snapshot(), nodeId);
      if start == Some(nodeId) {
        return Returned(false);
      }
      WithoutKeepsDistinct(order, nodeId);
      nodes := nodes - {nodeId};
      order := Without(order, nodeId);
      var fault := RetargetChoices(nodeId, "");
      reply := if fault.Some? then Threw(fault.value) else Returned(true);
    }

    /** `normalizeDialog(this)`. */
    method Normalize()
      requires Valid()
      modifies this
      ensures Snapshot() == NormalizeDialog(old(Snapshot())) && Valid()
    {
      ghost var target := NormalizeDialog(old(Snapshot())).nodes;
      var i := 0;
      while i < |order|
        invariant 0 <= i <= |order|
        invariant npc == old(npc) && start == old(start) && order == old(order)
        invariant nodes.Keys == old(nodes).Keys
        invariant forall id :: id in nodes ==>
          nodes[id] == if id in order[..i] then target[id] else old(nodes)[id]
      {
        var id := order[i];
        assert id !in order[..i];
        assert forall x :: x in order[..i + 1] <==> x in order[..i] || x == id;
        nodes := nodes[id := NormalizeNode(nodes[id])];
        i := i + 1;
      }
      assert order[..i] == order;
    }

    /** The start-node repair of `ensureDialogForNpc`. */
    method EnsureStartNode()
      requires Valid()
      modifies this
      ensures Snapshot() == EnsureStart(old(Snapshot())) && Valid()
    {
      if StartKey(start) !in nodes {
        var id := OrElse(start, "start");
        if id !in nodes {
          order := order + [id];
        }
        nodes := nodes[id := EmptyNode];
        start := Some(id);
      }
    }

    /** `validateDialog(this)`. */
    method ValidateDialog() returns (warnings: seq<string>)
      requires Valid()
      ensures warnings == Validate(Snapshot())
    {
      var head := if !Truthy(start) || start.value !in nodes then [StartMissing] else [];
      var choices: seq<string> := [];
      var i := 0;
      while i < |order|
        invariant 0 <= i <= |order|
        invariant choices == NodeWarnings(nodes, order[..i])
      {
        var id := order[i];
        assert order[..i + 1][..i] == order[..i];
        var node := nodes[id];
        if node.choices.Some? {
          var found := CheckChoices(id, node.choices.value);
          choices := choices + found;
        }
        i := i + 1;
      }
      assert order[..i] == order;
      warnings := head + choices;
    }
  }

  /** The builder's project data, with its `dialogs` table by NPC id. */
  class Project {
    var dialogs: map<string, Dialog>

    constructor ()
      ensures dialogs == map[]
    {
      dialogs := map[];
    }

    /** `ensureDialogForNpc(data, npcId)`: the NPC's dialog, created when missing, with a node
        under its start key and every node normalised. */
    method EnsureDialogForNpc(npcId: string) returns (dlg: Dialog)
      requires npcId in dialogs ==> dialogs[npcId].Valid()
      modifies this, if npcId in dialogs then {dialogs[npcId]} else {}
      ensures npcId in old(dialogs) ==> dlg == old(dialogs[npcId]) && dialogs == old(dialogs)
      ensures npcId !in old(dialogs) ==> fresh(dlg) && dialogs == old(dialogs)[npcId := dlg]
      ensures dlg.Valid()
      ensures dlg.Snapshot() == NormalizeDialog(EnsureStart(
        if npcId in old(dialogs) then old(dialogs[npcId].Snapshot()) else CreateEmptyDialog(npcId)))
    {
      if npcId !in dialogs {
        dlg := new Dialog(CreateEmptyDialog(npcId));
        dialogs := dialogs[npcId := dlg];
      } else {
        dlg := dialogs[npcId];
      }
      dlg.EnsureStartNode();
      dlg.Normalize();
    }
  }

  /** After `ensureDialogForNpc` the start key names a node, every node has a `choices`
      list, and a later normalisation changes nothing. */
  lemma EnsuredDialogReady(d: DialogData)
    ensures var e := NormalizeDialog(EnsureStart(d));
      StartKey(e.start) in e.nodes && HasChoices(e.nodes) && NormalizeDialog(e) == e
  {
    NormalizedIsNormal(EnsureStart(d));
    NormalizeTwice(EnsureStart(d));
  }
}
