/** The turn-based fight: starting a fight against an enemy document and resolving one
    action of the player while the fight lasts. */
module Combat {
  import opened Base
  import opened Model
  import Parser

  /** JavaScript's `n || d` on a number: zero is falsy. */
  function OrNum(n: int, d: int): int {
    if n == 0 then d else n
  }

  function Max(a: int, b: int): (m: int)
    ensures m >= a && m >= b && (m == a || m == b)
  {
    if a >= b then a else b
  }

  /** The damage of the player's blow: `max(1, (attack || 1) - (defense || 0))`. */
  function PlayerDamage(player: Stats, foe: Stats): (d: int)
    ensures d >= 1 && d >= OrNum(player.attack, 1) - foe.defense
    ensures d == 1 || d == OrNum(player.attack, 1) - foe.defense
  {
    Max(1, OrNum(player.attack, 1) - foe.defense)
  }

  /** The damage of the enemy's counter-attack: `max(0, (attack || 1) - (defense || 0))`. */
  function EnemyDamage(foe: Stats, player: Stats): (d: int)
    ensures d >= 0 && d >= OrNum(foe.attack, 1) - player.defense
    ensures d == 0 || d == OrNum(foe.attack, 1) - player.defense
  {
    Max(0, OrNum(foe.attack, 1) - player.defense)
  }

  /** `startCombat(enemyId)`: load the enemy document, fight a copy of it. The enemy's art
      comes first when it has some, then the three announcement lines. */
  function Begin(c: Content, st: State, id: string): (r: Outcome)
    ensures id !in c.enemies ==> r == Outcome(st, Some(Missing(EnemyPath(id))))
    ensures id in c.enemies ==>
      r.fault.None? && r.st.inCombat && r.st.enemy == Some(c.enemies[id])
      && r.st.saves == st.saves + 1
      && r.st == st.(inCombat := true, enemy := Some(c.enemies[id]), saves := r.st.saves, out := r.st.out)
    ensures id in c.enemies ==>
      var e := c.enemies[id];
      r.st.out == st.out + (if Truthy(e.ascii) then [Art(e.ascii.value)] else [])
        + [Line("Ein " + e.name + " erscheint!"), Line("Beschreibung: " + e.description),
           Line("HP: " + IntToString(e.stats.hp))]
  {
    if id !in c.enemies then Outcome(st, Some(Missing(EnemyPath(id))))
    else
      var e := c.enemies[id];
      var st1 := st.(inCombat := true, enemy := Some(e));
      var st2 := if Truthy(e.ascii) then st1.(out := st1.out + [Art(e.ascii.value)]) else st1;
      var st3 := Print(Print(Print(st2, "Ein " + e.name + " erscheint!"),
                             "Beschreibung: " + e.description), "HP: " + IntToString(e.stats.hp));
      Outcome(Save(st3), None)
  }

  /** One drop of a defeated enemy: added, with a line, unless the inventory has it. */
  function Gain(st: State, drop: string): State {
    if drop in st.inventory then st
    else Print(st.(inventory := st.inventory + [drop]), "Du erhältst " + drop + ".")
  }

  /** `drops.forEach(...)`: the drops in order. */
  function Loot(st: State, drops: seq<string>): State
    decreases |drops|
  {
    if drops == [] then st else Gain(Loot(st, drops[..|drops| - 1]), drops[|drops| - 1])
  }

  /** The drops a carrier of `have` receives, in drop order: each drop not carried yet and
      not received earlier. */
  function Fresh(have: seq<string>, drops: seq<string>): (r: seq<string>)
    ensures forall d :: d in r ==> d in drops && d !in have
    decreases |drops|
  {
    if drops == [] then []
    else if drops[0] in have then Fresh(have, drops[1..])
    else [drops[0]] + Fresh(have + [drops[0]], drops[1..])
  }

  /** The line announcing each received drop, in order. */
  function Received(ds: seq<string>): (r: seq<Out>)
    ensures |r| == |ds|
    ensures forall k :: 0 <= k < |ds| ==> r[k] == Line("Du erhältst " + ds[k] + ".")
  {
    if ds == [] then [] else [Line("Du erhältst " + ds[0] + ".")] + Received(ds[1..])
  }

  lemma {:induction false} ReceivedAppend(xs: seq<string>, ys: seq<string>)
    ensures Received(xs + ys) == Received(xs) + Received(ys)
    decreases |xs|
  {
    if xs == [] {
      assert xs + ys == ys;
    } else {
      assert (xs + ys)[1..] == xs[1..] + ys;
      ReceivedAppend(xs[1..], ys);
    }
  }

  /** One more drop at the end is received exactly when it is neither carried nor
      received already. */
  lemma {:induction false} FreshSnoc(have: seq<string>, xs: seq<string>, d: string)
    ensures Fresh(have, xs + [d]) ==
      Fresh(have, xs) + (if d in have + Fresh(have, xs) then [] else [d])
    decreases |xs|
  {
    if xs == [] {
      assert [d][1..] == [];
    } else {
      assert (xs + [d])[1..] == xs[1..] + [d];
      if xs[0] in have {
        FreshSnoc(have, xs[1..], d);
      } else {
        FreshSnoc(have + [xs[0]], xs[1..], d);
        assert d in have + [xs[0]] + Fresh(have + [xs[0]], xs[1..]) <==> d in have + Fresh(have, xs);
      }
    }
  }

  lemma GainAdds(st: State, d: string)
    ensures var r := Gain(st, d);
      |st.inventory| <= |r.inventory| && r.inventory[..|st.inventory|] == st.inventory
      && d in r.inventory
      && (forall k :: |st.inventory| <= k < |r.inventory| ==> r.inventory[k] == d)
      && (NoDuplicates(st.inventory) ==> NoDuplicates(r.inventory))
      && r == st.(inventory := r.inventory, out := r.out)
  {
  }

  /** Looting appends the fresh drops in drop order, with one line each: it keeps the old
      inventory in front, adds every drop, adds nothing else, never adds a duplicate, and
      changes nothing but the inventory and the output. */
  lemma LootAdds(st: State, drops: seq<string>)
    ensures var r := Loot(st, drops);
      r.inventory == st.inventory + Fresh(st.inventory, drops)
      && r.out == st.out + Received(Fresh(st.inventory, drops))
      && |st.inventory| <= |r.inventory| && r.inventory[..|st.inventory|] == st.inventory
      && (forall d :: d in drops ==> d in r.inventory)
      && (forall k :: |st.inventory| <= k < |r.inventory| ==> r.inventory[k] in drops)
      && (NoDuplicates(st.inventory) ==> NoDuplicates(r.inventory))
      && r == st.(inventory := r.inventory, out := r.out)
  {
    LootInOrder(st, drops);
    FreshCovers(st.inventory, drops);
    if NoDuplicates(st.inventory) {
      FreshDistinct(st.inventory, drops);
    }
  }

  /** Every drop is carried or received. */
  lemma {:induction false} FreshCovers(have: seq<string>, drops: seq<string>)
    ensures forall d :: d in drops ==> d in have + Fresh(have, drops)
    decreases |drops|
  {
    if drops != [] {
      var x := drops[0];
      assert forall d :: d in drops ==> d == x || d in drops[1..];
      if x in have {
        FreshCovers(have, drops[1..]);
      } else {
        FreshCovers(have + [x], drops[1..]);
        assert have + [x] + Fresh(have + [x], drops[1..]) == have + Fresh(have, drops);
      }
    }
  }

  /** Nothing is received twice, nor received when already carried. */
  lemma {:induction false} FreshDistinct(have: seq<string>, drops: seq<string>)
    requires NoDuplicates(have)
    ensures NoDuplicates(have + Fresh(have, drops))
    decreases |drops|
  {
    if drops != [] {
      var x := drops[0];
      if x in have {
        FreshDistinct(have, drops[1..]);
      } else {
        FreshDistinct(have + [x], drops[1..]);
        assert have + [x] + Fresh(have + [x], drops[1..]) == have + Fresh(have, drops);
      }
    }
  }

  /** Looting appends exactly the fresh drops, in drop order, and one line for each, and
      changes nothing else. */
  lemma {:induction false} LootInOrder(st: State, drops: seq<string>)
    ensures var r := Loot(st, drops);
      r.inventory == st.inventory + Fresh(st.inventory, drops)
      && r.out == st.out + Received(Fresh(st.inventory, drops))
      && r == st.(inventory := r.inventory, out := r.out)
    decreases |drops|
  {
    if drops != [] {
      var init := drops[..|drops| - 1];
      var d := drops[|drops| - 1];
      var before := Loot(st, init);
      var got := Fresh(st.inventory, init);
      LootInOrder(st, init);
      assert drops == init + [d];
      FreshSnoc(st.inventory, init, d);
      assert Loot(st, drops) == Gain(before, d);
      GainStep(before, d, st.inventory, st.out, got);
    }
  }

  /** One drop more: the received drops grow by the drop exactly when it is new. */
  lemma GainStep(before: State, d: string, have: seq<string>, out: seq<Out>, got: seq<string>)
    requires before.inventory == have + got && before.out == out + Received(got)
    ensures var after := Gain(before, d);
      var got' := got + (if d in have + got then [] else [d]);
      after.inventory == have + got' && after.out == out + Received(got')
  {
    if d !in have + got {
      ReceivedAppend(got, [d]);
      var line := Line("Du erhältst " + d + ".");
      assert Received([d]) == [line];
      assert (have + got) + [d] == have + (got + [d]);
      assert (out + Received(got)) + [line] == out + (Received(got) + [line]);
    } else {
      assert got + [] == got;
    }
  }

  /** The message for any other action during a fight. */
  const InFightHint: string := "Du bist im Kampf! Nutze \"attack\" oder passende Befehle."

  /** The enemy after the player's blow: `PlayerDamage` hp fewer. */
  function Wounded(player: Stats, e: Enemy): Enemy {
    e.(stats := e.stats.(hp := e.stats.hp - PlayerDamage(player, e.stats)))
  }

  /** The player's blow: the enemy loses `PlayerDamage` hp, and a line reports it. */
  function Strike(st: State, e: Enemy): State {
    var dealt := PlayerDamage(st.stats, e.stats);
    var foe := Wounded(st.stats, e);
    Print(st.(enemy := Some(foe)),
      "Du triffst " + e.name + " für " + IntToString(dealt) + " Schaden. ("
      + IntToString(Max(foe.stats.hp, 0)) + " HP übrig)")
  }

  /** The enemy is down: the fight ends, the drops are taken, the enemy is gone. */
  function Win(st: State, e: Enemy): State {
    Save(Loot(Print(st, e.name + " wurde besiegt!").(inCombat := false), e.drops).(enemy := None))
  }

  /** The enemy strikes back; the fight ends without loot when the player falls. */
  function StrikeBack(st: State, foe: Enemy): State {
    var taken := EnemyDamage(foe.stats, st.stats);
    var hp := st.stats.hp - taken;
    var st1 := Print(st.(stats := st.stats.(hp := hp)),
      foe.name + " greift an und verursacht " + IntToString(taken) + " Schaden. ("
      + IntToString(Max(hp, 0)) + " HP übrig)");
    if hp <= 0 then Print(st1, "Du wurdest besiegt. Der Kampf endet.").(inCombat := false, enemy := None)
    else st1
  }

  /** `handleCombatAction(action)`: the new state, and whether the action was handled. */
  function Attack(st: State, verb: string): (r: (State, bool))
  {
    if !st.inCombat || st.enemy.None? then (st, false)
    else if verb != "attack" then (Print(st, InFightHint), true)
    else
      var st1 := Strike(st, st.enemy.value);
      var foe := Wounded(st.stats, st.enemy.value);
      if foe.stats.hp <= 0 then (Win(st1, st.enemy.value), true)
      else (Save(StrikeBack(st1, foe)), true)
  }

  /** Outside a fight, or without an enemy, nothing is handled and nothing changes. */
  lemma NotInFight(st: State, verb: string)
    requires !st.inCombat || st.enemy.None?
    ensures Attack(st, verb) == (st, false)
  {
  }

  /** Any other action during a fight is handled by a hint and changes nothing else. */
  lemma OtherActionInFight(st: State, verb: string)
    requires st.inCombat && st.enemy.Some? && verb != "attack"
    ensures Attack(st, verb) == (st.(out := st.out + [Line(InFightHint)]), true)
  {
  }

  /** A blow that brings the enemy to zero hp ends the fight: the enemy is gone, the drops
      are in the inventory without duplicates, the player's stats are untouched. */
  lemma Victory(st: State)
    requires st.inCombat && st.enemy.Some?
    requires st.enemy.value.stats.hp - PlayerDamage(st.stats, st.enemy.value.stats) <= 0
    ensures var r := Attack(st, "attack");
      r.1 && !r.0.inCombat && r.0.enemy.None? && r.0.stats == st.stats
      && |st.inventory| <= |r.0.inventory| && r.0.saves == st.saves + 1 && r.0.location == st.location && r.0.flags == st.flags
      && r.0.inventory[..|st.inventory|] == st.inventory
      && r.0.inventory == st.inventory + Fresh(st.inventory, st.enemy.value.drops)
      && (forall d :: d in st.enemy.value.drops ==> d in r.0.inventory)
      && (forall k :: |st.inventory| <= k < |r.0.inventory| ==> r.0.inventory[k] in st.enemy.value.drops)
      && (NoDuplicates(st.inventory) ==> NoDuplicates(r.0.inventory))
    ensures var e := st.enemy.value; var r := Attack(st, "attack");
      r.0.out == st.out
        + [Line("Du triffst " + e.name + " für " + IntToString(PlayerDamage(st.stats, e.stats))
                + " Schaden. (0 HP übrig)"),
           Line(e.name + " wurde besiegt!")]
        + Received(Fresh(st.inventory, e.drops))
      && r.0 == st.(inCombat := false, enemy := None, inventory := r.0.inventory,
                    out := r.0.out, saves := st.saves + 1)
  {
    var e := st.enemy.value;
    KillingBlow(st, e);
    var hit := "Du triffst " + e.name + " für " + IntToString(PlayerDamage(st.stats, e.stats))
               + " Schaden. (0 HP übrig)";
    var st2 := Print(Strike(st, e), e.name + " wurde besiegt!").(inCombat := false);
    assert st2 == st.(inCombat := false, enemy := st2.enemy, out := st2.out);
    assert st2.out == st.out + [Line(hit), Line(e.name + " wurde besiegt!")];
    LootAdds(st2, e.drops);
    var won := Loot(st2, e.drops);
    assert Attack(st, "attack") == (Save(won.(enemy := None)), true);
  }

  /** A blow that leaves the enemy at zero hp or below reports "0 HP übrig". */
  lemma KillingBlow(st: State, e: Enemy)
    requires e.stats.hp - PlayerDamage(st.stats, e.stats) <= 0
    ensures Strike(st, e) == st.(enemy := Some(Wounded(st.stats, e)), out := st.out
      + [Line("Du triffst " + e.name + " für " + IntToString(PlayerDamage(st.stats, e.stats))
              + " Schaden. (0 HP übrig)")])
  {
    var head := "Du triffst " + e.name + " für " + IntToString(PlayerDamage(st.stats, e.stats));
    assert Max(Wounded(st.stats, e).stats.hp, 0) == 0;
    assert IntToString(0) == "0";
    assert head + " Schaden. (" + "0" + " HP übrig)" == head + " Schaden. (0 HP übrig)";
  }

  /** Otherwise the enemy strikes back: its hp drops by the player's damage, the player's
      by the enemy's (never negative) damage, and the fight goes on unless the player falls,
      in which case it ends without loot. */
  lemma Exchange(st: State)
    requires st.inCombat && st.enemy.Some?
    requires st.enemy.value.stats.hp - PlayerDamage(st.stats, st.enemy.value.stats) > 0
    ensures var e := st.enemy.value; var r := Attack(st, "attack");
      var foeHp := e.stats.hp - PlayerDamage(st.stats, e.stats);
      var taken := EnemyDamage(e.stats.(hp := foeHp), st.stats);
      r.1 && r.0.stats == st.stats.(hp := st.stats.hp - taken)
      && r.0.stats.hp <= st.stats.hp
      && r.0.inventory == st.inventory && r.0.saves == st.saves + 1
      && r.0 == st.(stats := r.0.stats, inCombat := r.0.inCombat, enemy := r.0.enemy,
                    saves := r.0.saves, out := r.0.out)
      && (r.0.stats.hp > 0 ==> r.0.inCombat && r.0.enemy == Some(e.(stats := e.stats.(hp := foeHp))))
      && (r.0.stats.hp <= 0 ==> !r.0.inCombat && r.0.enemy.None?)
  {
  }

  /** After a handled blow the fight is on exactly when there is an enemy. */
  lemma FightMatchesEnemy(st: State)
    requires st.inCombat && st.enemy.Some?
    ensures Attack(st, "attack").0.inCombat <==> Attack(st, "attack").0.enemy.Some?
  {
    if st.enemy.value.stats.hp - PlayerDamage(st.stats, st.enemy.value.stats) <= 0 {
      Victory(st);
    } else {
      Exchange(st);
    }
  }

  /** Every blow costs the enemy at least one hp; three attack against one defense costs two. */
  lemma BlowCostsHp(player: Stats, foe: Stats)
    ensures PlayerDamage(player, foe) >= 1
    ensures player.attack == 3 && foe.defense == 1 ==> PlayerDamage(player, foe) == 2
  {
  }

  /** `startCombat(enemyId)` on the engine state. */
  method StartCombat(s: Session, id: string) returns (ok: bool)
    modifies s
    ensures s.Snapshot() == Begin(s.content, old(s.Snapshot()), id).st
    ensures ok <==> Begin(s.content, old(s.Snapshot()), id).fault.None?
  {
    if id !in s.content.enemies {
      return false;
    }
    var e := s.content.enemies[id];
    s.inCombat := true;
    s.enemy := Some(e);
    if Truthy(e.ascii) {
      s.out := s.out + [Art(e.ascii.value)];
    }
    s.out := s.out + [Line("Ein " + e.name + " erscheint!")];
    s.out := s.out + [Line("Beschreibung: " + e.description)];
    s.out := s.out + [Line("HP: " + IntToString(e.stats.hp))];
    s.saves := s.saves + 1;
    ok := true;
  }

  /** The drops of a defeated enemy, one after the other. */
  method TakeDrops(s: Session, drops: seq<string>)
    modifies s
    ensures s.Snapshot() == Loot(old(s.Snapshot()), drops)
  {
    var i := 0;
    while i < |drops|
      invariant 0 <= i <= |drops|
      invariant s.Snapshot() == Loot(old(s.Snapshot()), drops[..i])
    {
      var drop := drops[i];
      assert drops[..i + 1][..i] == drops[..i];
      if drop !in s.inventory {
        s.inventory := s.inventory + [drop];
        s.out := s.out + [Line("Du erhältst " + drop + ".")];
      }
      i := i + 1;
    }
    assert drops[..i] == drops;
  }

  /** The player's blow, on the engine state. */
  method StrikeEnemy(s: Session, e: Enemy)
    modifies s
    ensures s.Snapshot() == Strike(old(s.Snapshot()), e)
  {
    var dealt := PlayerDamage(s.stats, e.stats);
    var foe := Wounded(s.stats, e);
    s.enemy := Some(foe);
    s.out := s.out + [Line("Du triffst " + e.name + " für " + IntToString(dealt) + " Schaden. ("
                           + IntToString(Max(foe.stats.hp, 0)) + " HP übrig)")];
  }

  /** The enemy is down, on the engine state. */
  method EndFight(s: Session, e: Enemy)
    modifies s
    ensures s.Snapshot() == Win(old(s.Snapshot()), e)
  {
    s.out := s.out + [Line(e.name + " wurde besiegt!")];
    s.inCombat := false;
    TakeDrops(s, e.drops);
    s.enemy := None;
    s.saves := s.saves + 1;
  }

  /** The enemy's counter-attack, on the engine state. */
  method SufferBlow(s: Session, foe: Enemy)
    modifies s
    ensures s.Snapshot() == StrikeBack(old(s.Snapshot()), foe)
  {
    var taken := EnemyDamage(foe.stats, s.stats);
    s.stats := s.stats.(hp := s.stats.hp - taken);
    s.out := s.out + [Line(foe.name + " greift an und verursacht " + IntToString(taken) + " Schaden. ("
                           + IntToString(Max(s.stats.hp, 0)) + " HP übrig)")];
    if s.stats.hp <= 0 {
      s.out := s.out + [Line("Du wurdest besiegt. Der Kampf endet.")];
      s.inCombat := false;
      s.enemy := None;
    }
  }

  /** `handleCombatAction(action)` on the engine state. */
  method HandleCombatAction(s: Session, action: Parser.Action) returns (handled: bool)
    modifies s
    ensures (s.Snapshot(), handled) == Attack(old(s.Snapshot()), action.verb)
  {
    if !s.inCombat || s.enemy.None? {
      return false;
    }
    var e := s.enemy.value;
    if action.verb != "attack" {
      s.out := s.out + [Line(InFightHint)];
      return true;
    }
    var foe := Wounded(s.stats, e);
    StrikeEnemy(s, e);
    if foe.stats.hp <= 0 {
      EndFight(s, e);
      return true;
    }
    SufferBlow(s, foe);
    s.saves := s.saves + 1;
    handled := true;
  }
}
