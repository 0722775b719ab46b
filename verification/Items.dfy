/** Items worn, banked in a stash and given away: no command makes or loses one, as
    long as giver and receiver are different characters. */
module Items {
  import opened Totals
  import opened Raid

  const STASH_CAP := 12

  datatype Item = Item(slot: string, level: int, rarity: int, affix: int, name: string)

  /** What the sheet keeps for one slot. */
  datatype Gear = Gear(level: int, rarity: int, affix: int)

  const NO_GEAR := Gear(0, 0, 0)

  /** The gear on every sheet, the names of worn items, and the stashes. */
  datatype Hoard = Hoard(gear: map<string, map<string, Gear>>, names: map<(string, string), string>,
                         stashes: map<string, seq<Item>>)

  function GearOf(h: Hoard, p: string, slot: string): Gear {
    if p in h.gear && slot in h.gear[p] then h.gear[p][slot] else NO_GEAR
  }

  function NameOf(h: Hoard, p: string, slot: string): string {
    if (p, slot) in h.names then h.names[(p, slot)] else ""
  }

  function Stash(h: Hoard, p: string): seq<Item> {
    if p in h.stashes then h.stashes[p] else []
  }

  function Worn(h: Hoard, p: string, slot: string): Item {
    var g := GearOf(h, p, slot);
    Item(slot, g.level, g.rarity, g.affix, NameOf(h, p, slot))
  }

  /** An empty stash is not kept. */
  function Banked(h: Hoard, p: string, items: seq<Item>): Hoard {
    h.(stashes := if items == [] then h.stashes - {p} else h.stashes[p := items])
  }

  function Dressed(h: Hoard, p: string, slot: string, g: Gear, name: string): Hoard
    requires p in h.gear
  {
    h.(gear := h.gear[p := h.gear[p][slot := g]],
       names := if name == "" then h.names - {(p, slot)} else h.names[(p, slot) := name])
  }

  function RemoveAt(items: seq<Item>, i: nat): seq<Item>
    requires i < |items|
  {
    items[..i] + items[i + 1..]
  }

  predicate CanStash(h: Hoard, p: string, slot: string) {
    p in h.gear && slot in SLOTS && GearOf(h, p, slot).level > 0 && |Stash(h, p)| < STASH_CAP
  }

  function Stashed(h: Hoard, p: string, slot: string): Hoard {
    if CanStash(h, p, slot)
    then Dressed(Banked(h, p, Stash(h, p) + [Worn(h, p, slot)]), p, slot, NO_GEAR, "")
    else h
  }

  predicate CanEquip(h: Hoard, p: string, n: int) {
    p in h.gear && 1 <= n <= |Stash(h, p)|
  }

  /** What the stash holds after an item is taken from it to be worn. */
  function Kept(h: Hoard, p: string, n: int): seq<Item>
    requires CanEquip(h, p, n)
  {
    var it, rest := Stash(h, p)[n - 1], RemoveAt(Stash(h, p), n - 1);
    if GearOf(h, p, it.slot).level > 0 then rest + [Worn(h, p, it.slot)] else rest
  }

  /** The item currently in the slot, if any, takes the equipped one's place in the stash. */
  function Equipped(h: Hoard, p: string, n: int): Hoard {
    if CanEquip(h, p, n)
    then
      var it := Stash(h, p)[n - 1];
      Dressed(Banked(h, p, Kept(h, p, n)), p, it.slot, Gear(it.level, it.rarity, it.affix), it.name)
    else h
  }

  predicate CanGive(h: Hoard, from: string, to: string, n: int) {
    from in h.gear && to in h.gear && 1 <= n <= |Stash(h, from)| && |Stash(h, to)| < STASH_CAP
  }

  /** Both stashes are read before either is written. */
  function Given(h: Hoard, from: string, to: string, n: int): Hoard {
    if CanGive(h, from, to, n)
    then Banked(Banked(h, from, RemoveAt(Stash(h, from), n - 1)), to, Stash(h, to) + [Stash(h, from)[n - 1]])
    else h
  }

  /** What comes off when something else goes into a slot. */
  function OffTheBody(gear: map<string, Gear>, names: map<(string, string), string>, p: string, slot: string)
    : seq<Item>
  {
    if slot !in gear || gear[slot].level <= 0 then []
    else
      var g := gear[slot];
      [Item(slot, g.level, g.rarity, g.affix, if (p, slot) in names then names[(p, slot)] else "")]
  }

  class Wardrobe {
    var gear: map<string, map<string, Gear>>
    var names: map<(string, string), string>
    var stashes: map<string, seq<Item>>

    function Model(): Hoard
      reads this
    {
      Hoard(gear, names, stashes)
    }

    constructor ()
      ensures Model() == Hoard(map[], map[], map[])
    {
      gear, names, stashes := map[], map[], map[];
    }

    method WriteStash(p: string, items: seq<Item>)
      modifies this`stashes
      ensures Model() == Banked(old(Model()), p, items)
    {
      if |items| == 0 {
        stashes := stashes - {p};
      } else {
        stashes := stashes[p := items];
      }
    }

    method StashCmd(p: string, slot: string)
      modifies this
      ensures Model() == Stashed(old(Model()), p, slot)
      ensures if p in old(gear) && slot in old(gear)[p] && slot in SLOTS && old(gear)[p][slot].level > 0 &&
                 |Stash(old(Model()), p)| < 12
              then var g, name := old(gear)[p][slot], NameOf(old(Model()), p, slot);
                && stashes == old(stashes)[p := Stash(old(Model()), p) + [Item(slot, g.level, g.rarity, g.affix, name)]]
                && gear == old(gear)[p := old(gear)[p][slot := Gear(0, 0, 0)]] && names == old(names) - {(p, slot)}
              else Model() == old(Model())
    {
      if p !in gear || slot !in SLOTS {
        return;
      }
      var items := Stash(Model(), p);
      var g := GearOf(Model(), p, slot);
      if g.level <= 0 || |items| >= STASH_CAP {
        return;
      }
      var name := NameOf(Model(), p, slot);
      WriteStash(p, items + [Item(slot, g.level, g.rarity, g.affix, name)]);
      gear := gear[p := gear[p][slot := NO_GEAR]];
      names := names - {(p, slot)};
    }

    method EquipCmd(p: string, n: int)
      modifies this
      ensures Model() == Equipped(old(Model()), p, n)
      ensures p !in old(gear) || n < 1 || n > |Stash(old(Model()), p)| ==> Model() == old(Model())
      ensures p in old(gear) && 1 <= n <= |Stash(old(Model()), p)| ==>
        var items := Stash(old(Model()), p);
        var it := items[n - 1];
        && gear == old(gear)[p := old(gear)[p][it.slot := Gear(it.level, it.rarity, it.affix)]]
        && names - {(p, it.slot)} == old(names) - {(p, it.slot)} && NameOf(Model(), p, it.slot) == it.name
        && stashes - {p} == old(stashes) - {p}
        && Stash(Model(), p) == items[..n - 1] + items[n..] + OffTheBody(old(gear)[p], old(names), p, it.slot)
    {
      if p !in gear {
        return;
      }
      var items := Stash(Model(), p);
      if n < 1 || n > |items| {
        return;
      }
      var it := items[n - 1];
      items := items[..n - 1] + items[n..];
      var current := GearOf(Model(), p, it.slot);
      if current.level > 0 {
        items := items + [Worn(Model(), p, it.slot)];
      }
      WriteStash(p, items);
      gear := gear[p := gear[p][it.slot := Gear(it.level, it.rarity, it.affix)]];
      if it.name != "" {
        names := names[(p, it.slot) := it.name];
      } else {
        names := names - {(p, it.slot)};
      }
    }

    method GiveItem(from: string, to: string, n: int)
      modifies this
      ensures Model() == Given(old(Model()), from, to, n)
      ensures gear == old(gear) && names == old(names)
      ensures from !in gear || to !in gear || n < 1 || n > |Stash(old(Model()), from)| ==> Model() == old(Model())
      ensures |Stash(old(Model()), to)| >= 12 ==> Model() == old(Model())
      ensures from in gear && to in gear && 1 <= n <= |Stash(old(Model()), from)| && |Stash(old(Model()), to)| < 12 ==>
        var mine, theirs := Stash(old(Model()), from), Stash(old(Model()), to);
        && Stash(Model(), to) == theirs + [mine[n - 1]]
        && (from != to ==> Stash(Model(), from) == mine[..n - 1] + mine[n..])
        && stashes - {from, to} == old(stashes) - {from, to}
    {
      if from !in gear || to !in gear {
        return;
      }
      var mine := Stash(Model(), from);
      if n < 1 || n > |mine| {
        return;
      }
      var theirs := Stash(Model(), to);
      if |theirs| >= STASH_CAP {
        return;
      }
      var it := mine[n - 1];
      mine := mine[..n - 1] + mine[n..];
      theirs := theirs + [it];
      WriteStash(from, mine);
      WriteStash(to, theirs);
    }
  }

  // --- Counting copies of an item ---

  /** One for each slot in which the player wears exactly this item. */
  function WornCounts(h: Hoard, p: string, x: Item): map<string, int>
    requires p in h.gear
  {
    map s | s in h.gear[p] :: if h.gear[p][s].level > 0 && Worn(h, p, s) == x then 1 else 0
  }

  ghost function Held(h: Hoard, p: string, x: Item): int
    requires p in h.gear
  {
    multiset(Stash(h, p))[x] + Total(WornCounts(h, p, x))
  }

  ghost function HeldCounts(h: Hoard, x: Item): map<string, int> {
    map p | p in h.gear :: Held(h, p, x)
  }

  /** How many copies of an item there are in the realm. */
  ghost function Copies(h: Hoard, x: Item): int {
    Total(HeldCounts(h, x))
  }

  /** Only players have stashes, none is too full, and every banked item is one that
      could be worn. */
  ghost predicate Ok(h: Hoard) {
    && h.stashes.Keys <= h.gear.Keys
    && forall p :: p in h.stashes ==>
         |h.stashes[p]| <= 12 && forall it :: it in h.stashes[p] ==> it.level > 0
  }

  function One(h: Hoard, p: string, slot: string, x: Item): int {
    if GearOf(h, p, slot).level > 0 && Worn(h, p, slot) == x then 1 else 0
  }

  /** Dressing one slot changes what that player wears by the old and the new item. */
  lemma DressingCounts(h: Hoard, p: string, slot: string, g: Gear, name: string, x: Item, h': Hoard)
    requires p in h.gear && h' == Dressed(h, p, slot, g, name)
    ensures Total(WornCounts(h', p, x)) == Total(WornCounts(h, p, x)) - One(h, p, slot, x) + One(h', p, slot, x)
  {
    assert WornCounts(h', p, x) == WornCounts(h, p, x)[slot := One(h', p, slot, x)];
    TotalPut(WornCounts(h, p, x), slot, One(h', p, slot, x));
  }

  lemma OthersUndisturbed(h: Hoard, p: string, slot: string, g: Gear, name: string, x: Item, h': Hoard, o: string)
    requires p in h.gear && h' == Dressed(h, p, slot, g, name) && o in h.gear && o != p
    ensures WornCounts(h', o, x) == WornCounts(h, o, x)
  {
  }

  /** If only one player's holding changes, all copies change by as much. */
  lemma OneHolderChanges(h: Hoard, h': Hoard, p: string, x: Item)
    requires h'.gear.Keys == h.gear.Keys && p in h.gear
    requires forall o :: o in h.gear && o != p ==> Held(h', o, x) == Held(h, o, x)
    ensures Copies(h', x) == Copies(h, x) - Held(h, p, x) + Held(h', p, x)
  {
    var a, b := HeldCounts(h, x), HeldCounts(h', x);
    forall o | o in a && o != p
      ensures a[o] == b[o]
    {
      assert Held(h', o, x) == Held(h, o, x);
    }
    TotalDiffers(a, b, p);
  }

  lemma BankingKeepsWorn(h: Hoard, p: string, items: seq<Item>, o: string, x: Item)
    requires o in h.gear
    ensures WornCounts(Banked(h, p, items), o, x) == WornCounts(h, o, x)
    ensures Stash(Banked(h, p, items), o) == if o == p then items else Stash(h, o)
  {
  }

  lemma DressedSelf(h: Hoard, p: string, items: seq<Item>, slot: string, g: Gear, name: string, x: Item, h': Hoard)
    requires p in h.gear && h' == Dressed(Banked(h, p, items), p, slot, g, name)
    ensures h'.gear.Keys == h.gear.Keys && Stash(h', p) == items
    ensures Held(h', p, x) == multiset(items)[x] + Total(WornCounts(h, p, x)) - One(h, p, slot, x) + One(h', p, slot, x)
  {
    BankingKeepsWorn(h, p, items, p, x);
    DressingCounts(Banked(h, p, items), p, slot, g, name, x, h');
  }

  lemma DressedOther(h: Hoard, p: string, items: seq<Item>, slot: string, g: Gear, name: string, x: Item, h': Hoard,
                     o: string)
    requires p in h.gear && h' == Dressed(Banked(h, p, items), p, slot, g, name) && o in h.gear && o != p
    ensures Held(h', o, x) == Held(h, o, x)
  {
    BankingKeepsWorn(h, p, items, o, x);
    OthersUndisturbed(Banked(h, p, items), p, slot, g, name, x, h', o);
  }

  /** Banking and dressing change the copies in the realm by what they change for the player. */
  lemma DressingIsLocal(h: Hoard, p: string, items: seq<Item>, slot: string, g: Gear, name: string, x: Item, h': Hoard)
    requires p in h.gear && h' == Dressed(Banked(h, p, items), p, slot, g, name)
    ensures Copies(h', x) - Copies(h, x) ==
            multiset(items)[x] - multiset(Stash(h, p))[x] - One(h, p, slot, x) + One(h', p, slot, x)
  {
    DressedSelf(h, p, items, slot, g, name, x, h');
    forall o | o in h.gear && o != p
      ensures Held(h', o, x) == Held(h, o, x)
    {
      DressedOther(h, p, items, slot, g, name, x, h', o);
    }
    OneHolderChanges(h, h', p, x);
  }

  lemma StashConserves(h: Hoard, p: string, slot: string, x: Item)
    ensures Copies(Stashed(h, p, slot), x) == Copies(h, x)
  {
    if CanStash(h, p, slot) {
      var h' := Stashed(h, p, slot);
      DressingIsLocal(h, p, Stash(h, p) + [Worn(h, p, slot)], slot, NO_GEAR, "", x, h');
    }
  }

  lemma RemovedOne(items: seq<Item>, i: nat)
    requires i < |items|
    ensures multiset(items) == multiset(RemoveAt(items, i)) + multiset{items[i]}
  {
    assert items == items[..i] + [items[i]] + items[i + 1..];
  }

  function Same(a: Item, b: Item): int {
    if a == b then 1 else 0
  }

  lemma EquippedIsWorn(h: Hoard, p: string, n: int, x: Item)
    requires Ok(h) && CanEquip(h, p, n)
    ensures One(Equipped(h, p, n), p, Stash(h, p)[n - 1].slot, x) == Same(Stash(h, p)[n - 1], x)
  {
  }

  lemma OneMore(items: seq<Item>, it: Item, x: Item)
    ensures multiset(items + [it])[x] == multiset(items)[x] + Same(it, x)
  {
  }

  lemma OneLess(items: seq<Item>, i: nat, x: Item)
    requires i < |items|
    ensures multiset(RemoveAt(items, i))[x] == multiset(items)[x] - Same(items[i], x)
  {
    RemovedOne(items, i);
  }

  lemma KeptCount(h: Hoard, p: string, n: int, x: Item)
    requires CanEquip(h, p, n)
    ensures var it := Stash(h, p)[n - 1];
            multiset(Kept(h, p, n))[x] == multiset(Stash(h, p))[x] - Same(it, x) + One(h, p, it.slot, x)
  {
    var it, rest := Stash(h, p)[n - 1], RemoveAt(Stash(h, p), n - 1);
    OneLess(Stash(h, p), n - 1, x);
    OneMore(rest, Worn(h, p, it.slot), x);
  }

  lemma EquipConserves(h: Hoard, p: string, n: int, x: Item)
    requires Ok(h)
    ensures Copies(Equipped(h, p, n), x) == Copies(h, x)
  {
    if CanEquip(h, p, n) {
      KeptCount(h, p, n, x);
      EquippedIsWorn(h, p, n, x);
      EquipIsLocal(h, p, n, x, Stash(h, p)[n - 1], Equipped(h, p, n));
    }
  }

  lemma EquipIsLocal(h: Hoard, p: string, n: int, x: Item, it: Item, h': Hoard)
    requires CanEquip(h, p, n) && it == Stash(h, p)[n - 1] && h' == Equipped(h, p, n)
    ensures Copies(h', x) - Copies(h, x) ==
            multiset(Kept(h, p, n))[x] - multiset(Stash(h, p))[x] - One(h, p, it.slot, x) + One(h', p, it.slot, x)
  {
    DressingIsLocal(h, p, Kept(h, p, n), it.slot, Gear(it.level, it.rarity, it.affix), it.name, x, h');
  }

  /** A gift moves one copy; between different characters none is made or lost. */
  lemma GiftMovesCopies(h: Hoard, from: string, to: string, n: int, x: Item)
    requires CanGive(h, from, to, n)
    ensures Copies(Given(h, from, to, n), x) ==
            Copies(h, x) + if from == to then Same(Stash(h, from)[n - 1], x) else 0
  {
    var it := Stash(h, from)[n - 1];
    var rest := RemoveAt(Stash(h, from), n - 1);
    var mid := Banked(h, from, rest);
    OneLess(Stash(h, from), n - 1, x);
    OneMore(Stash(h, to), it, x);
    BankingIsLocal(h, from, rest, x);
    BankingIsLocal(mid, to, Stash(h, to) + [it], x);
    assert Stash(mid, to) == if from == to then rest else Stash(h, to);
  }

  lemma BankingIsLocal(h: Hoard, p: string, items: seq<Item>, x: Item)
    requires p in h.gear
    ensures Copies(Banked(h, p, items), x) == Copies(h, x) + multiset(items)[x] - multiset(Stash(h, p))[x]
  {
    var h' := Banked(h, p, items);
    forall o | o in h.gear
      ensures o != p ==> Held(h', o, x) == Held(h, o, x)
      ensures WornCounts(h', o, x) == WornCounts(h, o, x)
    {
      BankingKeepsWorn(h, p, items, o, x);
    }
    OneHolderChanges(h, h', p, x);
  }

  /** No gift between different characters makes or loses an item; and every gift to
      oneself, which only a second nick of one character can make, doubles it. */
  lemma GiftConservesIff(h: Hoard, from: string, to: string, n: int)
    requires CanGive(h, from, to, n)
    ensures (forall x :: Copies(Given(h, from, to, n), x) == Copies(h, x)) <==> from != to
  {
    forall x
      ensures Copies(Given(h, from, to, n), x) ==
              Copies(h, x) + if from == to then Same(Stash(h, from)[n - 1], x) else 0
    {
      GiftMovesCopies(h, from, to, n, x);
    }
    var it := Stash(h, from)[n - 1];
    assert from == to ==> Copies(Given(h, from, to, n), it) == Copies(h, it) + 1;
  }

  // --- Round trip ---

  /** The same items in the same places. */
  ghost predicate SameHoard(a: Hoard, b: Hoard) {
    && a.gear.Keys == b.gear.Keys
    && (forall p, slot :: GearOf(a, p, slot) == GearOf(b, p, slot))
    && (forall p, slot :: NameOf(a, p, slot) == NameOf(b, p, slot))
    && forall p :: Stash(a, p) == Stash(b, p)
  }

  /** Putting the worn item back into its emptied slot, with the stash as it was. */
  lemma RedressingUndoes(h: Hoard, p: string, items: seq<Item>, slot: string)
    requires p in h.gear && GearOf(h, p, slot).level > 0
    ensures var off := Dressed(Banked(h, p, items), p, slot, NO_GEAR, "");
            SameHoard(Dressed(Banked(off, p, Stash(h, p)), p, slot, GearOf(h, p, slot), NameOf(h, p, slot)), h)
  {
  }

  /** Equipping what was just banked undoes it. */
  lemma EquipUndoesStash(h: Hoard, p: string, slot: string)
    requires CanStash(h, p, slot)
    ensures SameHoard(Equipped(Stashed(h, p, slot), p, |Stash(h, p)| + 1), h)
  {
    var items, it, off := Stash(h, p), Worn(h, p, slot), Stashed(h, p, slot);
    var n := |items| + 1;
    assert RemoveAt(items + [it], n - 1) == items;
    assert Stash(off, p) == items + [it] && GearOf(off, p, slot) == NO_GEAR;
    assert Kept(off, p, n) == items;
    RedressingUndoes(h, p, items + [it], slot);
  }

  // --- Runs ---

  datatype Command =
    | StashIt(p: string, slot: string)
    | EquipIt(p: string, n: int)
    | GiveIt(p: string, to: string, n: int)

  function Do(h: Hoard, c: Command): Hoard {
    match c
    case StashIt(p, slot) => Stashed(h, p, slot)
    case EquipIt(p, n) => Equipped(h, p, n)
    case GiveIt(p, to, n) => Given(h, p, to, n)
  }

  function After(h: Hoard, commands: seq<Command>): Hoard {
    if commands == [] then h else Do(After(h, commands[..|commands| - 1]), commands[|commands| - 1])
  }

  lemma BankedIsOk(h: Hoard, p: string, items: seq<Item>)
    requires Ok(h) && p in h.gear && |items| <= STASH_CAP && forall it :: it in items ==> it.level > 0
    ensures Ok(Banked(h, p, items))
  {
  }

  lemma DoKeeps(h: Hoard, c: Command)
    requires Ok(h)
    ensures Ok(Do(h, c))
  {
    match c
    case StashIt(p, slot) =>
      if CanStash(h, p, slot) {
        BankedIsOk(h, p, Stash(h, p) + [Worn(h, p, slot)]);
      }
    case EquipIt(p, n) =>
      if CanEquip(h, p, n) {
        BankedIsOk(h, p, Kept(h, p, n));
      }
    case GiveIt(p, to, n) =>
      if CanGive(h, p, to, n) {
        var rest := RemoveAt(Stash(h, p), n - 1);
        BankedIsOk(h, p, rest);
        BankedIsOk(Banked(h, p, rest), to, Stash(h, to) + [Stash(h, p)[n - 1]]);
      }
  }

  lemma DoConserves(h: Hoard, c: Command, x: Item)
    requires Ok(h) && (c.GiveIt? ==> c.p != c.to)
    ensures Copies(Do(h, c), x) == Copies(h, x)
  {
    match c
    case StashIt(p, slot) => StashConserves(h, p, slot, x);
    case EquipIt(p, n) => EquipConserves(h, p, n, x);
    case GiveIt(p, to, n) =>
      if CanGive(h, p, to, n) {
        GiftMovesCopies(h, p, to, n, x);
      }
  }

  /** Over any run of banking, equipping and giving to others, every item stays in the
      realm exactly as many times as it was, and no stash ever holds more than twelve. */
  lemma {:induction false} ItemsAreConserved(h: Hoard, commands: seq<Command>, x: Item)
    requires Ok(h) && forall c :: c in commands && c.GiveIt? ==> c.p != c.to
    ensures Ok(After(h, commands)) && Copies(After(h, commands), x) == Copies(h, x)
  {
    if commands != [] {
      var n := |commands| - 1;
      ItemsAreConserved(h, commands[..n], x);
      DoKeeps(After(h, commands[..n]), commands[n]);
      DoConserves(After(h, commands[..n]), commands[n], x);
    }
  }
}
