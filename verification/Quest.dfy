/** The realm's one quest at a time, shared by the tick thread and any number of event
    handlers. Each stretch under the lock is one step; between two of them anything may
    happen. A quest is still settled exactly once, and only as it deserves. */
module Quest {
  import opened Options
  import opened MapQuest

  const PARTY_MAX := 4
  const PARTY_MIN := 2

  datatype Kind = Timed | Mapped | Hunt

  datatype Quest = Quest(kind: Kind, members: set<string>, deadline: int, target: int, progress: int, journey: Journey)

  /** As a quest is when it begins; only a hunt has a target. */
  predicate Fresh(q: Quest) {
    && PARTY_MIN <= |q.members| <= PARTY_MAX
    && (q.kind == Hunt ==> q.target == 4 * |q.members| + 6) && q.progress == 0
    && q.journey.stage == 0 && q.journey.OnMap()
  }

  /** What has been achieved when a quest is rewarded. */
  predicate Earned(q: Quest, clock: int) {
    match q.kind
    case Timed => clock >= q.deadline
    case Hunt => q.progress >= q.target
    case Mapped => q.journey.stage == 1 && q.journey.x == q.journey.x2 && q.journey.y == q.journey.y2
  }

  predicate RunOut(q: Quest, clock: int) {
    q.kind == Hunt && clock >= q.deadline && q.progress < q.target
  }

  // --- The stretches under the lock ---

  /** Every quest there has been, and which of them is active. */
  datatype Slot = Slot(quests: seq<Quest>, active: Option<nat>) {
    ghost predicate Valid() { active.Some? ==> active.value < |quests| }

    predicate Has(kind: Kind) {
      active.Some? && active.value < |quests| && quests[active.value].kind == kind
    }

    predicate HasMember(key: string) {
      active.Some? && active.value < |quests| && key in quests[active.value].members
    }
  }

  /** A kill by a quester counts toward a hunt; says whether that was the last needed. */
  function Credited(s: Slot, key: string): (Slot, bool) {
    if !s.Has(Hunt) || !s.HasMember(key) then (s, false)
    else
      var i := s.active.value;
      var q := s.quests[i].(progress := s.quests[i].progress + 1);
      (s.(quests := s.quests[i := q]), q.progress >= q.target)
  }

  /** The party walks on; says whether it is at its destination. */
  function Walked(s: Slot, dist: real): (Slot, bool) {
    if !s.Has(Mapped) then (s, false)
    else
      var i := s.active.value;
      var (journey, finished) := Advance(s.quests[i].journey, dist);
      (s.(quests := s.quests[i := s.quests[i].(journey := journey)]), finished)
  }

  function Cleared(s: Slot): Slot {
    s.(active := None)
  }

  function Violated(s: Slot, key: string): Slot {
    if s.HasMember(key) then Cleared(s) else s
  }

  function Installed(s: Slot, q: Quest): Slot {
    Slot(s.quests + [q], Some(|s.quests|))
  }

  class QuestKeeper {
    var quests: seq<Quest>
    var active: Option<nat>

    function Model(): Slot
      reads this
    {
      Slot(quests, active)
    }

    constructor ()
      ensures Model() == Slot([], None)
    {
      quests, active := [], None;
    }

    method QuestKillCredit(key: string) returns (done: bool)
      requires Model().Valid()
      modifies this`quests
      ensures (Model(), done) == Credited(old(Model()), key)
      ensures var i := active;
              var counts := i.Some? && old(quests)[i.value].kind == Hunt && key in old(quests)[i.value].members;
              && quests == (if !counts then old(quests)
                            else var q := old(quests)[i.value]; old(quests)[i.value := q.(progress := q.progress + 1)])
              && (done <==> counts && quests[i.value].progress >= quests[i.value].target)
    {
      if active.None? || quests[active.value].kind != Hunt || key !in quests[active.value].members {
        return false;
      }
      var q := quests[active.value];
      q := q.(progress := q.progress + 1);
      quests := quests[active.value := q];
      done := q.progress >= q.target;
    }

    method AdvanceMapQuest(dist: real) returns (finished: bool)
      requires Model().Valid()
      modifies this`quests
      ensures (Model(), finished) == Walked(old(Model()), dist)
    {
      if active.None? || quests[active.value].kind != Mapped {
        return false;
      }
      var q := quests[active.value];
      var j := q.journey;
      var party := new Party.At(j);
      finished := party.AdvanceMapQuest(dist);
      quests := quests[active.value := q.(journey := j.(x := party.x, y := party.y, stage := party.stage))];
    }

    /** Completing and failing both begin by taking the quest away; None if it is gone. */
    method TakeQuest() returns (taken: Option<nat>)
      modifies this`active
      ensures Model() == Cleared(old(Model())) && taken == old(active) && active.None? && quests == old(quests)
    {
      taken := active;
      active := None;
    }

    method QuestViolation(key: string) returns (ruined: Option<nat>)
      requires Model().Valid()
      modifies this`active
      ensures Model() == Violated(old(Model()), key)
      ensures ruined == if old(Model()).HasMember(key) then old(active) else None
      ensures ruined.Some? <==> old(active).Some? && key in quests[old(active).value].members
      ensures quests == old(quests) && active == if ruined.Some? then None else old(active)
    {
      if active.None? || key !in quests[active.value].members {
        return None;
      }
      ruined := active;
      active := None;
    }

    method Activate(q: Quest)
      modifies this
      ensures Model() == Installed(old(Model()), q)
      ensures quests == old(quests) + [q] && active == Some(|old(quests)|)
    {
      active := Some(|quests|);
      quests := quests + [q];
    }
  }

  // --- One tick thread, any handlers ---

  /** Where the tick thread is, and what it has seen. */
  datatype Pc =
    | Idle
    | Looked(seen: Option<nat>)
    | Advancing(i: nat)
    | Completing(i: nat)
    | Failing(i: nat)
    | Starting(q: Quest)

  datatype Fate = Rewarded | Failed | Ruined(culprit: string) | Wiped

  datatype World = World(slot: Slot, pc: Pc, clock: int, fates: seq<(nat, Fate)>)

  datatype Action =
    | Pass(now: int)
    | Kill(key: string)
    | Look
    | Decide(start: Option<Quest>)
    | Walk(dist: real)
    | Complete
    | Fail
    | Install
    | Slip(key: string)
    | WipeRealm

  /** Everything but Pass, Slip and WipeRealm is the tick thread's. */
  predicate Enabled(w: World, a: Action) {
    match a
    case Pass(now) => now >= w.clock
    case Kill(_) => w.pc.Idle?
    case Look => w.pc.Idle?
    case Decide(start) =>
      w.pc.Looked? && (w.pc.seen.Some? ==> w.pc.seen.value < |w.slot.quests|) && (start.Some? ==> Fresh(start.value))
    case Walk(_) => w.pc.Advancing?
    case Complete => w.pc.Completing?
    case Fail => w.pc.Failing?
    case Install => w.pc.Starting?
    case Slip(_) => true
    case WipeRealm => true
  }

  function Settled(w: World, fate: Fate): seq<(nat, Fate)> {
    if w.slot.active.Some? then w.fates + [(w.slot.active.value, fate)] else w.fates
  }

  function Decided(q: Quest, i: nat, clock: int): Pc {
    match q.kind
    case Mapped => Advancing(i)
    case Hunt => if clock >= q.deadline then Failing(i) else Idle
    case Timed => if clock >= q.deadline then Completing(i) else Idle
  }

  function Do(w: World, a: Action): World
    requires Enabled(w, a)
  {
    match a
    case Pass(now) => w.(clock := now)
    case Kill(key) =>
      var (slot, done) := Credited(w.slot, key);
      w.(slot := slot, pc := if done && slot.active.Some? then Completing(slot.active.value) else Idle)
    case Look => w.(pc := Looked(w.slot.active))
    case Decide(start) =>
      w.(pc := match w.pc.seen
               case Some(i) => Decided(w.slot.quests[i], i, w.clock)
               case None => if start.Some? then Starting(start.value) else Idle)
    case Walk(dist) =>
      var (slot, finished) := Walked(w.slot, dist);
      w.(slot := slot, pc := if finished && slot.active.Some? then Completing(slot.active.value) else Idle)
    case Complete => World(Cleared(w.slot), Idle, w.clock, Settled(w, Rewarded))
    case Fail => World(Cleared(w.slot), Idle, w.clock, Settled(w, Failed))
    case Install => w.(slot := Installed(w.slot, w.pc.q), pc := Idle)
    case Slip(key) =>
      w.(slot := Violated(w.slot, key), fates := if w.slot.HasMember(key) then Settled(w, Ruined(key)) else w.fates)
    case WipeRealm => w.(slot := Cleared(w.slot), fates := Settled(w, Wiped))
  }

  // --- What always holds ---

  /** The fate fits the quest. */
  ghost predicate Deserved(q: Quest, fate: Fate, clock: int) {
    match fate
    case Rewarded => Earned(q, clock)
    case Failed => RunOut(q, clock)
    case Ruined(culprit) => culprit in q.members
    case Wiped => true
  }

  ghost predicate HasFate(w: World, i: nat) {
    exists k :: 0 <= k < |w.fates| && w.fates[k].0 == i
  }

  ghost predicate FatesOk(w: World) {
    && (forall k :: 0 <= k < |w.fates| ==>
          && w.fates[k].0 < |w.slot.quests|
          && Deserved(w.slot.quests[w.fates[k].0], w.fates[k].1, w.clock))
    && (forall k, l :: 0 <= k < l < |w.fates| ==> w.fates[k].0 != w.fates[l].0)
    && forall i: nat :: i < |w.slot.quests| ==> (HasFate(w, i) <==> w.slot.active != Some(i))
  }

  /** Nothing but the quest the tick thread saw can be in the slot. */
  ghost predicate Still(w: World, i: nat) {
    i < |w.slot.quests| && (w.slot.active.Some? ==> w.slot.active.value == i)
  }

  ghost predicate PcOk(w: World) {
    match w.pc
    case Idle => true
    case Looked(Some(i)) => Still(w, i)
    case Looked(None) => w.slot.active.None?
    case Advancing(i) => Still(w, i) && w.slot.quests[i].kind == Mapped
    case Completing(i) => Still(w, i) && Earned(w.slot.quests[i], w.clock)
    case Failing(i) => Still(w, i) && w.slot.quests[i].kind == Hunt && w.clock >= w.slot.quests[i].deadline
    case Starting(q) => w.slot.active.None? && Fresh(q)
  }

  ghost predicate QuestsOk(w: World) {
    && w.slot.Valid()
    && (forall i :: 0 <= i < |w.slot.quests| ==> w.slot.quests[i].journey.stage in {0, 1})
    && (w.slot.Has(Hunt) && w.pc != Completing(w.slot.active.value) ==>
          w.slot.quests[w.slot.active.value].progress < w.slot.quests[w.slot.active.value].target)
  }

  ghost predicate Inv(w: World) {
    QuestsOk(w) && PcOk(w) && FatesOk(w)
  }

  lemma SettlingKeepsFates(w: World, fate: Fate, w': World)
    requires QuestsOk(w) && FatesOk(w)
    requires w'.slot == Cleared(w.slot) && w'.clock == w.clock && w'.fates == Settled(w, fate)
    requires w.slot.active.Some? ==> Deserved(w.slot.quests[w.slot.active.value], fate, w.clock)
    ensures FatesOk(w')
  {
    var n := |w.fates|;
    forall i: nat | i < |w.slot.quests|
      ensures HasFate(w', i)
    {
      if w.slot.active == Some(i) {
        assert w'.fates[n].0 == i;
      } else {
        assert HasFate(w, i);
        var k :| 0 <= k < n && w.fates[k].0 == i;
        assert w'.fates[k].0 == i;
      }
    }
    if w.slot.active.Some? {
      assert !HasFate(w, w.slot.active.value);
    }
  }

  /** A change to the active quest alone leaves the settled ones as they were. */
  lemma ActiveChangeKeepsFates(w: World, w': World)
    requires QuestsOk(w) && FatesOk(w) && w'.fates == w.fates && w'.clock >= w.clock
    requires w'.slot.active == w.slot.active && |w'.slot.quests| == |w.slot.quests|
    requires forall i: nat :: i < |w.slot.quests| && w.slot.active != Some(i) ==> w'.slot.quests[i] == w.slot.quests[i]
    ensures FatesOk(w')
  {
  }

  lemma InstallKeepsFates(w: World, q: Quest, w': World)
    requires QuestsOk(w) && FatesOk(w) && w.slot.active.None?
    requires w'.slot == Installed(w.slot, q) && w'.clock == w.clock && w'.fates == w.fates
    ensures FatesOk(w')
  {
  }

  lemma ArrivalIsEarned(j: Journey, dist: real)
    requires j.stage in {0, 1} && Advance(j, dist).1
    ensures var j' := Advance(j, dist).0; j'.stage == 1 && j'.x == j'.x2 && j'.y == j'.y2
  {
  }

  lemma ThinkingKeeps(w: World, a: Action)
    requires Inv(w) && Enabled(w, a) && (a.Pass? || a.Look? || a.Decide?)
    ensures Inv(Do(w, a))
  {
    ActiveChangeKeepsFates(w, Do(w, a));
  }

  lemma KillKeeps(w: World, a: Action)
    requires Inv(w) && Enabled(w, a) && a.Kill?
    ensures Inv(Do(w, a))
  {
    ActiveChangeKeepsFates(w, Do(w, a));
  }

  lemma WalkKeeps(w: World, a: Action)
    requires Inv(w) && Enabled(w, a) && a.Walk?
    ensures Inv(Do(w, a))
  {
    ActiveChangeKeepsFates(w, Do(w, a));
    if w.slot.Has(Mapped) && Walked(w.slot, a.dist).1 {
      ArrivalIsEarned(w.slot.quests[w.slot.active.value].journey, a.dist);
    }
  }

  lemma TickSettlingKeeps(w: World, a: Action)
    requires Inv(w) && Enabled(w, a) && (a.Complete? || a.Fail?)
    ensures Inv(Do(w, a))
  {
    SettlingKeepsFates(w, if a.Complete? then Rewarded else Failed, Do(w, a));
  }

  lemma OutsideSettlingKeeps(w: World, a: Action)
    requires Inv(w) && Enabled(w, a) && (a.Slip? || a.WipeRealm?)
    ensures Inv(Do(w, a))
  {
    if a.WipeRealm? {
      SettlingKeepsFates(w, Wiped, Do(w, a));
    } else if w.slot.HasMember(a.key) {
      SettlingKeepsFates(w, Ruined(a.key), Do(w, a));
    }
  }

  lemma InstallKeeps(w: World, a: Action)
    requires Inv(w) && Enabled(w, a) && a.Install?
    ensures Inv(Do(w, a))
  {
    InstallKeepsFates(w, w.pc.q, Do(w, a));
  }

  lemma DoKeeps(w: World, a: Action)
    requires Inv(w) && Enabled(w, a)
    ensures Inv(Do(w, a))
  {
    match a
    case Kill(_) => KillKeeps(w, a);
    case Walk(_) => WalkKeeps(w, a);
    case Complete => TickSettlingKeeps(w, a);
    case Fail => TickSettlingKeeps(w, a);
    case Install => InstallKeeps(w, a);
    case Slip(_) => OutsideSettlingKeeps(w, a);
    case WipeRealm => OutsideSettlingKeeps(w, a);
    case _ => ThinkingKeeps(w, a);
  }

  // --- Runs ---

  ghost predicate Reaches(w: World, actions: seq<Action>, w': World)
    decreases |actions|
  {
    if actions == [] then w == w'
    else Enabled(w, actions[0]) && Reaches(Do(w, actions[0]), actions[1..], w')
  }

  lemma {:induction false} InvAlways(w: World, actions: seq<Action>, w': World)
    requires Inv(w) && Reaches(w, actions, w')
    ensures Inv(w')
    decreases |actions|
  {
    if actions != [] {
      DoKeeps(w, actions[0]);
      InvAlways(Do(w, actions[0]), actions[1..], w');
    }
  }

  ghost predicate SettledOnceAs(w: World, i: nat, fate: Fate) {
    && (exists k :: 0 <= k < |w.fates| && w.fates[k] == (i, fate))
    && forall k, l :: 0 <= k < |w.fates| && 0 <= l < |w.fates| && w.fates[k].0 == i && w.fates[l].0 == i ==> k == l
  }

  /** However ticks and handlers interleave, every quest ever begun is either the active
      one and unsettled, or was settled exactly once: rewarded when earned, failed when
      a hunt ran out short of its target, or ruined by one of its own party. */
  lemma QuestsAreSettledOnce(w: World, actions: seq<Action>, w': World, i: nat)
    requires w.slot == Slot([], None) && w.pc == Idle && w.fates == [] && Reaches(w, actions, w')
    requires i < |w'.slot.quests|
    ensures if w'.slot.active == Some(i) then !HasFate(w', i)
            else exists fate :: SettledOnceAs(w', i, fate) && Deserved(w'.slot.quests[i], fate, w'.clock)
  {
    InvAlways(w, actions, w');
    if w'.slot.active != Some(i) {
      assert HasFate(w', i);
      var k :| 0 <= k < |w'.fates| && w'.fates[k].0 == i;
      var fate := w'.fates[k].1;
      assert w'.fates[k] == (i, fate);
      assert SettledOnceAs(w', i, fate);
    }
  }

  /** A new quest never takes the place of one that is still active. */
  lemma NothingIsReplaced(w: World, actions: seq<Action>, w': World)
    requires w.slot == Slot([], None) && w.pc == Idle && w.fates == [] && Reaches(w, actions, w')
    requires Enabled(w', Install)
    ensures w'.slot.active.None?
  {
    InvAlways(w, actions, w');
  }

  // --- What a hunt takes ---

  /** A kill by one of its party while quest i is the active hunt. */
  ghost predicate CountsFor(w: World, a: Action, i: nat) {
    && a.Kill? && w.slot.active == Some(i) && i < |w.slot.quests|
    && w.slot.quests[i].kind == Hunt && a.key in w.slot.quests[i].members
  }

  /** How many such kills there are in a run. */
  ghost function KillsFor(w: World, actions: seq<Action>, i: nat): nat
    decreases |actions|
  {
    if actions == [] || !Enabled(w, actions[0]) then 0
    else (if CountsFor(w, actions[0], i) then 1 else 0) + KillsFor(Do(w, actions[0]), actions[1..], i)
  }

  /** A hunt wants four kills of each of its party and six more, and has not had too many. */
  ghost predicate HuntsOk(w: World) {
    forall i :: 0 <= i < |w.slot.quests| && w.slot.quests[i].kind == Hunt ==>
      w.slot.quests[i].progress <= w.slot.quests[i].target == 4 * |w.slot.quests[i].members| + 6
  }

  lemma ActionCounts(w: World, a: Action, i: nat)
    requires Inv(w) && HuntsOk(w) && Enabled(w, a)
    ensures HuntsOk(Do(w, a)) && |w.slot.quests| <= |Do(w, a).slot.quests|
    ensures i < |w.slot.quests| ==>
              Do(w, a).slot.quests[i].progress == w.slot.quests[i].progress + if CountsFor(w, a, i) then 1 else 0
    ensures |w.slot.quests| <= i < |Do(w, a).slot.quests| ==>
              Do(w, a).slot.quests[i].progress == 0 && !CountsFor(w, a, i)
  {
  }

  /** Nothing but such kills moves a hunt on, and each of them by one. */
  lemma {:induction false} ProgressIsKills(w: World, actions: seq<Action>, w': World, i: nat)
    requires Inv(w) && HuntsOk(w) && Reaches(w, actions, w') && i < |w'.slot.quests|
    ensures HuntsOk(w')
    ensures w'.slot.quests[i].progress ==
            KillsFor(w, actions, i) + if i < |w.slot.quests| then w.slot.quests[i].progress else 0
    decreases |actions|
  {
    if actions != [] {
      ActionCounts(w, actions[0], i);
      DoKeeps(w, actions[0]);
      ProgressIsKills(Do(w, actions[0]), actions[1..], w', i);
    }
  }

  /** So a hunt that is rewarded took exactly four kills by its party for each of them and
      six more, and one that failed had fewer. */
  lemma HuntsAreCounted(w: World, actions: seq<Action>, w': World, i: nat, fate: Fate)
    requires w.slot == Slot([], None) && w.pc == Idle && w.fates == [] && Reaches(w, actions, w')
    requires i < |w'.slot.quests| && w'.slot.quests[i].kind == Hunt && SettledOnceAs(w', i, fate)
    ensures fate.Rewarded? ==> KillsFor(w, actions, i) == 4 * |w'.slot.quests[i].members| + 6
    ensures fate.Failed? ==> KillsFor(w, actions, i) < 4 * |w'.slot.quests[i].members| + 6
  {
    InvAlways(w, actions, w');
    ProgressIsKills(w, actions, w', i);
    var k :| 0 <= k < |w'.fates| && w'.fates[k] == (i, fate);
  }

  // --- A tick settles what is due ---

  /** A timed quest whose time has come is rewarded by the next tick. */
  lemma TimedIsRewarded(w: World, i: nat, start: Option<Quest>)
    requires w.pc == Idle && w.slot.active == Some(i) && i < |w.slot.quests| && w.slot.quests[i].kind == Timed
    requires start.None? || Fresh(start.value)
    ensures var w2 := Do(Do(w, Look), Decide(start));
      if w.clock < w.slot.quests[i].deadline then w2 == w
      else Do(w2, Complete) == w.(slot := Slot(w.slot.quests, None), fates := w.fates + [(i, Rewarded)])
  {
  }

  /** A hunt whose time has come fails. */
  lemma HuntFails(w: World, i: nat, start: Option<Quest>)
    requires w.pc == Idle && w.slot.active == Some(i) && i < |w.slot.quests| && w.slot.quests[i].kind == Hunt
    requires start.None? || Fresh(start.value)
    ensures var w2 := Do(Do(w, Look), Decide(start));
      if w.clock < w.slot.quests[i].deadline then w2 == w
      else Do(w2, Fail) == w.(slot := Slot(w.slot.quests, None), fates := w.fates + [(i, Failed)])
  {
  }

  /** The kill that completes a hunt has it rewarded. */
  lemma LastKillRewards(w: World, i: nat, key: string)
    requires w.pc == Idle && CountsFor(w, Kill(key), i)
    ensures var w2 := Do(w, Kill(key)); var q := w2.slot.quests[i];
      if q.progress < q.target then w2.pc == Idle
      else Do(w2, Complete) == World(Slot(w2.slot.quests, None), Idle, w.clock, w.fates + [(i, Rewarded)])
  {
  }

  /** A map quest walks on by a step, and is rewarded when it arrives at its end. */
  lemma MapQuestWalks(w: World, i: nat, start: Option<Quest>, dist: real)
    requires w.pc == Idle && w.slot.active == Some(i) && i < |w.slot.quests| && w.slot.quests[i].kind == Mapped
    requires start.None? || Fresh(start.value)
    ensures var w3 := Do(Do(Do(w, Look), Decide(start)), Walk(dist));
      var (journey, finished) := Advance(w.slot.quests[i].journey, dist);
      && w3.slot == Slot(w.slot.quests[i := w.slot.quests[i].(journey := journey)], Some(i))
      && if !finished then w3.pc == Idle
         else Do(w3, Complete) == World(Slot(w3.slot.quests, None), Idle, w.clock, w.fates + [(i, Rewarded)])
  {
  }

  /** With no quest under way, the quest drawn becomes the active one. */
  lemma QuestBegins(w: World, q: Quest)
    requires w.pc == Idle && w.slot.active.None? && Fresh(q)
    ensures Do(Do(Do(w, Look), Decide(Some(q))), Install) ==
            w.(slot := Slot(w.slot.quests + [q], Some(|w.slot.quests|)))
  {
  }

  /** A slip at any time, and a wipe, take the active quest away: a slip only that of its own
      party, and nothing else changes. */
  lemma SlipRuins(w: World, a: Action)
    requires (a.Slip? || a.WipeRealm?) && w.slot.Valid()
    ensures w.slot.active.None? ==> Do(w, a) == w
    ensures w.slot.active.Some? ==>
              var i := w.slot.active.value;
              Do(w, a) ==
              if a.Slip? && a.key !in w.slot.quests[i].members then w
              else World(Slot(w.slot.quests, None), w.pc, w.clock,
                         w.fates + [(i, if a.Slip? then Ruined(a.key) else Wiped)])
  {
  }
}
