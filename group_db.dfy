/**
  The newer database generation of bflib/src/db/group.rs. Its `Db` holds a
  `persisted` part (what a save file keeps: groups, units, their name and
  side indices, and the category sets of player-deployed groups) and an
  `ephemeral` part (what a run keeps: the dirty flag, map marks, engine
  handles, proximity candidates and the spawn and despawn queues).
  Both parts are values here; the methods of `Db` reassign them.

  Engine queries (templates, trigger zones, surface type, terrain height,
  live handles and poses) are parameters. The geometry of every spawn
  location but `AtPosWithCenter` is a parameter too. The ephemeral helpers
  `dirty`, `push_spawn` and `push_despawn` are taken to set the flag and to
  append to their queue. Map marks come from a counter, and deleted marks
  are recorded. Ids are drawn as `Ids.IdAllocator` draws them.
*/
module GroupDb {
  import opened Wrappers
  import Decimal
  import Ids
  import opened Vectors
  import opened Coalition
  import DcsGroup

  type GroupId = nat
  type UnitId = nat
  type MarkId = nat
  /** `DcsOid<ClassUnit>`: the engine's handle of a live unit. */
  type ObjectId = int
  type Ucid = string
  type ObjectiveId = nat
  /** `UnitTags`: the set of flag bits a unit type is classified with. */
  type UnitTags = set<nat>
  /** A point in time, for the delayed spawn queue. */
  type Time = int

  // ---------------------------------------------------------------------
  // Entities
  // ---------------------------------------------------------------------

  /**
    Where a group came from. Of a deployable or troop spec only its roles
    matter here: does it carry a JTAC, does it carry an EWR.
  */
  datatype DeployKind =
    | Objective
    | Deployed(player: Ucid, jtac: bool, ewr: bool)
    | Troop(player: Ucid, jtac: bool)
    | Crate(origin: ObjectiveId, player: Ucid)

  datatype SpawnedUnit = SpawnedUnit(
    name: string,
    id: UnitId,
    group: GroupId,
    side: Side,
    typ: string,
    tags: UnitTags,
    templateName: string,
    spawnPos: Vector2,
    spawnHeading: real,
    spawnPosition: Position3,
    pos: Vector2,
    heading: real,
    position: Position3,
    dead: bool)

  datatype SpawnedGroup = SpawnedGroup(
    id: GroupId,
    name: string,
    templateName: string,
    side: Side,
    kind: Option<DcsGroup.GroupCategory>,
    origin: DeployKind,
    units: set<UnitId>,
    tags: UnitTags)

  /** Of a player only the set of crates they have in the field matters here. */
  datatype Player = Player(name: string, crates: set<GroupId>)

  datatype Persisted = Persisted(
    groups: map<GroupId, SpawnedGroup>,
    units: map<UnitId, SpawnedUnit>,
    groupsByName: map<string, GroupId>,
    unitsByName: map<string, UnitId>,
    groupsBySide: map<Side, set<GroupId>>,
    deployed: set<GroupId>,
    troops: set<GroupId>,
    crates: set<GroupId>,
    jtacs: set<GroupId>,
    ewrs: set<GroupId>,
    players: map<Ucid, Player>)

  /** What the engine is asked to remove: a whole group, or one static object. */
  datatype Despawn = DespawnGroup(name: string) | DespawnStatic(name: string)

  datatype Ephemeral = Ephemeral(
    dirty: bool,
    groupMarks: map<GroupId, MarkId>,
    nextMark: MarkId,
    deletedMarks: seq<MarkId>,
    closeToEnemies: set<UnitId>,
    onWalkabout: set<UnitId>,
    objectIdByUid: map<UnitId, ObjectId>,
    uidByObjectId: map<ObjectId, UnitId>,
    despawnQueue: seq<(GroupId, Despawn)>,
    spawnQueue: seq<GroupId>,
    delaySpawnQueue: map<Time, seq<GroupId>>,
    classification: map<string, UnitTags>,
    ableToMove: set<UnitId>)

  datatype DbState = DbState(p: Persisted, e: Ephemeral)

  // ---------------------------------------------------------------------
  // The mission side of a spawn
  // ---------------------------------------------------------------------

  datatype TemplateUnit = TemplateUnit(name: string, typ: string, pos: Vector2)

  /** A group template: the category it spawns as (`None` for a static) and its units. */
  datatype Template = Template(kind: Option<DcsGroup.GroupCategory>, units: seq<TemplateUnit>)

  /** The templates of the mission file, by side and name. */
  datatype Miz = Miz(templates: map<(Side, string), Template>)

  datatype SpawnLoc =
    | AtPosWithCenter(pos: Vector2, center: Vector2)
    | AtTrigger(name: string, groupHeading: real)
    | AtPos(pos: Vector2, offsetDirection: Vector2, groupHeading: real)
    | AtPosWithComponents(pos: Vector2, groupHeading: real, componentPos: map<string, Vector2>)

  datatype Surface = Land | ShallowWater | Water | Road | Runway

  /**
    The engine-side layout of every location but `AtPosWithCenter`, from
    the template's unit positions: it fails (an unknown trigger zone) or
    gives one position per unit.
  */
  type Layout = (SpawnLoc, seq<Vector2>) -> Result<seq<Vector2>, string>

  ghost predicate OnePositionPerUnit(layout: Layout) {
    forall loc, ps :: layout(loc, ps).Ok? ==> |layout(loc, ps).value| == |ps|
  }

  // ---------------------------------------------------------------------
  // Unit positions and the water check
  // ---------------------------------------------------------------------

  function TemplatePositions(units: seq<TemplateUnit>): (ps: seq<Vector2>)
    ensures |ps| == |units| && forall i :: 0 <= i < |units| ==> ps[i] == units[i].pos
  {
    seq(|units|, i requires 0 <= i < |units| => units[i].pos)
  }

  /** `compute_unit_positions`: `AtPosWithCenter` moves every unit by `pos - center`. */
  function ComputePositions(loc: SpawnLoc, ps: seq<Vector2>, layout: Layout): Result<seq<Vector2>, string> {
    if loc.AtPosWithCenter? then
      Ok(seq(|ps|, i requires 0 <= i < |ps| => Add(Sub(ps[i], loc.center), loc.pos)))
    else
      layout(loc, ps)
  }

  /** The heading every spawned unit starts with. */
  function SpawnHeading(loc: SpawnLoc): real {
    if loc.AtPosWithCenter? then 0.0 else loc.groupHeading
  }

  /**
    An `AtPosWithCenter` spawn is a pure translation: each unit keeps its
    offset from the center, now taken from `pos`, so the formation is kept.
  */
  lemma AtPosWithCenterTranslates(pos: Vector2, center: Vector2, ps: seq<Vector2>, layout: Layout)
    ensures var r := ComputePositions(AtPosWithCenter(pos, center), ps, layout);
      && r.Ok? && |r.value| == |ps|
      && (forall i :: 0 <= i < |ps| ==> Sub(r.value[i], pos) == Sub(ps[i], center))
      && (forall i, j :: 0 <= i < |ps| && 0 <= j < |ps| ==> Sub(r.value[i], r.value[j]) == Sub(ps[i], ps[j]))
  {
  }

  predicate IsWater(s: Surface) {
    s == Water || s == ShallowWater
  }

  /** `check_water`, position by position. */
  function CheckWater(surface: Vector2 -> Surface, ps: seq<Vector2>): Result<(), string> {
    if ps == [] then Ok(())
    else if IsWater(surface(ps[0])) then Err("you can't spawn units in water")
    else CheckWater(surface, ps[1..])
  }

  /** The water check fails exactly when some position is water or shallow water. */
  lemma {:induction false} CheckWaterFindsWater(surface: Vector2 -> Surface, ps: seq<Vector2>)
    ensures CheckWater(surface, ps).Err? <==> exists i :: 0 <= i < |ps| && IsWater(surface(ps[i]))
    ensures CheckWater(surface, ps).Err? ==> CheckWater(surface, ps) == Err("you can't spawn units in water")
  {
    if ps != [] {
      CheckWaterFindsWater(surface, ps[1..]);
      if !IsWater(surface(ps[0])) {
        assert forall i :: 1 <= i < |ps| ==> ps[i] == ps[1..][i - 1];
        if exists i :: 0 <= i < |ps| && IsWater(surface(ps[i])) {
          var i :| 0 <= i < |ps| && IsWater(surface(ps[i]));
          assert ps[1..][i - 1] == ps[i];
        }
      }
    }
  }

  // ---------------------------------------------------------------------
  // The unit loop of add_group
  // ---------------------------------------------------------------------

  /** The index of the first unit whose type has no classification, or the unit count. */
  function FirstUnclassified(classification: map<string, UnitTags>, units: seq<TemplateUnit>): nat {
    if units == [] then 0
    else if units[0].typ !in classification then 0
    else 1 + FirstUnclassified(classification, units[1..])
  }

  /** Every one of the first `k` units has a classified type. */
  ghost predicate Classified(classification: map<string, UnitTags>, units: seq<TemplateUnit>, k: nat)
    requires k <= |units|
  {
    forall j :: 0 <= j < k ==> units[j].typ in classification
  }

  /** A classified unit `k` extends the classified prefix by one. */
  lemma ClassifiedStep(classification: map<string, UnitTags>, units: seq<TemplateUnit>, k: nat)
    requires k < |units| && Classified(classification, units, k) && units[k].typ in classification
    ensures Classified(classification, units, k + 1)
  {
  }

  /** `k` is the first unclassified index exactly when every unit before it is classified and unit `k` is not (or `k` is the end). */
  lemma {:induction false} FirstUnclassifiedAt(classification: map<string, UnitTags>, units: seq<TemplateUnit>, k: nat)
    requires k <= |units|
    requires Classified(classification, units, k)
    requires k < |units| ==> units[k].typ !in classification
    ensures FirstUnclassified(classification, units) == k
  {
    if k > 0 {
      assert units[0].typ in classification;
      forall j | 0 <= j < k - 1 ensures units[1..][j].typ in classification {
        assert units[1..][j] == units[j + 1];
      }
      if k < |units| {
        assert units[1..][k - 1] == units[k];
      }
      FirstUnclassifiedAt(classification, units[1..], k - 1);
    }
  }

  /** The classification of a unit type; the loop fails before using it for an unclassified type. */
  function TagsOf(classification: map<string, UnitTags>, typ: string): UnitTags {
    if typ in classification then classification[typ] else {}
  }

  /** What the unit loop works from: the new group's name, id and side, its template units and their positions. */
  datatype Batch = Batch(
    groupName: string,
    gid: GroupId,
    side: Side,
    units: seq<TemplateUnit>,
    positions: seq<Vector2>,
    heading: real,
    classification: map<string, UnitTags>)

  predicate WellFormed(b: Batch) {
    |b.positions| == |b.units|
  }

  /** Where the unit stands in 3D: `x` and `z` from the map position, `y` the terrain height there. */
  function SpawnPosition(pos: Vector2, height: Vector2 -> real): Position3 {
    DEFAULT_POSITION3.(p := Vec3(pos.x, height(pos), pos.y))
  }

  /** The record stored for template unit `i` when it drew unit id `uid`. */
  function BatchUnit(b: Batch, height: Vector2 -> real, i: nat, uid: UnitId): SpawnedUnit
    requires WellFormed(b) && i < |b.units|
  {
    var tu := b.units[i];
    var pos := b.positions[i];
    var position := SpawnPosition(pos, height);
    SpawnedUnit(Decimal.Suffixed(b.groupName, uid), uid, b.gid, b.side, tu.typ, TagsOf(b.classification, tu.typ),
                tu.name, pos, b.heading, position, pos, b.heading, position, false)
  }

  /** The units the loop stores for the first `n` template units, by id. */
  function BatchUnits(b: Batch, height: Vector2 -> real, first: nat, n: nat): map<UnitId, SpawnedUnit>
    requires WellFormed(b) && n <= |b.units|
  {
    if n == 0 then map[]
    else
      var uid := Ids.Nth(first, n - 1);
      BatchUnits(b, height, first, n - 1)[uid := BatchUnit(b, height, n - 1, uid)]
  }

  /** The union of the tags of the first `n` template units. */
  function BatchTags(b: Batch, n: nat): UnitTags
    requires n <= |b.units|
  {
    if n == 0 then {} else BatchTags(b, n - 1) + TagsOf(b.classification, b.units[n - 1].typ)
  }

  /** The store once the first `n` template units are in the unit map and the unit name index. */
  function WithUnits(p: Persisted, b: Batch, height: Vector2 -> real, first: nat, n: nat): Persisted
    requires WellFormed(b) && n <= |b.units|
  {
    p.(units := p.units + BatchUnits(b, height, first, n),
       unitsByName := p.unitsByName + Ids.SuffixedNames(b.groupName, first, n))
  }

  /** The unit map gains exactly the drawn ids. */
  lemma {:induction false} BatchUnitsKeys(b: Batch, height: Vector2 -> real, first: nat, n: nat)
    requires WellFormed(b) && n <= |b.units|
    ensures BatchUnits(b, height, first, n).Keys == Ids.Drawn(first, n)
  {
    if n > 0 {
      BatchUnitsKeys(b, height, first, n - 1);
    }
  }

  /** Each new unit is stored under its own id, in the new group, under `"{group name}-{uid}"`, alive. */
  lemma {:induction false} BatchUnitsShape(b: Batch, height: Vector2 -> real, first: nat, n: nat)
    requires WellFormed(b) && n <= |b.units|
    ensures forall u :: u in BatchUnits(b, height, first, n) ==>
      var su := BatchUnits(b, height, first, n)[u];
      su.id == u && su.group == b.gid && su.name == Decimal.Suffixed(b.groupName, u) && !su.dead
  {
    if n > 0 {
      BatchUnitsShape(b, height, first, n - 1);
      var prev := BatchUnits(b, height, first, n - 1);
      var uid := Ids.Nth(first, n - 1);
      var cur := prev[uid := BatchUnit(b, height, n - 1, uid)];
      assert BatchUnits(b, height, first, n) == cur;
      forall u | u in cur
        ensures cur[u].id == u && cur[u].group == b.gid && cur[u].name == Decimal.Suffixed(b.groupName, u) && !cur[u].dead
      {
        if u != uid {
          assert cur[u] == prev[u];
        }
      }
    }
  }

  /** Below the wrap-around point, template unit `i` is stored under id `first + i`. */
  lemma {:induction false} BatchUnitsAt(b: Batch, height: Vector2 -> real, first: nat, n: nat, i: nat)
    requires WellFormed(b) && n <= |b.units| && first + n <= Ids.U64_MODULUS && i < n
    ensures first + i in BatchUnits(b, height, first, n)
    ensures BatchUnits(b, height, first, n)[first + i] == BatchUnit(b, height, i, first + i)
  {
    Ids.NthNoWrap(first, n - 1);
    var prev := BatchUnits(b, height, first, n - 1);
    var uid := Ids.Nth(first, n - 1);
    assert BatchUnits(b, height, first, n) == prev[uid := BatchUnit(b, height, n - 1, uid)];
    if i < n - 1 {
      BatchUnitsAt(b, height, first, n - 1, i);
      assert first + i != uid;
    }
  }

  /** Each member's tags are among the group's tags. */
  lemma {:induction false} BatchTagsCover(b: Batch, height: Vector2 -> real, first: nat, n: nat)
    requires WellFormed(b) && n <= |b.units| && first + n <= Ids.U64_MODULUS
    ensures forall u :: u in BatchUnits(b, height, first, n) ==> BatchUnits(b, height, first, n)[u].tags <= BatchTags(b, n)
  {
    if n > 0 {
      BatchTagsCover(b, height, first, n - 1);
      var prev := BatchUnits(b, height, first, n - 1);
      var uid := Ids.Nth(first, n - 1);
      var cur := prev[uid := BatchUnit(b, height, n - 1, uid)];
      assert BatchUnits(b, height, first, n) == cur;
      assert BatchTags(b, n) == BatchTags(b, n - 1) + TagsOf(b.classification, b.units[n - 1].typ);
      forall u | u in cur ensures cur[u].tags <= BatchTags(b, n) {
        if u != uid {
          assert cur[u] == prev[u];
        }
      }
    }
  }

  /** Each of the group's tags comes from some member. */
  lemma {:induction false} BatchTagsFromMembers(b: Batch, height: Vector2 -> real, first: nat, n: nat)
    requires WellFormed(b) && n <= |b.units| && first + n <= Ids.U64_MODULUS
    ensures forall t :: t in BatchTags(b, n) ==>
      exists u :: u in BatchUnits(b, height, first, n) && t in BatchUnits(b, height, first, n)[u].tags
  {
    if n > 0 {
      BatchTagsFromMembers(b, height, first, n - 1);
      BatchUnitsKeys(b, height, first, n - 1);
      Ids.NthFresh(first, n - 1);
      var prev := BatchUnits(b, height, first, n - 1);
      var uid := Ids.Nth(first, n - 1);
      var su := BatchUnit(b, height, n - 1, uid);
      assert BatchUnits(b, height, first, n) == prev[uid := su];
      assert BatchTags(b, n) == BatchTags(b, n - 1) + su.tags;
      TagsFromStep(prev, uid, su, BatchUnits(b, height, first, n), BatchTags(b, n - 1));
    }
  }

  /** A fresh unit's tags, added to tags that each come from a stored unit, again each come from a stored unit. */
  lemma TagsFromStep(prev: map<UnitId, SpawnedUnit>, uid: UnitId, su: SpawnedUnit, cur: map<UnitId, SpawnedUnit>,
                     before: UnitTags)
    requires uid !in prev && cur == prev[uid := su]
    requires forall t :: t in before ==> exists u :: u in prev && t in prev[u].tags
    ensures forall t :: t in before + su.tags ==> exists u :: u in cur && t in cur[u].tags
  {
    forall t | t in before + su.tags
      ensures exists u :: u in cur && t in cur[u].tags
    {
      if t in su.tags {
        assert t in cur[uid].tags;
      } else {
        var u :| u in prev && t in prev[u].tags;
        assert cur[u] == prev[u];
      }
    }
  }

  /** One turn of the unit loop: the unit, its name, its id and its tags join what the earlier turns added. */
  lemma AddUnitStep(p: Persisted, b: Batch, height: Vector2 -> real, first: nat, i: nat, uid: UnitId, su: SpawnedUnit)
    requires WellFormed(b) && i < |b.units|
    requires uid == Ids.Nth(first, i) && su == BatchUnit(b, height, i, uid)
    ensures WithUnits(p, b, height, first, i).(
      units := WithUnits(p, b, height, first, i).units[uid := su],
      unitsByName := WithUnits(p, b, height, first, i).unitsByName[su.name := uid])
      == WithUnits(p, b, height, first, i + 1)
    ensures Ids.Drawn(first, i) + {uid} == Ids.Drawn(first, i + 1)
    ensures BatchTags(b, i) + su.tags == BatchTags(b, i + 1)
  {
    var us := BatchUnits(b, height, first, i);
    var ns := Ids.SuffixedNames(b.groupName, first, i);
    assert BatchUnits(b, height, first, i + 1) == us[uid := su];
    assert Ids.SuffixedNames(b.groupName, first, i + 1) == ns[su.name := uid];
    assert (p.units + us)[uid := su] == p.units + us[uid := su];
    assert (p.unitsByName + ns)[su.name := uid] == p.unitsByName + ns[su.name := uid];
  }

  // ---------------------------------------------------------------------
  // Category sets
  // ---------------------------------------------------------------------

  /** The player a group's origin names is on record; `players[player]` panics otherwise. */
  predicate KnownPlayer(p: Persisted, origin: DeployKind) {
    origin.Objective? || origin.player in p.players
  }

  /** The category sets a new group joins, by its origin. */
  function Join(p: Persisted, gid: GroupId, origin: DeployKind): Persisted
    requires KnownPlayer(p, origin)
  {
    match origin
    case Objective => p
    case Crate(_, player) =>
      var pl := p.players[player];
      p.(crates := p.crates + {gid}, players := p.players[player := pl.(crates := pl.crates + {gid})])
    case Deployed(_, jtac, ewr) =>
      p.(deployed := p.deployed + {gid},
         jtacs := if jtac then p.jtacs + {gid} else p.jtacs,
         ewrs := if ewr then p.ewrs + {gid} else p.ewrs)
    case Troop(_, jtac) =>
      p.(troops := p.troops + {gid}, jtacs := if jtac then p.jtacs + {gid} else p.jtacs)
  }

  /** The category sets a deleted group leaves, by its origin. */
  function Leave(p: Persisted, gid: GroupId, origin: DeployKind): Persisted
    requires KnownPlayer(p, origin)
  {
    match origin
    case Objective => p
    case Crate(_, player) =>
      var pl := p.players[player];
      p.(crates := p.crates - {gid}, players := p.players[player := pl.(crates := pl.crates - {gid})])
    case Deployed(_, jtac, ewr) =>
      p.(deployed := p.deployed - {gid},
         jtacs := if jtac then p.jtacs - {gid} else p.jtacs,
         ewrs := if ewr then p.ewrs - {gid} else p.ewrs)
    case Troop(_, jtac) =>
      p.(troops := p.troops - {gid}, jtacs := if jtac then p.jtacs - {gid} else p.jtacs)
  }

  /** The group is in no category set and no player's crate set. */
  predicate Uncategorised(p: Persisted, gid: GroupId) {
    && gid !in p.deployed && gid !in p.troops && gid !in p.crates && gid !in p.jtacs && gid !in p.ewrs
    && forall pl :: pl in p.players ==> gid !in p.players[pl].crates
  }

  /** Leaving the sets a fresh group joined restores every category set exactly. */
  lemma LeaveUndoesJoin(p: Persisted, gid: GroupId, origin: DeployKind)
    requires KnownPlayer(p, origin) && Uncategorised(p, gid)
    ensures KnownPlayer(Join(p, gid, origin), origin)
    ensures Leave(Join(p, gid, origin), gid, origin) == p
  {
    if origin.Crate? {
      var pl := p.players[origin.player];
      assert pl.(crates := pl.crates + {gid} - {gid}) == pl;
      assert p.players[origin.player := pl] == p.players;
    }
  }

  /** Which sets a group joins: `crates` and its player's crates; `deployed` with `jtacs`/`ewrs` by role; `troops` with `jtacs` by role; none for an objective's group. */
  lemma JoinMembership(p: Persisted, gid: GroupId, origin: DeployKind)
    requires KnownPlayer(p, origin) && Uncategorised(p, gid)
    ensures var q := Join(p, gid, origin);
      && (gid in q.crates <==> origin.Crate?)
      && (origin.Crate? ==> gid in q.players[origin.player].crates)
      && (gid in q.deployed <==> origin.Deployed?)
      && (gid in q.troops <==> origin.Troop?)
      && (gid in q.jtacs <==> (origin.Deployed? || origin.Troop?) && origin.jtac)
      && (gid in q.ewrs <==> origin.Deployed? && origin.ewr)
      && q.groups == p.groups && q.units == p.units
  {
  }

  // ---------------------------------------------------------------------
  // Map marks
  // ---------------------------------------------------------------------

  /** The first step of `mark_group` and of `delete_group`'s cleanup: drop the group's mark and delete it from the map. */
  function Unmark(e: Ephemeral, gid: GroupId): Ephemeral {
    if gid in e.groupMarks then
      e.(groupMarks := e.groupMarks - {gid}, deletedMarks := e.deletedMarks + [e.groupMarks[gid]])
    else e
  }

  /** `mark_group`: the old mark goes; a group deployed by a player gets a fresh one, an objective's group none. */
  function Marked(p: Persisted, e: Ephemeral, gid: GroupId): Ephemeral {
    var e1 := Unmark(e, gid);
    if gid in p.groups && !p.groups[gid].origin.Objective? then
      e1.(groupMarks := e1.groupMarks[gid := e1.nextMark], nextMark := e1.nextMark + 1)
    else e1
  }

  /**
    After `mark_group` the group has a mark exactly when it exists and was
    deployed by a player, and that mark is new; the old mark, if any, is
    the last one deleted; other groups keep their marks.
  */
  lemma MarkedOnce(p: Persisted, e: Ephemeral, gid: GroupId)
    ensures var r := Marked(p, e, gid);
      && (gid in r.groupMarks <==> gid in p.groups && !p.groups[gid].origin.Objective?)
      && (gid in r.groupMarks ==> r.groupMarks[gid] == e.nextMark && r.nextMark == e.nextMark + 1)
      && (gid in e.groupMarks ==> r.deletedMarks == e.deletedMarks + [e.groupMarks[gid]])
      && (gid !in e.groupMarks ==> r.deletedMarks == e.deletedMarks)
  {
  }

  /** `mark_group` leaves the marks of every other group as they were. */
  lemma MarkedKeepsOthers(p: Persisted, e: Ephemeral, gid: GroupId)
    ensures var r := Marked(p, e, gid);
      && (forall g :: g != gid ==> (g in r.groupMarks <==> g in e.groupMarks))
      && (forall g :: g != gid && g in e.groupMarks ==> r.groupMarks[g] == e.groupMarks[g])
  {
    var e1 := Unmark(e, gid);
    var m0 := e.groupMarks - {gid};
    if gid in e.groupMarks {
      assert e1.groupMarks == m0;
    } else {
      assert e1.groupMarks == m0;
    }
    var r := Marked(p, e, gid);
    if gid in p.groups && !p.groups[gid].origin.Objective? {
      assert r.groupMarks == m0[gid := e1.nextMark];
    } else {
      assert r.groupMarks == m0;
    }
    OffKey(e.groupMarks, r.groupMarks, gid, e1.nextMark);
  }

  /** Dropping a key, and perhaps setting it again, changes no other key. */
  lemma OffKey(m: map<GroupId, nat>, r: map<GroupId, nat>, gid: GroupId, v: nat)
    requires r == m - {gid} || r == (m - {gid})[gid := v]
    ensures forall g :: g != gid ==> (g in r <==> g in m)
    ensures forall g :: g != gid && g in m ==> r[g] == m[g]
  {
  }

  /** Marking twice leaves the same groups marked as marking once. */
  lemma MarkedTwice(p: Persisted, e: Ephemeral, gid: GroupId)
    ensures Marked(p, Marked(p, e, gid), gid).groupMarks.Keys == Marked(p, e, gid).groupMarks.Keys
  {
  }

  // ---------------------------------------------------------------------
  // Insertion
  // ---------------------------------------------------------------------

  /** The groups of one side; a side with no entry has none. */
  function SideSet(bySide: map<Side, set<GroupId>>, side: Side): set<GroupId> {
    if side in bySide then bySide[side] else {}
  }

  /** The store once the group joined its categories, the group map, the name index and its side's set. */
  function WithGroup(p: Persisted, g: SpawnedGroup): Persisted
    requires KnownPlayer(p, g.origin)
  {
    var q := Join(p, g.id, g.origin);
    q.(groups := q.groups[g.id := g],
       groupsByName := q.groupsByName[g.name := g.id],
       groupsBySide := q.groupsBySide[g.side := SideSet(q.groupsBySide, g.side) + {g.id}])
  }

  /** The checks `add_group` makes before drawing an id: the template, the unit positions and the water check. */
  function Prepare(miz: Miz, side: Side, loc: SpawnLoc, templateName: string, layout: Layout,
                   surface: Vector2 -> Surface): Result<(Template, seq<Vector2>), string>
  {
    if (side, templateName) !in miz.templates then Err("no such template")
    else
      var t := miz.templates[(side, templateName)];
      var ps := ComputePositions(loc, TemplatePositions(t.units), layout);
      if ps.Err? then Err(ps.error)
      else if CheckWater(surface, ps.value).Err? then Err("you can't spawn units in water")
      else Ok((t, ps.value))
  }

  /**
    Once the template is found, the spawn passes the checks exactly when
    the layout succeeds and no position is water or shallow water; the
    positions are then one per template unit.
  */
  lemma PreparedDry(miz: Miz, side: Side, loc: SpawnLoc, templateName: string, layout: Layout, surface: Vector2 -> Surface)
    requires OnePositionPerUnit(layout)
    requires (side, templateName) in miz.templates
    ensures var t := miz.templates[(side, templateName)];
      var ps := ComputePositions(loc, TemplatePositions(t.units), layout);
      var r := Prepare(miz, side, loc, templateName, layout, surface);
      && (ps.Err? ==> r == Err(ps.error))
      && (ps.Ok? ==> |ps.value| == |t.units|)
      && (ps.Ok? ==> (r.Ok? <==> forall i :: 0 <= i < |ps.value| ==> !IsWater(surface(ps.value[i]))))
      && (r.Ok? ==> r.value == (t, ps.value))
  {
    var t := miz.templates[(side, templateName)];
    var ps := ComputePositions(loc, TemplatePositions(t.units), layout);
    if ps.Ok? {
      CheckWaterFindsWater(surface, ps.value);
    }
  }

  /** The group `add_group` stores when every unit was classified. */
  function NewGroup(b: Batch, templateName: string, kind: Option<DcsGroup.GroupCategory>, origin: DeployKind, first: nat): SpawnedGroup
    requires WellFormed(b)
  {
    SpawnedGroup(b.gid, b.groupName, templateName, b.side, kind, origin, Ids.Drawn(first, |b.units|), BatchTags(b, |b.units|))
  }

  /** The store after a successful `add_group`, before the mark. */
  function AddedStore(p: Persisted, b: Batch, height: Vector2 -> real, templateName: string,
                      kind: Option<DcsGroup.GroupCategory>, origin: DeployKind, first: nat): Persisted
    requires WellFormed(b) && KnownPlayer(p, origin)
  {
    WithGroup(WithUnits(p, b, height, first, |b.units|), NewGroup(b, templateName, kind, origin, first))
  }

  /**
    How `add_group` ends once the group id is drawn, with unit ids drawn
    from `first`: either the first unclassified unit type stops it with
    the earlier units stored, or the group is stored with every unit, the
    flag set and the group marked.
  */
  ghost predicate Added(s: DbState, b: Batch, height: Vector2 -> real, templateName: string,
                        kind: Option<DcsGroup.GroupCategory>, origin: DeployKind, first: nat,
                        r: Result<GroupId, string>, s': DbState, next: nat)
  {
    var k := FirstUnclassified(b.classification, b.units);
    && WellFormed(b) && k <= |b.units| && KnownPlayer(s.p, origin)
    && (k < |b.units| ==>
          && r == Err("unit type not classified")
          && next == Ids.Nth(first, k + 1)
          && s' == DbState(WithUnits(s.p, b, height, first, k), s.e))
    && (k == |b.units| ==>
          var p' := AddedStore(s.p, b, height, templateName, kind, origin, first);
          && r == Ok(b.gid)
          && next == Ids.Nth(first, k)
          && s' == DbState(p', Marked(p', s.e.(dirty := true), b.gid)))
  }

  /**
    After a successful `add_group` the group is found by id, by its name
    `"{template}-{gid}"` and in its side's set, and it lists exactly the
    drawn unit ids.
  */
  lemma AddedGroupStored(p: Persisted, b: Batch, height: Vector2 -> real, templateName: string,
                         kind: Option<DcsGroup.GroupCategory>, origin: DeployKind, first: nat)
    requires WellFormed(b) && KnownPlayer(p, origin)
    requires b.groupName == Decimal.Suffixed(templateName, b.gid)
    requires first + |b.units| <= Ids.U64_MODULUS
    ensures var q := AddedStore(p, b, height, templateName, kind, origin, first);
      && b.gid in q.groups && q.groups[b.gid].name == Decimal.Suffixed(templateName, b.gid)
      && q.groups[b.gid].origin == origin && q.groups[b.gid].side == b.side
      && (forall u :: u in q.groups[b.gid].units <==> first <= u < first + |b.units|)
      && q.groupsByName[Decimal.Suffixed(templateName, b.gid)] == b.gid
      && b.side in q.groupsBySide && b.gid in q.groupsBySide[b.side]
  {
    Ids.DrawnRange(first, |b.units|);
  }

  /**
    After a successful `add_group` template unit `i` is stored under id
    `first + i` and found in the name index under
    `"{template}-{gid}-{first + i}"`, in the new group, alive, at its
    computed position.
  */
  lemma AddedUnitStored(p: Persisted, b: Batch, height: Vector2 -> real, templateName: string,
                        kind: Option<DcsGroup.GroupCategory>, origin: DeployKind, first: nat, i: nat)
    requires WellFormed(b) && KnownPlayer(p, origin)
    requires first + |b.units| <= Ids.U64_MODULUS && i < |b.units|
    ensures var q := AddedStore(p, b, height, templateName, kind, origin, first);
      var name := Decimal.Suffixed(b.groupName, first + i);
      && first + i in q.units && q.units[first + i] == BatchUnit(b, height, i, first + i)
      && q.units[first + i].name == name && q.units[first + i].group == b.gid && !q.units[first + i].dead
      && q.units[first + i].pos == b.positions[i] && q.units[first + i].typ == b.units[i].typ
      && name in q.unitsByName && q.unitsByName[name] == first + i
  {
    var n := |b.units|;
    BatchUnitsAt(b, height, first, n, i);
    Ids.DrawnRange(first, n);
    Ids.SuffixedNamesShape(b.groupName, first, n);
    var names := Ids.SuffixedNames(b.groupName, first, n);
    var name := Decimal.Suffixed(b.groupName, first + i);
    assert first + i in Ids.Drawn(first, n);
    assert name in names;
    Decimal.SuffixedInjective(b.groupName, names[name], b.groupName, first + i);
  }

  /** The group's tags are the union of its units' tags. */
  lemma AddedTagsUnion(p: Persisted, b: Batch, height: Vector2 -> real, templateName: string,
                       kind: Option<DcsGroup.GroupCategory>, origin: DeployKind, first: nat)
    requires WellFormed(b) && KnownPlayer(p, origin)
    requires first + |b.units| <= Ids.U64_MODULUS
    ensures var q := AddedStore(p, b, height, templateName, kind, origin, first);
      var g := q.groups[b.gid];
      && g.units <= q.units.Keys
      && (forall u :: u in g.units ==> q.units[u].tags <= g.tags)
      && (forall t :: t in g.tags ==> exists u :: u in g.units && t in q.units[u].tags)
  {
    var n := |b.units|;
    var q := AddedStore(p, b, height, templateName, kind, origin, first);
    var added := BatchUnits(b, height, first, n);
    BatchUnitsKeys(b, height, first, n);
    BatchTagsCover(b, height, first, n);
    BatchTagsFromMembers(b, height, first, n);
    assert q.groups[b.gid].units == added.Keys;
    forall u | u in added ensures q.units[u] == added[u] {
    }
  }

  /**
    An unclassified unit type leaves orphans: the earlier units are stored
    and name their group, which is not stored when it was not before.
  */
  lemma UnclassifiedLeavesOrphans(p: Persisted, b: Batch, height: Vector2 -> real, first: nat, i: nat)
    requires WellFormed(b) && first + |b.units| <= Ids.U64_MODULUS
    requires i < FirstUnclassified(b.classification, b.units) <= |b.units|
    requires b.gid !in p.groups
    ensures var q := WithUnits(p, b, height, first, FirstUnclassified(b.classification, b.units));
      && first + i in q.units && q.units[first + i].group == b.gid && b.gid !in q.groups
  {
    BatchUnitsAt(b, height, first, FirstUnclassified(b.classification, b.units), i);
  }

  // ---------------------------------------------------------------------
  // Deletion
  // ---------------------------------------------------------------------

  /** The store once the group left the group map, the name index, its side's set (when the side has one) and its categories. */
  function WithoutGroup(p: Persisted, gid: GroupId, g: SpawnedGroup): Persisted
    requires KnownPlayer(p, g.origin)
  {
    var q := p.(groups := p.groups - {gid},
                groupsByName := p.groupsByName - {g.name},
                groupsBySide := if g.side in p.groupsBySide then p.groupsBySide[g.side := p.groupsBySide[g.side] - {gid}]
                                else p.groupsBySide);
    Leave(q, gid, g.origin)
  }

  /** One turn of `delete_group`'s unit loop: the unit leaves both proximity sets, both handle maps, the unit map and the name index. */
  function DropUnit(s: DbState, u: UnitId): DbState {
    var e := s.e.(closeToEnemies := s.e.closeToEnemies - {u},
                  onWalkabout := s.e.onWalkabout - {u},
                  objectIdByUid := s.e.objectIdByUid - {u},
                  uidByObjectId := if u in s.e.objectIdByUid then s.e.uidByObjectId - {s.e.objectIdByUid[u]}
                                   else s.e.uidByObjectId);
    var p := if u in s.p.units then s.p.(units := s.p.units - {u}, unitsByName := s.p.unitsByName - {s.p.units[u].name})
             else s.p;
    DbState(p, e)
  }

  /** The unit loop over `uids`, in order, with the names of the units it found and removed. */
  function DropUnits(s: DbState, uids: seq<UnitId>): (DbState, seq<string>)
    decreases |uids|
  {
    if uids == [] then (s, [])
    else
      var d := DropUnits(s, uids[..|uids| - 1]);
      var u := uids[|uids| - 1];
      (DropUnit(d.0, u), d.1 + if u in d.0.p.units then [d.0.p.units[u].name] else [])
  }

  /** The ids a walk lists. */
  function Listed(uids: seq<UnitId>): set<UnitId> {
    set u | u in uids
  }

  /** The ascending walk lists exactly the ids of the set. */
  lemma AscendingListed(ids: set<UnitId>)
    ensures Listed(Ids.Ascending(ids)) == ids
  {
    Ids.AscendingIds(ids);
  }

  /** The names of the units among `uids` present in `units`. */
  function NamesOf(units: map<UnitId, SpawnedUnit>, uids: set<UnitId>): set<string> {
    set u | u in uids && u in units :: units[u].name
  }

  /** The engine handles of the units among `uids` that have one. */
  function HandlesOf(handles: map<UnitId, ObjectId>, uids: set<UnitId>): set<ObjectId> {
    set u | u in uids && u in handles :: handles[u]
  }

  /** The names, in order, of the units among `uids` present in `units`. */
  function FoundNames(units: map<UnitId, SpawnedUnit>, uids: seq<UnitId>): seq<string>
    decreases |uids|
  {
    if uids == [] then []
    else
      var u := uids[|uids| - 1];
      FoundNames(units, uids[..|uids| - 1]) + if u in units then [units[u].name] else []
  }

  predicate Distinct(uids: seq<UnitId>) {
    forall i, j :: 0 <= i < j < |uids| ==> uids[i] != uids[j]
  }

  /**
    Whatever the order, the unit loop removes exactly the listed units:
    from the unit map, and their names from the name index.
  */
  lemma {:induction false} DropUnitsPersisted(s: DbState, uids: seq<UnitId>)
    ensures var r := DropUnits(s, uids).0.p;
      var ids := Listed(uids);
      r == s.p.(units := s.p.units - ids, unitsByName := s.p.unitsByName - NamesOf(s.p.units, ids))
  {
    if uids != [] {
      var pre := uids[..|uids| - 1];
      var u := uids[|uids| - 1];
      DropUnitsPersisted(s, pre);
      var ids' := Listed(pre);
      var ids := Listed(uids);
      assert ids == ids' + {u} by {
        assert uids == pre + [u];
      }
      var d := DropUnits(s, pre).0;
      MapLessLess(s.p.units, ids', {u});
      if u in d.p.units {
        assert d.p.units[u] == s.p.units[u];
        assert NamesOf(s.p.units, ids) == NamesOf(s.p.units, ids') + {s.p.units[u].name};
        MapLessLess(s.p.unitsByName, NamesOf(s.p.units, ids'), {s.p.units[u].name});
      } else {
        assert NamesOf(s.p.units, ids) == NamesOf(s.p.units, ids');
        assert d.p.units == s.p.units - ids;
      }
    }
  }

  /**
    Whatever the order, the unit loop takes exactly the listed units out of
    both proximity sets and the uid-to-handle map, and their handles out of
    the handle-to-uid map.
  */
  lemma {:induction false} DropUnitsEphemeral(s: DbState, uids: seq<UnitId>)
    ensures var r := DropUnits(s, uids).0.e;
      var ids := Listed(uids);
      r == s.e.(closeToEnemies := s.e.closeToEnemies - ids,
                onWalkabout := s.e.onWalkabout - ids,
                objectIdByUid := s.e.objectIdByUid - ids,
                uidByObjectId := s.e.uidByObjectId - HandlesOf(s.e.objectIdByUid, ids))
  {
    if uids != [] {
      var pre := uids[..|uids| - 1];
      var u := uids[|uids| - 1];
      DropUnitsEphemeral(s, pre);
      var ids' := Listed(pre);
      var ids := Listed(uids);
      assert ids == ids' + {u} by {
        assert uids == pre + [u];
      }
      var d := DropUnits(s, pre).0;
      var r := DropUnits(s, uids).0.e;
      assert r == DropUnit(d, u).e;
      MapLessLess(s.e.objectIdByUid, ids', {u});
      if u in d.e.objectIdByUid {
        assert d.e.objectIdByUid[u] == s.e.objectIdByUid[u];
        assert HandlesOf(s.e.objectIdByUid, ids) == HandlesOf(s.e.objectIdByUid, ids') + {s.e.objectIdByUid[u]};
        MapLessLess(s.e.uidByObjectId, HandlesOf(s.e.objectIdByUid, ids'), {s.e.objectIdByUid[u]});
      } else {
        assert HandlesOf(s.e.objectIdByUid, ids) == HandlesOf(s.e.objectIdByUid, ids');
      }
    }
  }

  lemma MapLessLess<K, V>(m: map<K, V>, a: set<K>, b: set<K>)
    ensures (m - a) - b == m - (a + b)
  {
  }

  /** Over distinct ids, the collected names are those of the listed units present before the loop, in order. */
  lemma {:induction false} DropUnitsNames(s: DbState, uids: seq<UnitId>)
    requires Distinct(uids)
    ensures DropUnits(s, uids).1 == FoundNames(s.p.units, uids)
  {
    if uids != [] {
      var pre := uids[..|uids| - 1];
      var u := uids[|uids| - 1];
      DropUnitsNames(s, pre);
      DropUnitsPersisted(s, pre);
      assert u !in Listed(pre);
    }
  }

  /** The despawn requests of `delete_group`: the whole group, or for a static one per removed unit. */
  function Despawns(gid: GroupId, g: SpawnedGroup, names: seq<string>): seq<(GroupId, Despawn)> {
    if g.kind.None? then StaticDespawns(gid, names) else [(gid, DespawnGroup(g.name))]
  }

  function StaticDespawns(gid: GroupId, names: seq<string>): seq<(GroupId, Despawn)> {
    seq(|names|, i requires 0 <= i < |names| => (gid, DespawnStatic(names[i])))
  }

  /**
    `delete_group`'s unit loop and despawn requests for group `g` under
    key `gid`: its units are dropped in ascending id order, the flag is
    set and the despawn requests are queued.
  */
  function Purged(s: DbState, gid: GroupId, g: SpawnedGroup): DbState {
    var d := DropUnits(s, Ids.Ascending(g.units));
    d.0.(e := d.0.e.(dirty := true, despawnQueue := d.0.e.despawnQueue + Despawns(gid, g, d.1)))
  }

  /**
    `delete_group` on a stored group: it leaves the store's maps, indices
    and categories and loses its mark, then its units go and its despawn
    requests are queued.
  */
  function Deleted(s: DbState, gid: GroupId): DbState
    requires gid in s.p.groups && KnownPlayer(s.p, s.p.groups[gid].origin)
  {
    var g := s.p.groups[gid];
    Purged(DbState(WithoutGroup(s.p, gid, g), Unmark(s.e, gid)), gid, g)
  }

  /** Each collected name is that of a listed unit present in `units`. */
  lemma {:induction false} FoundNamesSound(units: map<UnitId, SpawnedUnit>, uids: seq<UnitId>)
    ensures forall k :: 0 <= k < |FoundNames(units, uids)| ==> FoundNames(units, uids)[k] in NamesOf(units, Listed(uids))
  {
    if uids != [] {
      var pre := uids[..|uids| - 1];
      var u := uids[|uids| - 1];
      FoundNamesSound(units, pre);
      var ids := Listed(uids);
      assert ids == Listed(pre) + {u} by {
        assert uids == pre + [u];
      }
      var fn := FoundNames(units, uids);
      assert fn == FoundNames(units, pre) + if u in units then [units[u].name] else [];
      forall k | 0 <= k < |fn| ensures fn[k] in NamesOf(units, ids) {
        if k < |FoundNames(units, pre)| {
          assert fn[k] == FoundNames(units, pre)[k];
          assert fn[k] in NamesOf(units, Listed(pre));
        } else {
          assert fn[k] == units[u].name;
        }
      }
    }
  }

  /** Each listed unit present in `units` has its name collected. */
  lemma {:induction false} FoundNamesComplete(units: map<UnitId, SpawnedUnit>, uids: seq<UnitId>)
    ensures forall u :: u in uids && u in units ==> units[u].name in FoundNames(units, uids)
  {
    if uids != [] {
      var pre := uids[..|uids| - 1];
      var u := uids[|uids| - 1];
      FoundNamesComplete(units, pre);
      var fn := FoundNames(units, uids);
      assert fn == FoundNames(units, pre) + if u in units then [units[u].name] else [];
      forall x | x in uids && x in units ensures units[x].name in fn {
        if x != u {
          var j :| 0 <= j < |uids| && uids[j] == x;
          assert pre[j] == x;
        }
      }
    }
  }

  /** Over distinct ids, one name per listed unit present in `units`. */
  lemma {:induction false} FoundNamesCount(units: map<UnitId, SpawnedUnit>, uids: seq<UnitId>)
    requires Distinct(uids)
    ensures |FoundNames(units, uids)| == |Listed(uids) * units.Keys|
  {
    if uids != [] {
      var pre := uids[..|uids| - 1];
      var u := uids[|uids| - 1];
      assert Distinct(pre);
      FoundNamesCount(units, pre);
      ListedLast(uids);
      CommonPlus(Listed(pre), units.Keys, u);
    }
  }

  /** Adding an id not yet there to `ids` adds one to their common part with `keys` when it is a key, none otherwise. */
  lemma CommonPlus(ids: set<UnitId>, keys: set<UnitId>, u: UnitId)
    requires u !in ids
    ensures |(ids + {u}) * keys| == |ids * keys| + if u in keys then 1 else 0
  {
    var common := ids * keys;
    if u in keys {
      assert (ids + {u}) * keys == common + {u};
      assert u !in common;
    } else {
      assert (ids + {u}) * keys == common;
    }
  }

  /** Each request is a `Despawn::Static` under `gid` naming a listed unit present in `units`. */
  lemma StaticDespawnsSound(gid: GroupId, units: map<UnitId, SpawnedUnit>, uids: seq<UnitId>)
    ensures var q := StaticDespawns(gid, FoundNames(units, uids));
      forall k :: 0 <= k < |q| ==> q[k].0 == gid && q[k].1.DespawnStatic? && q[k].1.name in NamesOf(units, Listed(uids))
  {
    FoundNamesSound(units, uids);
  }

  /** Each listed unit present in `units` gets a `Despawn::Static` request. */
  lemma StaticDespawnsComplete(gid: GroupId, units: map<UnitId, SpawnedUnit>, uids: seq<UnitId>)
    ensures var q := StaticDespawns(gid, FoundNames(units, uids));
      forall u :: u in uids && u in units ==> (gid, DespawnStatic(units[u].name)) in q
  {
    var found := FoundNames(units, uids);
    var q := StaticDespawns(gid, found);
    FoundNamesComplete(units, uids);
    forall u | u in uids && u in units ensures (gid, DespawnStatic(units[u].name)) in q {
      var k :| 0 <= k < |found| && found[k] == units[u].name;
      assert q[k] == (gid, DespawnStatic(units[u].name));
    }
  }

  /** The ascending walk lists no id twice. */
  lemma AscendingDistinct(ids: set<UnitId>)
    ensures Distinct(Ids.Ascending(ids))
  {
    Ids.AscendingIds(ids);
  }

  /** What the unit loop and the despawn requests leave of the store: the group's member units are gone. */
  lemma PurgedPersisted(s: DbState, gid: GroupId, g: SpawnedGroup)
    ensures Purged(s, gid, g).p == s.p.(units := s.p.units - g.units, unitsByName := s.p.unitsByName - NamesOf(s.p.units, g.units))
  {
    AscendingListed(g.units);
    DropUnitsPersisted(s, Ids.Ascending(g.units));
  }

  /** What the unit loop and the despawn requests leave of the engine-side state: the members' runtime entries are gone, the flag is set, the requests queued. */
  lemma PurgedEphemeral(s: DbState, gid: GroupId, g: SpawnedGroup)
    ensures Purged(s, gid, g).e
      == s.e.(closeToEnemies := s.e.closeToEnemies - g.units,
              onWalkabout := s.e.onWalkabout - g.units,
              objectIdByUid := s.e.objectIdByUid - g.units,
              uidByObjectId := s.e.uidByObjectId - HandlesOf(s.e.objectIdByUid, g.units),
              dirty := true,
              despawnQueue := s.e.despawnQueue + Despawns(gid, g, FoundNames(s.p.units, Ids.Ascending(g.units))))
  {
    var order := Ids.Ascending(g.units);
    AscendingListed(g.units);
    AscendingDistinct(g.units);
    DropUnitsEphemeral(s, order);
    DropUnitsNames(s, order);
  }

  /**
    `after` is `before` with the despawn requests of group `g` (id `gid`)
    appended: one `Despawn::Group` with its name for a group; for a static
    object, one `Despawn::Static` per member present in `units`, each
    naming such a member.
  */
  ghost predicate DespawnsQueued(before: seq<(GroupId, Despawn)>, after: seq<(GroupId, Despawn)>, gid: GroupId,
                                 g: SpawnedGroup, units: map<UnitId, SpawnedUnit>)
  {
    && |after| >= |before| && after[..|before|] == before
    && (g.kind.Some? ==> after == before + [(gid, DespawnGroup(g.name))])
    && (g.kind.None? ==>
          var added := after[|before|..];
          && |added| == |g.units * units.Keys|
          && (forall k :: 0 <= k < |added| ==>
                added[k].0 == gid && added[k].1.DespawnStatic? && added[k].1.name in NamesOf(units, g.units))
          && (forall u :: u in g.units && u in units ==> (gid, DespawnStatic(units[u].name)) in added))
  }

  /** The requests `delete_group` builds for the members found in `units` are those `DespawnsQueued` describes. */
  lemma QueuedDespawns(before: seq<(GroupId, Despawn)>, gid: GroupId, g: SpawnedGroup, units: map<UnitId, SpawnedUnit>)
    ensures DespawnsQueued(before, before + Despawns(gid, g, FoundNames(units, Ids.Ascending(g.units))), gid, g, units)
  {
    var order := Ids.Ascending(g.units);
    var found := FoundNames(units, order);
    var after := before + Despawns(gid, g, found);
    assert after[..|before|] == before;
    if g.kind.None? {
      assert after[|before|..] == StaticDespawns(gid, found);
      AscendingListed(g.units);
      AscendingDistinct(g.units);
      FoundNamesCount(units, order);
      assert |StaticDespawns(gid, found)| == |found| == |g.units * units.Keys|;
      StaticDespawnsSound(gid, units, order);
      StaticDespawnsComplete(gid, units, order);
    }
  }

  /**
    `delete_group` queues its despawn requests under the group id behind
    the ones already queued: one `Despawn::Group` with the group's name
    for a group, one `Despawn::Static` per removed member for a static
    object.
  */
  lemma DeleteDespawns(s: DbState, gid: GroupId)
    requires gid in s.p.groups && KnownPlayer(s.p, s.p.groups[gid].origin)
    ensures DespawnsQueued(s.e.despawnQueue, Deleted(s, gid).e.despawnQueue, gid, s.p.groups[gid], s.p.units)
  {
    var g := s.p.groups[gid];
    var s1 := DbState(WithoutGroup(s.p, gid, g), Unmark(s.e, gid));
    assert s1.p.units == s.p.units && s1.e.despawnQueue == s.e.despawnQueue;
    PurgedQueue(s1, gid, g);
    QueuedDespawns(s.e.despawnQueue, gid, g, s.p.units);
  }

  lemma PurgedQueue(s: DbState, gid: GroupId, g: SpawnedGroup)
    ensures Purged(s, gid, g).e.despawnQueue == s.e.despawnQueue + Despawns(gid, g, FoundNames(s.p.units, Ids.Ascending(g.units)))
  {
    PurgedEphemeral(s, gid, g);
  }

  /**
    After `delete_group` nothing refers to the group or its units: not the
    group map, the name index, its side's set, the category sets its
    origin puts it in, the marks, the unit map, the unit name index, the
    proximity sets or either handle map; and the flag is set.
  */
  lemma DeleteLeavesNoTrace(s: DbState, gid: GroupId)
    requires gid in s.p.groups && KnownPlayer(s.p, s.p.groups[gid].origin)
    ensures var g := s.p.groups[gid];
      var r := Deleted(s, gid);
      && gid !in r.p.groups && g.name !in r.p.groupsByName
      && (g.side in r.p.groupsBySide ==> gid !in r.p.groupsBySide[g.side])
      && (g.origin.Crate? ==> gid !in r.p.crates && g.origin.player in r.p.players && gid !in r.p.players[g.origin.player].crates)
      && (g.origin.Deployed? ==> gid !in r.p.deployed && (g.origin.jtac ==> gid !in r.p.jtacs) && (g.origin.ewr ==> gid !in r.p.ewrs))
      && (g.origin.Troop? ==> gid !in r.p.troops && (g.origin.jtac ==> gid !in r.p.jtacs))
      && gid !in r.e.groupMarks && r.e.dirty
      && (forall u :: u in g.units ==>
            && u !in r.p.units && u !in r.e.closeToEnemies && u !in r.e.onWalkabout && u !in r.e.objectIdByUid
            && (u in s.p.units ==> s.p.units[u].name !in r.p.unitsByName)
            && (u in s.e.objectIdByUid ==> s.e.objectIdByUid[u] !in r.e.uidByObjectId))
  {
    var g := s.p.groups[gid];
    var w := WithoutGroup(s.p, gid, g);
    var s1 := DbState(w, Unmark(s.e, gid));
    assert w.units == s.p.units && w.unitsByName == s.p.unitsByName;
    assert s1.e.objectIdByUid == s.e.objectIdByUid;
    PurgedPersisted(s1, gid, g);
    PurgedEphemeral(s1, gid, g);
  }

  /** The store a spawn can be added to without clashing: the group id, its name and the unit ids and names it will use are all new. */
  ghost predicate Fresh(p: Persisted, b: Batch, first: nat) {
    && b.gid !in p.groups && Uncategorised(p, b.gid) && b.groupName !in p.groupsByName
    && b.gid !in SideSet(p.groupsBySide, b.side)
    && forall u :: u in Ids.Drawn(first, |b.units|) ==> u !in p.units && Decimal.Suffixed(b.groupName, u) !in p.unitsByName
  }

  /** Removing a freshly inserted group's entries gives back the store, its side's entry now there even if empty. */
  lemma WithoutUndoesWith(p: Persisted, gid: GroupId, g: SpawnedGroup)
    requires KnownPlayer(p, g.origin) && g.id == gid
    requires gid !in p.groups && g.name !in p.groupsByName && gid !in SideSet(p.groupsBySide, g.side) && Uncategorised(p, gid)
    ensures KnownPlayer(WithGroup(p, g), g.origin)
    ensures WithoutGroup(WithGroup(p, g), gid, g) == p.(groupsBySide := p.groupsBySide[g.side := SideSet(p.groupsBySide, g.side)])
  {
    var j := Join(p, gid, g.origin);
    var q := WithGroup(p, g);
    var bySide := p.groupsBySide[g.side := SideSet(p.groupsBySide, g.side)];
    LeaveJoinFrame(p, gid, g.origin, bySide);
    JoinKeepsIndices(p, gid, g.origin);
    UnindexUndoesIndex(j, g);
    var q' := q.(groups := q.groups - {gid}, groupsByName := q.groupsByName - {g.name},
                 groupsBySide := q.groupsBySide[g.side := q.groupsBySide[g.side] - {gid}]);
    assert q' == j.(groupsBySide := bySide);
    assert q.players == q'.players == j.players;
    assert KnownPlayer(q, g.origin) && KnownPlayer(q', g.origin);
    assert WithoutGroup(q, gid, g) == Leave(q', gid, g.origin);
  }

  /** Taking a fresh group's index entries back out restores the group map and the name index, and leaves its side's set as it was, if now present. */
  lemma UnindexUndoesIndex(j: Persisted, g: SpawnedGroup)
    requires g.id !in j.groups && g.name !in j.groupsByName && g.id !in SideSet(j.groupsBySide, g.side)
    ensures var q := j.(groups := j.groups[g.id := g], groupsByName := j.groupsByName[g.name := g.id],
                        groupsBySide := j.groupsBySide[g.side := SideSet(j.groupsBySide, g.side) + {g.id}]);
      q.(groups := q.groups - {g.id}, groupsByName := q.groupsByName - {g.name},
         groupsBySide := q.groupsBySide[g.side := q.groupsBySide[g.side] - {g.id}])
      == j.(groupsBySide := j.groupsBySide[g.side := SideSet(j.groupsBySide, g.side)])
  {
    assert j.groups[g.id := g] - {g.id} == j.groups;
    assert j.groupsByName[g.name := g.id] - {g.name} == j.groupsByName;
  }

  /** Joining the categories leaves the group map and both group indices alone. */
  lemma JoinKeepsIndices(p: Persisted, gid: GroupId, origin: DeployKind)
    requires KnownPlayer(p, origin)
    ensures var j := Join(p, gid, origin);
      j.groups == p.groups && j.groupsByName == p.groupsByName && j.groupsBySide == p.groupsBySide
  {
  }

  /** Leaving the categories a fresh group joined restores them, whatever happened to the side index in between. */
  lemma LeaveJoinFrame(p: Persisted, gid: GroupId, origin: DeployKind, bySide: map<Side, set<GroupId>>)
    requires KnownPlayer(p, origin) && Uncategorised(p, gid)
    ensures KnownPlayer(Join(p, gid, origin), origin)
    ensures Leave(Join(p, gid, origin).(groupsBySide := bySide), gid, origin) == p.(groupsBySide := bySide)
  {
    LeaveUndoesJoin(p, gid, origin);
  }

  /** Taking the added keys back out of a map extended by fresh entries gives back the map. */
  lemma MapPlusLess<K, V>(m: map<K, V>, n: map<K, V>, ks: set<K>)
    requires n.Keys == ks && ks !! m.Keys
    ensures (m + n) - ks == m
  {
  }

  /** The names of a fresh spawn's units are exactly the keys it added to the name index. */
  lemma FreshUnitNames(p: Persisted, b: Batch, height: Vector2 -> real, first: nat)
    requires WellFormed(b)
    ensures var q := WithUnits(p, b, height, first, |b.units|);
      NamesOf(q.units, Ids.Drawn(first, |b.units|)) == Ids.SuffixedNames(b.groupName, first, |b.units|).Keys
  {
    BatchUnitsKeys(b, height, first, |b.units|);
    NamesOfOverride(p.units, BatchUnits(b, height, first, |b.units|), Ids.Drawn(first, |b.units|));
    BatchUnitNames(b, height, first, |b.units|);
  }

  /** The units a batch adds carry exactly the names the name index gains. */
  lemma BatchUnitNames(b: Batch, height: Vector2 -> real, first: nat, n: nat)
    requires WellFormed(b) && n <= |b.units|
    ensures NamesOf(BatchUnits(b, height, first, n), Ids.Drawn(first, n)) == Ids.SuffixedNames(b.groupName, first, n).Keys
  {
    var ids := Ids.Drawn(first, n);
    var added := BatchUnits(b, height, first, n);
    var names := Ids.SuffixedNames(b.groupName, first, n);
    BatchUnitsKeys(b, height, first, n);
    BatchUnitsShape(b, height, first, n);
    Ids.SuffixedNamesShape(b.groupName, first, n);
    forall nm | nm in NamesOf(added, ids) ensures nm in names {
      var u :| u in ids && u in added && nm == added[u].name;
    }
    forall nm | nm in names ensures nm in NamesOf(added, ids) {
      var u := names[nm];
      assert added[u].name == nm;
    }
  }

  /** The names of ids all in `n` read the same in `m + n` as in `n`. */
  lemma NamesOfOverride(m: map<UnitId, SpawnedUnit>, n: map<UnitId, SpawnedUnit>, ids: set<UnitId>)
    requires ids <= n.Keys
    ensures NamesOf(m + n, ids) == NamesOf(n, ids)
  {
    forall nm | nm in NamesOf(m + n, ids) ensures nm in NamesOf(n, ids) {
      var u :| u in ids && u in m + n && nm == (m + n)[u].name;
      assert (m + n)[u] == n[u];
    }
    forall nm | nm in NamesOf(n, ids) ensures nm in NamesOf(m + n, ids) {
      var u :| u in ids && u in n && nm == n[u].name;
      assert (m + n)[u] == n[u];
    }
  }

  /** Dropping a fresh spawn's units gives back the unit map and the unit name index. */
  lemma DropUndoesWithUnits(p: Persisted, b: Batch, height: Vector2 -> real, first: nat)
    requires WellFormed(b) && Fresh(p, b, first)
    ensures var q := WithUnits(p, b, height, first, |b.units|);
      var ids := Ids.Drawn(first, |b.units|);
      q.units - ids == p.units && q.unitsByName - NamesOf(q.units, ids) == p.unitsByName
  {
    var n := |b.units|;
    var names := Ids.SuffixedNames(b.groupName, first, n);
    BatchUnitsKeys(b, height, first, n);
    MapPlusLess(p.units, BatchUnits(b, height, first, n), Ids.Drawn(first, n));
    Ids.SuffixedNamesShape(b.groupName, first, n);
    assert names.Keys !! p.unitsByName.Keys by {
      forall nm | nm in names ensures nm !in p.unitsByName {
        assert nm == Decimal.Suffixed(b.groupName, names[nm]);
      }
    }
    MapPlusLess(p.unitsByName, names, names.Keys);
    FreshUnitNames(p, b, height, first);
  }

  /**
    Insert and delete are symmetric: deleting a group right after
    `add_group` stored it into a store it was fresh to gives back every
    map, index and category set, except that its side's set now exists,
    possibly empty.
  */
  lemma AddThenDeleteRestores(p: Persisted, e: Ephemeral, b: Batch, height: Vector2 -> real, templateName: string,
                              kind: Option<DcsGroup.GroupCategory>, origin: DeployKind, first: nat)
    requires WellFormed(b) && KnownPlayer(p, origin) && Fresh(p, b, first)
    ensures var q := AddedStore(p, b, height, templateName, kind, origin, first);
      && b.gid in q.groups && KnownPlayer(q, q.groups[b.gid].origin)
      && Deleted(DbState(q, e), b.gid).p == p.(groupsBySide := p.groupsBySide[b.side := SideSet(p.groupsBySide, b.side)])
  {
    var n := |b.units|;
    var p1 := WithUnits(p, b, height, first, n);
    var g := NewGroup(b, templateName, kind, origin, first);
    var q := AddedStore(p, b, height, templateName, kind, origin, first);
    assert q == WithGroup(p1, g);
    var bySide := p.groupsBySide[b.side := SideSet(p.groupsBySide, b.side)];
    WithoutUndoesWith(p1, b.gid, g);
    var w := WithoutGroup(q, b.gid, g);
    assert w == p1.(groupsBySide := bySide);
    DropUndoesWithUnits(p, b, height, first);
    assert q.groups[b.gid] == g;
    PurgedPersisted(DbState(w, Unmark(e, b.gid)), b.gid, g);
    var d := Deleted(DbState(q, e), b.gid).p;
    assert d == w.(units := p1.units - Ids.Drawn(first, n), unitsByName := p1.unitsByName - NamesOf(p1.units, Ids.Drawn(first, n)));
    assert q.groups[b.gid] == g;
  }

  // ---------------------------------------------------------------------
  // Marking preconditions
  // ---------------------------------------------------------------------

  /**
    `mark_group` indexes the unit map with each member and, for a group a
    player deployed, the player map with its player: both must be there.
  */
  predicate Markable(p: Persisted, gid: GroupId) {
    gid in p.groups ==> KnownPlayer(p, p.groups[gid].origin) && p.groups[gid].units <= p.units.Keys
  }

  /** A group `add_group` just stored can be marked. */
  lemma AddedMarkable(p: Persisted, b: Batch, height: Vector2 -> real, templateName: string,
                      kind: Option<DcsGroup.GroupCategory>, origin: DeployKind, first: nat)
    requires WellFormed(b) && KnownPlayer(p, origin)
    ensures Markable(AddedStore(p, b, height, templateName, kind, origin, first), b.gid)
  {
    var n := |b.units|;
    var p1 := WithUnits(p, b, height, first, n);
    var g := NewGroup(b, templateName, kind, origin, first);
    BatchUnitsKeys(b, height, first, n);
    JoinKeepsIndices(p1, b.gid, origin);
    assert p1.units.Keys >= Ids.Drawn(first, n);
  }

  // ---------------------------------------------------------------------
  // Group health
  // ---------------------------------------------------------------------

  /** The number of listed units that are stored and alive, counted along the walk. */
  function Alive(units: map<UnitId, SpawnedUnit>, order: seq<UnitId>): nat
    decreases |order|
  {
    if order == [] then 0
    else
      var u := order[|order| - 1];
      Alive(units, order[..|order| - 1]) + if u in units && !units[u].dead then 1 else 0
  }

  /** The members that are stored and alive. */
  function LiveMembers(units: map<UnitId, SpawnedUnit>, ids: set<UnitId>): set<UnitId> {
    set u | u in ids && u in units && !units[u].dead
  }

  /**
    `group_health`: the number of alive members and the number of members.
    An unknown group is an error, and so is a member missing from the unit map.
  */
  function Health(p: Persisted, gid: GroupId): Result<(nat, nat), string> {
    if gid !in p.groups then Err("no such group")
    else if !(p.groups[gid].units <= p.units.Keys) then Err("no such unit")
    else Ok((Alive(p.units, Ids.Ascending(p.groups[gid].units)), |p.groups[gid].units|))
  }

  /** Over distinct ids, the walk counts each alive member once. */
  lemma {:induction false} AliveCount(units: map<UnitId, SpawnedUnit>, order: seq<UnitId>)
    requires Distinct(order)
    ensures Alive(units, order) == |LiveMembers(units, Listed(order))|
  {
    if order != [] {
      var pre := order[..|order| - 1];
      var u := order[|order| - 1];
      assert Distinct(pre);
      AliveCount(units, pre);
      ListedLast(order);
      LiveMembersPlus(units, Listed(pre), u);
    }
  }

  /** The ids a non-empty walk lists are those of its front and its last entry, which is not in the front when nothing repeats. */
  lemma ListedLast(order: seq<UnitId>)
    requires order != []
    ensures Listed(order) == Listed(order[..|order| - 1]) + {order[|order| - 1]}
    ensures Distinct(order) ==> order[|order| - 1] !in Listed(order[..|order| - 1])
  {
    assert order == order[..|order| - 1] + [order[|order| - 1]];
  }

  /** Adding a new id adds one live member when that unit is stored and alive, none otherwise. */
  lemma LiveMembersPlus(units: map<UnitId, SpawnedUnit>, ids: set<UnitId>, u: UnitId)
    requires u !in ids
    ensures |LiveMembers(units, ids + {u})| == |LiveMembers(units, ids)| + if u in units && !units[u].dead then 1 else 0
  {
    var live := LiveMembers(units, ids);
    if u in units && !units[u].dead {
      assert LiveMembers(units, ids + {u}) == live + {u};
    } else {
      assert LiveMembers(units, ids + {u}) == live;
    }
  }

  lemma AscendingLength(ids: set<UnitId>)
    ensures |Ids.Ascending(ids)| == |ids|
  {
    AscendingListed(ids);
    AscendingDistinct(ids);
    DistinctCard(Ids.Ascending(ids));
  }

  /** A walk without repeats lists as many ids as it has entries. */
  lemma {:induction false} DistinctCard(order: seq<UnitId>)
    requires Distinct(order)
    ensures |Listed(order)| == |order|
  {
    if order != [] {
      var pre := order[..|order| - 1];
      assert Distinct(pre);
      DistinctCard(pre);
      ListedLast(order);
    }
  }

  /**
    A stored group's health counts its alive members among all of its
    members, so it reports zero alive exactly when every member is dead.
  */
  lemma HealthCounts(p: Persisted, gid: GroupId)
    requires Health(p, gid).Ok?
    ensures var g := p.groups[gid];
      var h := Health(p, gid).value;
      && h == (|LiveMembers(p.units, g.units)|, |g.units|)
      && h.0 <= h.1
      && (h.0 == 0 <==> forall u :: u in g.units ==> p.units[u].dead)
  {
    var g := p.groups[gid];
    AliveMembers(p.units, g.units);
    LiveMembersBounds(p.units, g.units);
  }

  /** The walk over a set in ascending order counts its live members. */
  lemma AliveMembers(units: map<UnitId, SpawnedUnit>, ids: set<UnitId>)
    ensures Alive(units, Ids.Ascending(ids)) == |LiveMembers(units, ids)|
  {
    AscendingDistinct(ids);
    AscendingListed(ids);
    AliveCount(units, Ids.Ascending(ids));
  }

  /** The live members are some of the members, and none exactly when all stored members are dead. */
  lemma LiveMembersBounds(units: map<UnitId, SpawnedUnit>, ids: set<UnitId>)
    requires ids <= units.Keys
    ensures |LiveMembers(units, ids)| <= |ids|
    ensures |LiveMembers(units, ids)| == 0 <==> forall u :: u in ids ==> units[u].dead
  {
    var live := LiveMembers(units, ids);
    assert ids == live + (ids - live);
    assert |ids| == |live| + |ids - live|;
    if !forall u :: u in ids ==> units[u].dead {
      var u :| u in ids && !units[u].dead;
      assert {u} <= live;
      assert |live| >= 1;
    } else {
      assert live == {};
    }
  }

  // ---------------------------------------------------------------------
  // Unit deaths
  // ---------------------------------------------------------------------

  /** A unit that died: flagged dead and put back at its spawn point, spawn heading and spawn pose. */
  function Frozen(u: SpawnedUnit): SpawnedUnit {
    u.(dead := true, pos := u.spawnPos, heading := u.spawnHeading, position := u.spawnPosition)
  }

  /** A group a player deployed as a unit, as troops or as a crate: only those are deleted once wiped out. */
  predicate PlayerDeployed(p: Persisted, gid: GroupId) {
    gid in p.deployed || gid in p.troops || gid in p.crates
  }

  /** `delete_group` indexes the player map with the player a group's origin names. */
  predicate Deletable(p: Persisted, gid: GroupId) {
    gid in p.groups ==> KnownPlayer(p, p.groups[gid].origin)
  }

  /** The store once a stored unit was frozen and the flag set. */
  function Died(s: DbState, uid: UnitId): DbState
    requires uid in s.p.units
  {
    DbState(s.p.(units := s.p.units[uid := Frozen(s.p.units[uid])]), s.e.(dirty := true))
  }

  /**
    `unit_dead`, given what the engine-side bookkeeping found for the
    handle: nothing, or a unit id. An id missing from the unit map is only
    logged. A found unit is frozen; then, if its group is player-deployed,
    its health is taken and the group deleted when none is alive.
  */
  function UnitDied(s: DbState, found: Option<UnitId>): (DbState, Result<(), string>)
    requires found.Some? && found.value in s.p.units ==> Deletable(s.p, s.p.units[found.value].group)
  {
    if found.None? || found.value !in s.p.units then (s, Ok(()))
    else
      var uid := found.value;
      var gid := s.p.units[uid].group;
      var s1 := Died(s, uid);
      if !PlayerDeployed(s1.p, gid) then (s1, Ok(()))
      else
        var h := Health(s1.p, gid);
        if h.Err? then (s1, Err(h.error))
        else if h.value.0 == 0 then (Deleted(s1, gid), Ok(()))
        else (s1, Ok(()))
  }

  /** An unknown handle or a unit id missing from the unit map changes nothing and is no error. */
  lemma UnitDiedUnknown(s: DbState, found: Option<UnitId>)
    requires found.None? || found.value !in s.p.units
    ensures UnitDied(s, found) == (s, Ok(()))
  {
  }

  /**
    A unit of a group no player deployed (an objective's group) is frozen
    and nothing else happens: the group stays whatever its health.
  */
  lemma UnitDiedKeepsObjectiveGroups(s: DbState, uid: UnitId)
    requires uid in s.p.units && Deletable(s.p, s.p.units[uid].group) && !PlayerDeployed(s.p, s.p.units[uid].group)
    ensures var r := UnitDied(s, Some(uid));
      && r.1 == Ok(())
      && r.0.p == s.p.(units := s.p.units[uid := Frozen(s.p.units[uid])])
      && r.0.e == s.e.(dirty := true)
  {
  }

  /**
    When the dying unit was the last one alive of a stored, player-deployed
    group whose members are all stored, the group is deleted.
  */
  lemma UnitDiedWipesOut(s: DbState, uid: UnitId)
    requires uid in s.p.units
    requires var gid := s.p.units[uid].group;
      && PlayerDeployed(s.p, gid) && gid in s.p.groups && Deletable(s.p, gid)
      && s.p.groups[gid].units <= s.p.units.Keys
      && forall v :: v in s.p.groups[gid].units && v != uid ==> s.p.units[v].dead
    ensures var gid := s.p.units[uid].group;
      var s1 := Died(s, uid);
      && UnitDied(s, Some(uid)) == (Deleted(s1, gid), Ok(()))
      && gid !in UnitDied(s, Some(uid)).0.p.groups
  {
    var gid := s.p.units[uid].group;
    var s1 := Died(s, uid);
    assert s1.p.groups == s.p.groups && s1.p.units.Keys == s.p.units.Keys;
    HealthCounts(s1.p, gid);
    DeleteLeavesNoTrace(s1, gid);
  }

  /** When another member of a stored, player-deployed group is alive, the group stays. */
  lemma UnitDiedSpares(s: DbState, uid: UnitId, survivor: UnitId)
    requires uid in s.p.units
    requires var gid := s.p.units[uid].group;
      && PlayerDeployed(s.p, gid) && gid in s.p.groups && Deletable(s.p, gid)
      && s.p.groups[gid].units <= s.p.units.Keys
      && survivor in s.p.groups[gid].units && survivor != uid && !s.p.units[survivor].dead
    ensures UnitDied(s, Some(uid)) == (Died(s, uid), Ok(()))
  {
    var gid := s.p.units[uid].group;
    var s1 := Died(s, uid);
    assert s1.p.groups == s.p.groups && s1.p.units.Keys == s.p.units.Keys;
    HealthCounts(s1.p, gid);
    assert !s1.p.units[survivor].dead;
  }

  // ---------------------------------------------------------------------
  // Unit births and the handle maps
  // ---------------------------------------------------------------------

  /** The two handle maps are inverse to each other. */
  predicate HandlesInverse(e: Ephemeral) {
    && (forall u :: u in e.objectIdByUid ==> e.objectIdByUid[u] in e.uidByObjectId && e.uidByObjectId[e.objectIdByUid[u]] == u)
    && (forall o :: o in e.uidByObjectId ==> e.uidByObjectId[o] in e.objectIdByUid && e.objectIdByUid[e.uidByObjectId[o]] == o)
  }

  /**
    The id-mapping part of `unit_born`: a unit whose name is stored gets
    its handle recorded both ways and becomes a proximity candidate; any
    other name changes nothing.
  */
  function Born(p: Persisted, e: Ephemeral, oid: ObjectId, name: string): Ephemeral {
    if name !in p.unitsByName then e
    else
      var uid := p.unitsByName[name];
      e.(uidByObjectId := e.uidByObjectId[oid := uid],
         objectIdByUid := e.objectIdByUid[uid := oid],
         closeToEnemies := e.closeToEnemies + {uid},
         onWalkabout := e.onWalkabout + {uid})
  }

  /** The birth of a stored unit with a new handle keeps the handle maps inverse, and the handle leads to the unit and back. */
  lemma BornKeepsInverse(p: Persisted, e: Ephemeral, oid: ObjectId, name: string)
    requires HandlesInverse(e)
    requires name in p.unitsByName ==> p.unitsByName[name] !in e.objectIdByUid && oid !in e.uidByObjectId
    ensures HandlesInverse(Born(p, e, oid, name))
    ensures name in p.unitsByName ==>
      var r := Born(p, e, oid, name);
      r.uidByObjectId[oid] == p.unitsByName[name] && r.objectIdByUid[p.unitsByName[name]] == oid
  {
  }

  /** Taking units and their handles out keeps two inverse handle maps inverse. */
  lemma InverseLess(e: Ephemeral, ids: set<UnitId>)
    requires HandlesInverse(e)
    ensures HandlesInverse(e.(objectIdByUid := e.objectIdByUid - ids,
                              uidByObjectId := e.uidByObjectId - HandlesOf(e.objectIdByUid, ids)))
  {
    var r := e.(objectIdByUid := e.objectIdByUid - ids,
                uidByObjectId := e.uidByObjectId - HandlesOf(e.objectIdByUid, ids));
    forall u | u in r.objectIdByUid
      ensures r.objectIdByUid[u] in r.uidByObjectId && r.uidByObjectId[r.objectIdByUid[u]] == u
    {
      var o := e.objectIdByUid[u];
      assert forall v :: v in ids && v in e.objectIdByUid ==> e.uidByObjectId[e.objectIdByUid[v]] == v != u;
    }
  }

  /** `delete_group` keeps the handle maps inverse. */
  lemma DeleteKeepsInverse(s: DbState, gid: GroupId)
    requires gid in s.p.groups && KnownPlayer(s.p, s.p.groups[gid].origin)
    requires HandlesInverse(s.e)
    ensures HandlesInverse(Deleted(s, gid).e)
  {
    var g := s.p.groups[gid];
    var s1 := DbState(WithoutGroup(s.p, gid, g), Unmark(s.e, gid));
    PurgedEphemeral(s1, gid, g);
    InverseLess(s1.e, g.units);
  }

  // ---------------------------------------------------------------------
  // Position updates
  // ---------------------------------------------------------------------

  /**
    `update_unit_positions` so far: the state, the groups of the units that
    moved (one entry per moved unit), the handles whose instance was gone,
    and the error that stopped the walk.
  */
  datatype Sweep = Sweep(s: DbState, moved: seq<GroupId>, dead: seq<ObjectId>, failed: Option<string>)

  /** A unit that moved to pose `ps`: its pose, its planar point `(x, z)` and its heading are written. */
  function Moved(u: SpawnedUnit, ps: Position3, azimuth: Vec3 -> real): SpawnedUnit {
    u.(position := ps, pos := Vector2(ps.p.x, ps.p.z), heading := azimuth(ps.x))
  }

  /**
    One turn of the walk: a unit with no handle is skipped, a handle whose
    instance is gone is collected, a unit missing from the unit map stops
    the walk. A pose that differs from the stored one is written, the unit
    becomes a proximity candidate again and its group is collected.
  */
  function SweepStep(w: Sweep, uid: UnitId, live: ObjectId -> bool, pose: ObjectId -> Position3,
                     azimuth: Vec3 -> real): Sweep
  {
    if w.failed.Some? || uid !in w.s.e.objectIdByUid then w
    else
      var id := w.s.e.objectIdByUid[uid];
      if !live(id) then w.(dead := w.dead + [id])
      else if uid !in w.s.p.units then w.(failed := Some("no such unit"))
      else
        var su := w.s.p.units[uid];
        var ps := pose(id);
        if su.position == ps then w
        else
          w.(s := DbState(w.s.p.(units := w.s.p.units[uid := Moved(su, ps, azimuth)]),
                          w.s.e.(closeToEnemies := w.s.e.closeToEnemies + {uid}, onWalkabout := w.s.e.onWalkabout + {uid})),
             moved := w.moved + [su.group])
  }

  /** The groups the stored units belong to. */
  function GroupsOf(units: map<UnitId, SpawnedUnit>): set<GroupId> {
    set u | u in units :: units[u].group
  }

  /** The walk over `uids`, in order. */
  function Swept(s: DbState, uids: seq<UnitId>, live: ObjectId -> bool, pose: ObjectId -> Position3,
                 azimuth: Vec3 -> real): Sweep
    decreases |uids|
  {
    if uids == [] then Sweep(s, [], [], None)
    else SweepStep(Swept(s, uids[..|uids| - 1], live, pose, azimuth), uids[|uids| - 1], live, pose, azimuth)
  }

  /** The second loop: per moved unit the flag is set and its group marked; an unknown group stops it. */
  function MarkMoved(p: Persisted, e: Ephemeral, gids: seq<GroupId>): (Ephemeral, Result<(), string>)
    decreases |gids|
  {
    if gids == [] then (e, Ok(()))
    else
      var m := MarkMoved(p, e, gids[..|gids| - 1]);
      var gid := gids[|gids| - 1];
      if m.1.Err? then m
      else (Marked(p, m.0.(dirty := true), gid), if gid in p.groups then Ok(()) else Err("no such group"))
  }

  /**
    `update_unit_positions` over the given ids, or over the units able to
    move (in ascending id order): the walk, then the marks; the result is
    the list of handles found dead.
  */
  function PositionsUpdated(s: DbState, units: Option<seq<UnitId>>, live: ObjectId -> bool,
                            pose: ObjectId -> Position3, azimuth: Vec3 -> real): (DbState, Result<seq<ObjectId>, string>)
  {
    var order := if units.Some? then units.value else Ids.Ascending(s.e.ableToMove);
    var w := Swept(s, order, live, pose, azimuth);
    if w.failed.Some? then (w.s, Err(w.failed.value))
    else
      var m := MarkMoved(w.s.p, w.s.e, w.moved);
      (DbState(w.s.p, m.0), if m.1.Err? then Err(m.1.error) else Ok(w.dead))
  }

  /**
    The walk touches only unit records and the proximity sets: the unit
    map keeps its keys, every other part of the store and of the
    engine-side state stays.
  */
  lemma {:induction false} SweptFrame(s: DbState, uids: seq<UnitId>, live: ObjectId -> bool,
                                      pose: ObjectId -> Position3, azimuth: Vec3 -> real)
    ensures var w := Swept(s, uids, live, pose, azimuth);
      && w.s.p == s.p.(units := w.s.p.units)
      && w.s.p.units.Keys == s.p.units.Keys
      && w.s.e == s.e.(closeToEnemies := w.s.e.closeToEnemies, onWalkabout := w.s.e.onWalkabout)
      && (forall u :: u in w.s.p.units ==> w.s.p.units[u].group == s.p.units[u].group)
      && (forall k :: 0 <= k < |w.moved| ==> w.moved[k] in GroupsOf(s.p.units))
    decreases |uids|
  {
    if uids != [] {
      var pre := uids[..|uids| - 1];
      SweptFrame(s, pre, live, pose, azimuth);
      SweepStepFrame(Swept(s, pre, live, pose, azimuth), uids[|uids| - 1], live, pose, azimuth);
    }
  }

  /** One turn of the walk touches unit records and the proximity sets only, and collects the group of a unit it writes. */
  lemma SweepStepFrame(w: Sweep, v: UnitId, live: ObjectId -> bool, pose: ObjectId -> Position3, azimuth: Vec3 -> real)
    ensures var r := SweepStep(w, v, live, pose, azimuth);
      && r.s.p == w.s.p.(units := r.s.p.units)
      && r.s.p.units.Keys == w.s.p.units.Keys
      && r.s.e == w.s.e.(closeToEnemies := r.s.e.closeToEnemies, onWalkabout := r.s.e.onWalkabout)
      && (forall u :: u in r.s.p.units ==> r.s.p.units[u].group == w.s.p.units[u].group)
      && (r.moved == w.moved || (v in w.s.p.units && r.moved == w.moved + [w.s.p.units[v].group]))
  {
  }

  /** Once the walk has failed, the rest of the ids change nothing. */
  lemma {:induction false} SweptStuck(s: DbState, uids: seq<UnitId>, i: nat, live: ObjectId -> bool,
                                      pose: ObjectId -> Position3, azimuth: Vec3 -> real)
    requires i <= |uids| && Swept(s, uids[..i], live, pose, azimuth).failed.Some?
    ensures Swept(s, uids, live, pose, azimuth) == Swept(s, uids[..i], live, pose, azimuth)
    decreases |uids|
  {
    if i < |uids| {
      var pre := uids[..|uids| - 1];
      assert pre[..i] == uids[..i];
      SweptStuck(s, pre, i, live, pose, azimuth);
    } else {
      assert uids[..i] == uids;
    }
  }

  /**
    What the walk leaves of each unit: if the walk finished and the unit
    was listed with a live handle, its stored pose is the engine's;
    a unit never listed, listed without a handle or with a dead one keeps
    its record.
  */
  lemma {:induction false} SweptPoses(s: DbState, uids: seq<UnitId>, live: ObjectId -> bool,
                                      pose: ObjectId -> Position3, azimuth: Vec3 -> real, u: UnitId)
    requires u in s.p.units
    ensures var w := Swept(s, uids, live, pose, azimuth);
      && u in w.s.p.units
      && (w.failed.None? && u in uids && u in s.e.objectIdByUid && live(s.e.objectIdByUid[u]) ==>
            w.s.p.units[u].position == pose(s.e.objectIdByUid[u]))
      && (u !in uids || u !in s.e.objectIdByUid || !live(s.e.objectIdByUid[u]) ==> w.s.p.units[u] == s.p.units[u])
    decreases |uids|
  {
    if uids != [] {
      var pre := uids[..|uids| - 1];
      var v := uids[|uids| - 1];
      SweptPoses(s, pre, live, pose, azimuth, u);
      SweptFrame(s, pre, live, pose, azimuth);
      SweepStepPose(Swept(s, pre, live, pose, azimuth), v, live, pose, azimuth, u);
      assert uids == pre + [v];
    }
  }

  /** One turn of the walk writes the engine's pose into unit `v` at most; every other unit keeps its record. */
  lemma SweepStepPose(w: Sweep, v: UnitId, live: ObjectId -> bool, pose: ObjectId -> Position3,
                      azimuth: Vec3 -> real, u: UnitId)
    requires u in w.s.p.units
    ensures var r := SweepStep(w, v, live, pose, azimuth);
      var handles := w.s.e.objectIdByUid;
      && u in r.s.p.units
      && (r.failed.None? ==> w.failed.None?)
      && (u != v || u !in handles || !live(handles[u]) ==> r.s.p.units[u] == w.s.p.units[u])
      && (u == v && r.failed.None? && u in handles && live(handles[u]) ==> r.s.p.units[u].position == pose(handles[u]))
  {
    if w.failed.None? && v in w.s.e.objectIdByUid && live(w.s.e.objectIdByUid[v]) && v in w.s.p.units {
      var su := w.s.p.units[v];
      var ps := pose(w.s.e.objectIdByUid[v]);
      if su.position != ps {
        assert SweepStep(w, v, live, pose, azimuth).s.p.units == w.s.p.units[v := Moved(su, ps, azimuth)];
      }
    }
  }

  /** A listed unit whose stored pose already is the engine's is not written: pose, point and heading stay. */
  lemma {:induction false} SweptSkipsUnmoved(s: DbState, uids: seq<UnitId>, live: ObjectId -> bool,
                                             pose: ObjectId -> Position3, azimuth: Vec3 -> real, u: UnitId)
    requires u in s.p.units && u in s.e.objectIdByUid && s.p.units[u].position == pose(s.e.objectIdByUid[u])
    ensures u in Swept(s, uids, live, pose, azimuth).s.p.units
    ensures Swept(s, uids, live, pose, azimuth).s.p.units[u] == s.p.units[u]
    decreases |uids|
  {
    SweptFrame(s, uids, live, pose, azimuth);
    if uids != [] {
      SweptSkipsUnmoved(s, uids[..|uids| - 1], live, pose, azimuth, u);
      SweptFrame(s, uids[..|uids| - 1], live, pose, azimuth);
    }
  }

  /**
    The collected dead handles are exactly the handles of listed units
    whose instance is gone, in walk order, when the walk finished.
  */
  lemma {:induction false} SweptDead(s: DbState, uids: seq<UnitId>, live: ObjectId -> bool,
                                     pose: ObjectId -> Position3, azimuth: Vec3 -> real)
    ensures var w := Swept(s, uids, live, pose, azimuth);
      w.failed.None? ==> w.dead == DeadHandles(s.e.objectIdByUid, uids, live)
    decreases |uids|
  {
    if uids != [] {
      SweptDead(s, uids[..|uids| - 1], live, pose, azimuth);
      SweptFrame(s, uids[..|uids| - 1], live, pose, azimuth);
    }
  }

  /** The handles of the listed units whose instance is gone, in order. */
  function DeadHandles(handles: map<UnitId, ObjectId>, uids: seq<UnitId>, live: ObjectId -> bool): seq<ObjectId>
    decreases |uids|
  {
    if uids == [] then []
    else
      var u := uids[|uids| - 1];
      DeadHandles(handles, uids[..|uids| - 1], live)
        + if u in handles && !live(handles[u]) then [handles[u]] else []
  }

  /** Each collected handle is a listed unit's handle whose instance is gone, and each such handle is collected. */
  lemma {:induction false} DeadHandlesExact(handles: map<UnitId, ObjectId>, uids: seq<UnitId>, live: ObjectId -> bool)
    ensures forall o :: o in DeadHandles(handles, uids, live) ==> !live(o) && o in HandlesOf(handles, Listed(uids))
    ensures forall u :: u in uids && u in handles && !live(handles[u]) ==> handles[u] in DeadHandles(handles, uids, live)
    decreases |uids|
  {
    if uids != [] {
      var pre := uids[..|uids| - 1];
      var u := uids[|uids| - 1];
      DeadHandlesExact(handles, pre, live);
      assert Listed(uids) == Listed(pre) + {u} by {
        assert uids == pre + [u];
      }
      forall v | v in uids && v in handles && !live(handles[v])
        ensures handles[v] in DeadHandles(handles, uids, live)
      {
        if v != u {
          var j :| 0 <= j < |uids| && uids[j] == v;
          assert pre[j] == v;
        }
      }
    }
  }

  /** Marking the moved groups succeeds exactly when every one of them is stored. */
  lemma {:induction false} MarkMovedSucceeds(p: Persisted, e: Ephemeral, gids: seq<GroupId>)
    ensures MarkMoved(p, e, gids).1.Ok? <==> forall g :: g in gids ==> g in p.groups
    decreases |gids|
  {
    if gids != [] {
      var pre := gids[..|gids| - 1];
      MarkMovedSucceeds(p, e, pre);
      assert gids == pre + [gids[|gids| - 1]];
    }
  }

  /**
    When marking the moved groups succeeds, each of them ends marked
    exactly when a player deployed it (an objective's group ends with
    none), and the flag is set when anything moved.
  */
  lemma {:induction false} MarkMovedMarks(p: Persisted, e: Ephemeral, gids: seq<GroupId>)
    ensures var m := MarkMoved(p, e, gids);
      && (m.1.Ok? ==> forall g :: g in gids ==> g in p.groups && (g in m.0.groupMarks <==> !p.groups[g].origin.Objective?))
      && (m.1.Ok? && gids != [] ==> m.0.dirty)
    decreases |gids|
  {
    if gids != [] {
      var pre := gids[..|gids| - 1];
      var gid := gids[|gids| - 1];
      MarkMovedMarks(p, e, pre);
      MarkMovedSucceeds(p, e, pre);
      MarkMovedSucceeds(p, e, gids);
      assert gids == pre + [gid];
      var m := MarkMoved(p, e, pre);
      if m.1.Ok? {
        MarkStep(p, m.0.(dirty := true), gid);
      }
    }
  }

  /** One mark: the group is marked exactly when stored and player-deployed, other groups keep theirs, the flag stays. */
  lemma MarkStep(p: Persisted, e: Ephemeral, gid: GroupId)
    ensures var r := Marked(p, e, gid);
      && (gid in r.groupMarks <==> gid in p.groups && !p.groups[gid].origin.Objective?)
      && (forall g :: g != gid ==> (g in r.groupMarks <==> g in e.groupMarks))
      && r.dirty == e.dirty
  {
  }

  /** Groups that did not move keep their marks, whether or not marking stopped early. */
  lemma {:induction false} MarkMovedKeepsOthers(p: Persisted, e: Ephemeral, gids: seq<GroupId>)
    ensures var m := MarkMoved(p, e, gids);
      && (forall g :: g !in gids ==> (g in m.0.groupMarks <==> g in e.groupMarks))
      && (forall g :: g !in gids && g in e.groupMarks ==> m.0.groupMarks[g] == e.groupMarks[g])
    decreases |gids|
  {
    if gids != [] {
      var pre := gids[..|gids| - 1];
      var gid := gids[|gids| - 1];
      MarkMovedKeepsOthers(p, e, pre);
      assert gids == pre + [gid];
      var m := MarkMoved(p, e, pre);
      if m.1.Ok? {
        MarkedKeepsOthers(p, m.0.(dirty := true), gid);
      }
    }
  }

  /** Once marking has failed, the rest of the groups change nothing. */
  lemma {:induction false} MarkMovedStuck(p: Persisted, e: Ephemeral, gids: seq<GroupId>, i: nat)
    requires i <= |gids| && MarkMoved(p, e, gids[..i]).1.Err?
    ensures MarkMoved(p, e, gids) == MarkMoved(p, e, gids[..i])
    decreases |gids|
  {
    if i < |gids| {
      var pre := gids[..|gids| - 1];
      assert pre[..i] == gids[..i];
      MarkMovedStuck(p, e, pre, i);
    } else {
      assert gids[..i] == gids;
    }
  }

  // ---------------------------------------------------------------------
  // Queued spawns
  // ---------------------------------------------------------------------

  /** `add_and_queue_group` after a successful add: the new id is queued now, or at the given time behind any already queued then. */
  function Queued(e: Ephemeral, gid: GroupId, delay: Option<Time>): Ephemeral {
    if delay.None? then e.(spawnQueue := e.spawnQueue + [gid])
    else
      var at := delay.value;
      var earlier := if at in e.delaySpawnQueue then e.delaySpawnQueue[at] else [];
      e.(delaySpawnQueue := e.delaySpawnQueue[at := earlier + [gid]])
  }

  /** Queueing appends the id to exactly one queue and leaves the other queues and times as they were. */
  lemma QueuedAppends(e: Ephemeral, gid: GroupId, delay: Option<Time>)
    ensures var r := Queued(e, gid, delay);
      && (delay.None? ==> r.spawnQueue == e.spawnQueue + [gid] && r.delaySpawnQueue == e.delaySpawnQueue)
      && (delay.Some? ==>
            && r.spawnQueue == e.spawnQueue
            && delay.value in r.delaySpawnQueue
            && r.delaySpawnQueue[delay.value] == (if delay.value in e.delaySpawnQueue then e.delaySpawnQueue[delay.value] else []) + [gid]
            && forall t :: t != delay.value ==>
                 (t in r.delaySpawnQueue <==> t in e.delaySpawnQueue)
                 && (t in e.delaySpawnQueue ==> r.delaySpawnQueue[t] == e.delaySpawnQueue[t]))
      && r.(spawnQueue := e.spawnQueue, delaySpawnQueue := e.delaySpawnQueue) == e
  {
  }

  // ---------------------------------------------------------------------
  // The database object
  // ---------------------------------------------------------------------

  class Db {
    var persisted: Persisted
    var ephemeral: Ephemeral

    function State(): DbState
      reads this
    {
      DbState(persisted, ephemeral)
    }

    /** A database made of a loaded or empty persisted part and a fresh ephemeral part. */
    constructor (p: Persisted, e: Ephemeral)
      ensures persisted == p && ephemeral == e
    {
      persisted := p;
      ephemeral := e;
    }

    /** `mark_group`: the old mark is removed even when the group is then not found. */
    method MarkGroup(gid: GroupId) returns (r: Result<(), string>)
      requires Markable(persisted, gid)
      modifies this
      ensures persisted == old(persisted)
      ensures ephemeral == Marked(old(persisted), old(ephemeral), gid)
      ensures r == if gid in persisted.groups then Ok(()) else Err("no such group")
    {
      if gid in ephemeral.groupMarks {
        var id := ephemeral.groupMarks[gid];
        ephemeral := ephemeral.(groupMarks := ephemeral.groupMarks - {gid});
        ephemeral := ephemeral.(deletedMarks := ephemeral.deletedMarks + [id]);
      }
      if gid !in persisted.groups {
        return Err("no such group");
      }
      var group := persisted.groups[gid];
      if !group.origin.Objective? {
        var id := ephemeral.nextMark;
        ephemeral := ephemeral.(nextMark := id + 1);
        ephemeral := ephemeral.(groupMarks := ephemeral.groupMarks[gid := id]);
      }
      r := Ok(());
    }

    /**
      `add_group`. A missing template, a failed layout or a position on
      water fails before any id is drawn and changes nothing. Then the
      group id is drawn and the unit loop runs; a unit type without a
      classification fails it after the earlier units were stored (their
      group is not). Otherwise the group joins its categories, the group
      map, the name index and its side's set, the flag is set and the
      group is marked.
    */
    method AddGroup(miz: Miz, side: Side, loc: SpawnLoc, templateName: string, origin: DeployKind,
                    layout: Layout, surface: Vector2 -> Surface, height: Vector2 -> real,
                    gids: Ids.IdAllocator, uids: Ids.IdAllocator)
      returns (r: Result<GroupId, string>)
      requires gids != uids && gids.Valid() && uids.Valid()
      requires OnePositionPerUnit(layout)
      requires KnownPlayer(persisted, origin)
      modifies this, gids, uids
      ensures gids.Valid() && uids.Valid()
      ensures var pre := Prepare(miz, side, loc, templateName, layout, surface);
        pre.Err? ==> r == Err(pre.error) && State() == old(State()) && gids.next == old(gids.next) && uids.next == old(uids.next)
      ensures var pre := Prepare(miz, side, loc, templateName, layout, surface);
        pre.Ok? ==>
          var b := Batch(Decimal.Suffixed(templateName, old(gids.next)), old(gids.next), side, pre.value.0.units,
                         pre.value.1, SpawnHeading(loc), old(ephemeral.classification));
          && WellFormed(b)
          && gids.next == Ids.Bump(old(gids.next))
          && Added(old(State()), b, height, templateName, pre.value.0.kind, origin, old(uids.next), r, State(), uids.next)
    {
      if (side, templateName) !in miz.templates {
        return Err("no such template");
      }
      var t := miz.templates[(side, templateName)];
      var positions := ComputePositions(loc, TemplatePositions(t.units), layout);
      if positions.Err? {
        return Err(positions.error);
      }
      var dry := CheckWater(surface, positions.value);
      if dry.Err? {
        return Err("you can't spawn units in water");
      }
      r := AddAt(t, positions.value, side, SpawnHeading(loc), templateName, origin, height, gids, uids);
    }

    /** `add_group` once the positions passed the water check. */
    method AddAt(t: Template, positions: seq<Vector2>, side: Side, heading: real, templateName: string,
                 origin: DeployKind, height: Vector2 -> real, gids: Ids.IdAllocator, uids: Ids.IdAllocator)
      returns (r: Result<GroupId, string>)
      requires gids != uids && gids.Valid() && uids.Valid()
      requires |positions| == |t.units|
      requires KnownPlayer(persisted, origin)
      modifies this, gids, uids
      ensures gids.Valid() && uids.Valid()
      ensures gids.next == Ids.Bump(old(gids.next))
      ensures Added(old(State()), Batch(Decimal.Suffixed(templateName, old(gids.next)), old(gids.next), side, t.units,
                                         positions, heading, old(ephemeral.classification)),
                    height, templateName, t.kind, origin, old(uids.next), r, State(), uids.next)
    {
      ghost var first := uids.next;
      var gid := gids.New();
      var groupName := Decimal.Suffixed(templateName, gid);
      var b := Batch(groupName, gid, side, t.units, positions, heading, ephemeral.classification);
      var ok, ids, tags := AddUnits(b, height, uids);
      if !ok {
        return Err("unit type not classified");
      }
      var spawned := SpawnedGroup(gid, groupName, templateName, side, t.kind, origin, ids, tags);
      InsertGroup(spawned);
      ephemeral := ephemeral.(dirty := true);
      AddedMarkable(old(persisted), b, height, templateName, t.kind, origin, first);
      var marked := MarkGroup(gid);
      // the group was just stored, so marking it cannot fail
      assert marked == Ok(());
      r := Ok(gid);
    }

    /** The insertions at the end of `add_group`: categories, group map, name index, side set. */
    method InsertGroup(spawned: SpawnedGroup)
      requires KnownPlayer(persisted, spawned.origin)
      modifies this
      ensures persisted == WithGroup(old(persisted), spawned)
      ensures ephemeral == old(ephemeral)
    {
      var gid := spawned.id;
      match spawned.origin {
        case Objective =>
        case Crate(_, player) =>
          persisted := persisted.(crates := persisted.crates + {gid});
          var pl := persisted.players[player];
          persisted := persisted.(players := persisted.players[player := pl.(crates := pl.crates + {gid})]);
        case Deployed(_, jtac, ewr) =>
          persisted := persisted.(deployed := persisted.deployed + {gid});
          if jtac {
            persisted := persisted.(jtacs := persisted.jtacs + {gid});
          }
          if ewr {
            persisted := persisted.(ewrs := persisted.ewrs + {gid});
          }
        case Troop(_, jtac) =>
          persisted := persisted.(troops := persisted.troops + {gid});
          if jtac {
            persisted := persisted.(jtacs := persisted.jtacs + {gid});
          }
      }
      persisted := persisted.(groups := persisted.groups[gid := spawned]);
      persisted := persisted.(groupsByName := persisted.groupsByName[spawned.name := gid]);
      persisted := persisted.(groupsBySide := persisted.groupsBySide[spawned.side := SideSet(persisted.groupsBySide, spawned.side) + {gid}]);
    }

    /**
      The unit loop of `add_group`: per template unit a unit id is drawn,
      then the type's classification is looked up; the loop stops at the
      first unit type that has none.
    */
    method AddUnits(b: Batch, height: Vector2 -> real, uids: Ids.IdAllocator)
      returns (ok: bool, ids: set<UnitId>, tags: UnitTags)
      requires WellFormed(b) && uids.Valid()
      requires b.classification == ephemeral.classification
      modifies this, uids
      ensures uids.Valid()
      ensures var k := FirstUnclassified(b.classification, b.units);
        && k <= |b.units|
        && (ok <==> k == |b.units|)
        && uids.next == Ids.Nth(old(uids.next), if ok then k else k + 1)
        && persisted == WithUnits(old(persisted), b, height, old(uids.next), k)
        && (ok ==> ids == Ids.Drawn(old(uids.next), k) && tags == BatchTags(b, k))
      ensures ephemeral == old(ephemeral)
    {
      ghost var first := uids.next;
      ids := {};
      tags := {};
      var i := 0;
      while i < |b.units|
        invariant 0 <= i <= |b.units|
        invariant Classified(b.classification, b.units, i)
        invariant uids.Valid() && uids.next == Ids.Nth(first, i)
        invariant ids == Ids.Drawn(first, i) && tags == BatchTags(b, i)
        invariant persisted == WithUnits(old(persisted), b, height, first, i)
        invariant ephemeral == old(ephemeral)
      {
        Ids.NthStep(first, i);
        var uid := uids.New();
        var tu := b.units[i];
        var unitName := Decimal.Suffixed(b.groupName, uid);
        if tu.typ !in ephemeral.classification {
          FirstUnclassifiedAt(b.classification, b.units, i);
          return false, ids, tags;
        }
        ClassifiedStep(b.classification, b.units, i);
        var unitTags := ephemeral.classification[tu.typ];
        tags := tags + unitTags;
        AddUnitStep(old(persisted), b, height, first, i, uid, BatchUnit(b, height, i, uid));
        ids := ids + {uid};
        StoreUnit(old(persisted), b, height, first, i, uid, unitName, unitTags);
        i := i + 1;
      }
      FirstUnclassifiedAt(b.classification, b.units, i);
      ok := true;
    }

    /**
      The rest of one turn of `add_group`'s unit loop: the unit is built
      from its template and position, then goes into the unit map and the
      unit name index.
    */
    method StoreUnit(ghost p0: Persisted, b: Batch, height: Vector2 -> real, ghost first: nat, i: nat,
                     uid: UnitId, unitName: string, unitTags: UnitTags)
      requires WellFormed(b) && i < |b.units| && uid == Ids.Nth(first, i)
      requires unitName == Decimal.Suffixed(b.groupName, uid) && unitTags == TagsOf(b.classification, b.units[i].typ)
      requires persisted == WithUnits(p0, b, height, first, i)
      modifies this
      ensures persisted == WithUnits(p0, b, height, first, i + 1)
      ensures ephemeral == old(ephemeral)
    {
      var tu := b.units[i];
      var pos := b.positions[i];
      var position := SpawnPosition(pos, height);
      var su := SpawnedUnit(unitName, uid, b.gid, b.side, tu.typ, unitTags, tu.name,
                            pos, b.heading, position, pos, b.heading, position, false);
      AddUnitStep(p0, b, height, first, i, uid, su);
      persisted := persisted.(units := persisted.units[uid := su]);
      persisted := persisted.(unitsByName := persisted.unitsByName[su.name := uid]);
    }

    /**
      `delete_group`. An unknown id is an error and changes nothing.
      Otherwise the group leaves every map, index and category set it
      joined, its mark is deleted, each member unit is dropped (the set is
      walked in ascending id order), the flag is set and the despawn
      requests are queued under the group id.
    */
    method DeleteGroup(gid: GroupId) returns (r: Result<(), string>)
      requires gid in persisted.groups ==> KnownPlayer(persisted, persisted.groups[gid].origin)
      modifies this
      ensures gid !in old(persisted.groups) ==> r == Err("no such group") && State() == old(State())
      ensures gid in old(persisted.groups) ==> r == Ok(()) && State() == Deleted(old(State()), gid)
    {
      if gid !in persisted.groups {
        return Err("no such group");
      }
      ghost var s0 := State();
      var group := persisted.groups[gid];
      RemoveGroupEntries(gid, group);
      if gid in ephemeral.groupMarks {
        var mark := ephemeral.groupMarks[gid];
        ephemeral := ephemeral.(groupMarks := ephemeral.groupMarks - {gid});
        ephemeral := ephemeral.(deletedMarks := ephemeral.deletedMarks + [mark]);
      }
      assert State() == DbState(WithoutGroup(s0.p, gid, group), Unmark(s0.e, gid));
      ghost var d := DropUnits(State(), Ids.Ascending(group.units));
      var names := DropMembers(Ids.Ascending(group.units));
      assert State() == d.0 && names == d.1;
      ephemeral := ephemeral.(dirty := true);
      if group.kind.None? {
        // a static object: one request per removed unit
        PushStaticDespawns(gid, names);
      } else {
        ephemeral := ephemeral.(despawnQueue := ephemeral.despawnQueue + [(gid, DespawnGroup(group.name))]);
      }
      assert ephemeral == d.0.e.(dirty := true, despawnQueue := d.0.e.despawnQueue + Despawns(gid, group, names));
      assert persisted == d.0.p;
      assert State() == Purged(DbState(WithoutGroup(s0.p, gid, group), Unmark(s0.e, gid)), gid, group);
      r := Ok(());
    }

    /** The removals at the start of `delete_group`: group map, name index, side set, categories. */
    method RemoveGroupEntries(gid: GroupId, group: SpawnedGroup)
      requires KnownPlayer(persisted, group.origin)
      modifies this
      ensures persisted == WithoutGroup(old(persisted), gid, group)
      ensures ephemeral == old(ephemeral)
    {
      persisted := persisted.(groups := persisted.groups - {gid});
      persisted := persisted.(groupsByName := persisted.groupsByName - {group.name});
      if group.side in persisted.groupsBySide {
        persisted := persisted.(groupsBySide := persisted.groupsBySide[group.side := persisted.groupsBySide[group.side] - {gid}]);
      }
      match group.origin {
        case Objective =>
        case Crate(_, player) =>
          persisted := persisted.(crates := persisted.crates - {gid});
          var pl := persisted.players[player];
          persisted := persisted.(players := persisted.players[player := pl.(crates := pl.crates - {gid})]);
        case Deployed(_, jtac, ewr) =>
          persisted := persisted.(deployed := persisted.deployed - {gid});
          if jtac {
            persisted := persisted.(jtacs := persisted.jtacs - {gid});
          }
          if ewr {
            persisted := persisted.(ewrs := persisted.ewrs - {gid});
          }
        case Troop(_, jtac) =>
          persisted := persisted.(troops := persisted.troops - {gid});
          if jtac {
            persisted := persisted.(jtacs := persisted.jtacs - {gid});
          }
      }
    }

    /** The unit loop of `delete_group`, over the members in the given order. */
    method DropMembers(order: seq<UnitId>) returns (names: seq<string>)
      modifies this
      ensures State() == DropUnits(old(State()), order).0
      ensures names == DropUnits(old(State()), order).1
    {
      names := [];
      var i := 0;
      while i < |order|
        invariant 0 <= i <= |order|
        invariant State() == DropUnits(old(State()), order[..i]).0
        invariant names == DropUnits(old(State()), order[..i]).1
      {
        var uid := order[i];
        assert order[..i + 1][..i] == order[..i];
        ephemeral := ephemeral.(closeToEnemies := ephemeral.closeToEnemies - {uid});
        ephemeral := ephemeral.(onWalkabout := ephemeral.onWalkabout - {uid});
        if uid in ephemeral.objectIdByUid {
          var id := ephemeral.objectIdByUid[uid];
          ephemeral := ephemeral.(objectIdByUid := ephemeral.objectIdByUid - {uid});
          ephemeral := ephemeral.(uidByObjectId := ephemeral.uidByObjectId - {id});
        }
        if uid in persisted.units {
          var unit := persisted.units[uid];
          persisted := persisted.(units := persisted.units - {uid});
          persisted := persisted.(unitsByName := persisted.unitsByName - {unit.name});
          names := names + [unit.name];
        }
        i := i + 1;
      }
      assert order[..i] == order;
    }

    /** `push_despawn` of one `Despawn::Static` per name, in order. */
    method PushStaticDespawns(gid: GroupId, names: seq<string>)
      modifies this
      ensures persisted == old(persisted)
      ensures ephemeral == old(ephemeral).(despawnQueue := old(ephemeral).despawnQueue + StaticDespawns(gid, names))
    {
      var i := 0;
      while i < |names|
        invariant 0 <= i <= |names|
        invariant persisted == old(persisted)
        invariant ephemeral == old(ephemeral).(despawnQueue := old(ephemeral).despawnQueue + StaticDespawns(gid, names[..i]))
      {
        assert StaticDespawns(gid, names[..i + 1]) == StaticDespawns(gid, names[..i]) + [(gid, DespawnStatic(names[i]))];
        ephemeral := ephemeral.(despawnQueue := ephemeral.despawnQueue + [(gid, DespawnStatic(names[i]))]);
        i := i + 1;
      }
      assert names[..i] == names;
    }
    /** `group_health`: the members alive and all members; an unknown group or member is an error. */
    method GroupHealth(gid: GroupId) returns (r: Result<(nat, nat), string>)
      ensures r == Health(persisted, gid)
    {
      if gid !in persisted.groups {
        return Err("no such group");
      }
      var group := persisted.groups[gid];
      var order := Ids.Ascending(group.units);
      AscendingListed(group.units);
      var alive := 0;
      var i := 0;
      while i < |order|
        invariant 0 <= i <= |order|
        invariant alive == Alive(persisted.units, order[..i])
        invariant forall j :: 0 <= j < i ==> order[j] in persisted.units
      {
        var uid := order[i];
        assert order[..i + 1][..i] == order[..i];
        if uid !in persisted.units {
          assert uid in Listed(order);
          return Err("no such unit");
        }
        if !persisted.units[uid].dead {
          alive := alive + 1;
        }
        i := i + 1;
      }
      assert order[..i] == order;
      forall u | u in group.units
        ensures u in persisted.units
      {
        assert u in Listed(order);
      }
      r := Ok((alive, |group.units|));
    }

    /**
      `unit_dead`, given the unit id the engine-side bookkeeping found for
      the handle, if any.
    */
    method UnitDead(found: Option<UnitId>) returns (r: Result<(), string>)
      requires found.Some? && found.value in persisted.units ==> Deletable(persisted, persisted.units[found.value].group)
      modifies this
      ensures (State(), r) == UnitDied(old(State()), found)
    {
      if found.None? {
        return Ok(());
      }
      var uid := found.value;
      if uid !in persisted.units {
        // only logged
        return Ok(());
      }
      var unit := persisted.units[uid];
      unit := unit.(dead := true, pos := unit.spawnPos, heading := unit.spawnHeading, position := unit.spawnPosition);
      persisted := persisted.(units := persisted.units[uid := unit]);
      ephemeral := ephemeral.(dirty := true);
      var gid := unit.group;
      if gid in persisted.deployed || gid in persisted.troops || gid in persisted.crates {
        var h := GroupHealth(gid);
        if h.Err? {
          return Err(h.error);
        }
        if h.value.0 == 0 {
          var d := DeleteGroup(gid);
          // the health was found, so the group is there to delete
          assert d == Ok(());
        }
      }
      r := Ok(());
    }

    /** The id-mapping part of `unit_born`, given the new instance's handle and name. */
    method UnitBorn(oid: ObjectId, name: string)
      modifies this
      ensures persisted == old(persisted)
      ensures ephemeral == Born(old(persisted), old(ephemeral), oid, name)
    {
      if name in persisted.unitsByName {
        var uid := persisted.unitsByName[name];
        ephemeral := ephemeral.(uidByObjectId := ephemeral.uidByObjectId[oid := uid]);
        ephemeral := ephemeral.(objectIdByUid := ephemeral.objectIdByUid[uid := oid]);
        ephemeral := ephemeral.(closeToEnemies := ephemeral.closeToEnemies + {uid});
        ephemeral := ephemeral.(onWalkabout := ephemeral.onWalkabout + {uid});
      }
    }

    /**
      `update_unit_positions`. The engine is the three parameters: whether
      a handle's instance is still there, its pose, and the azimuth of a
      heading vector.
    */
    method UpdateUnitPositions(units: Option<seq<UnitId>>, live: ObjectId -> bool,
                               pose: ObjectId -> Position3, azimuth: Vec3 -> real)
      returns (r: Result<seq<ObjectId>, string>)
      requires forall u :: u in persisted.units ==> Markable(persisted, persisted.units[u].group)
      modifies this
      ensures (State(), r) == PositionsUpdated(old(State()), units, live, pose, azimuth)
    {
      ghost var s0 := State();
      var order := if units.Some? then units.value else Ids.Ascending(ephemeral.ableToMove);
      var moved, dead, failed := SweepUnits(order, live, pose, azimuth);
      if failed.Some? {
        return Err(failed.value);
      }
      SweptFrame(s0, order, live, pose, azimuth);
      forall gid | gid in moved
        ensures Markable(persisted, gid)
      {
        var k :| 0 <= k < |moved| && moved[k] == gid;
        var u :| u in s0.p.units && s0.p.units[u].group == gid;
        assert Markable(s0.p, gid);
      }
      var marked := MarkGroups(moved);
      r := if marked.Err? then Err(marked.error) else Ok(dead);
    }

    /** The first loop of `update_unit_positions`: the walk over the ids, in order. */
    method SweepUnits(order: seq<UnitId>, live: ObjectId -> bool, pose: ObjectId -> Position3, azimuth: Vec3 -> real)
      returns (moved: seq<GroupId>, dead: seq<ObjectId>, failed: Option<string>)
      modifies this
      ensures Swept(old(State()), order, live, pose, azimuth) == Sweep(State(), moved, dead, failed)
    {
      ghost var s0 := State();
      moved := [];
      dead := [];
      var i := 0;
      while i < |order|
        invariant 0 <= i <= |order|
        invariant Swept(s0, order[..i], live, pose, azimuth) == Sweep(State(), moved, dead, None)
      {
        var uid := order[i];
        assert order[..i + 1][..i] == order[..i];
        if uid in ephemeral.objectIdByUid {
          var id := ephemeral.objectIdByUid[uid];
          if !live(id) {
            dead := dead + [id];
          } else {
            if uid !in persisted.units {
              SweptStuck(s0, order, i + 1, live, pose, azimuth);
              return moved, dead, Some("no such unit");
            }
            var su := persisted.units[uid];
            var ps := pose(id);
            if su.position != ps {
              moved := moved + [su.group];
              persisted := persisted.(units := persisted.units[uid := su.(position := ps, pos := Vector2(ps.p.x, ps.p.z), heading := azimuth(ps.x))]);
              ephemeral := ephemeral.(closeToEnemies := ephemeral.closeToEnemies + {uid});
              ephemeral := ephemeral.(onWalkabout := ephemeral.onWalkabout + {uid});
            }
          }
        }
        i := i + 1;
      }
      assert order[..i] == order;
      failed := None;
    }

    /** The second loop of `update_unit_positions`: per moved unit, set the flag and mark its group. */
    method MarkGroups(moved: seq<GroupId>) returns (r: Result<(), string>)
      requires forall gid :: gid in moved ==> Markable(persisted, gid)
      modifies this
      ensures persisted == old(persisted)
      ensures (ephemeral, r) == MarkMoved(old(persisted), old(ephemeral), moved)
    {
      var j := 0;
      while j < |moved|
        invariant 0 <= j <= |moved|
        invariant persisted == old(persisted)
        invariant MarkMoved(persisted, old(ephemeral), moved[..j]) == (ephemeral, Ok(()))
      {
        var gid := moved[j];
        assert moved[..j + 1][..j] == moved[..j];
        ephemeral := ephemeral.(dirty := true);
        var marked := MarkGroup(gid);
        if marked.Err? {
          MarkMovedStuck(persisted, old(ephemeral), moved, j + 1);
          return marked;
        }
        j := j + 1;
      }
      assert moved[..j] == moved;
      r := Ok(());
    }

    /**
      `add_and_queue_group`: `add_group`, ending in state `added`; on
      success the new id is queued to spawn now, or at the given time.
    */
    method AddAndQueueGroup(miz: Miz, side: Side, loc: SpawnLoc, templateName: string, origin: DeployKind,
                            layout: Layout, surface: Vector2 -> Surface, height: Vector2 -> real,
                            gids: Ids.IdAllocator, uids: Ids.IdAllocator, delay: Option<Time>)
      returns (r: Result<GroupId, string>, ghost added: DbState)
      requires gids != uids && gids.Valid() && uids.Valid()
      requires OnePositionPerUnit(layout)
      requires KnownPlayer(persisted, origin)
      modifies this, gids, uids
      ensures gids.Valid() && uids.Valid()
      ensures var pre := Prepare(miz, side, loc, templateName, layout, surface);
        pre.Err? ==> r == Err(pre.error) && added == old(State()) && gids.next == old(gids.next) && uids.next == old(uids.next)
      ensures var pre := Prepare(miz, side, loc, templateName, layout, surface);
        pre.Ok? ==>
          var b := Batch(Decimal.Suffixed(templateName, old(gids.next)), old(gids.next), side, pre.value.0.units,
                         pre.value.1, SpawnHeading(loc), old(ephemeral.classification));
          && gids.next == Ids.Bump(old(gids.next))
          && Added(old(State()), b, height, templateName, pre.value.0.kind, origin, old(uids.next), r, added, uids.next)
      ensures State() == if r.Ok? then DbState(added.p, Queued(added.e, r.value, delay)) else added
    {
      r := AddGroup(miz, side, loc, templateName, origin, layout, surface, height, gids, uids);
      added := State();
      if r.Ok? {
        var gid := r.value;
        match delay {
          case None =>
            ephemeral := ephemeral.(spawnQueue := ephemeral.spawnQueue + [gid]);
          case Some(at) =>
            var earlier := if at in ephemeral.delaySpawnQueue then ephemeral.delaySpawnQueue[at] else [];
            ephemeral := ephemeral.(delaySpawnQueue := ephemeral.delaySpawnQueue[at := earlier + [gid]]);
        }
      }
    }
  }
}
