/**
  The older, flat entity database (bflib/src/db.rs): spawned groups and
  units by id and by name, the dirty flag behind snapshots, and spawning a
  mission template as a new group or respawning a stored one.

  The copy-on-write maps and sets are values here. The mission file is a
  `Mission` value: its group templates keyed by kind, side and name, and its
  trigger zones by name. Whether the engine accepts a spawn is a parameter.
*/
module FlatDb {
  import opened Wrappers
  import Decimal
  import Ids
  import opened Vectors
  import opened Coalition

  type GroupId = nat
  type UnitId = nat

  /** The kinds of mission group templates (dcso3's mission-file module). */
  datatype GroupKind = Any | Plane | Helicopter | Vehicle | Ship | Static

  datatype SpawnedUnit = SpawnedUnit(
    name: string,
    id: UnitId,
    group: GroupId,
    templateName: string,
    pos: Vector2,
    dead: bool)

  datatype SpawnedGroup = SpawnedGroup(
    id: GroupId,
    name: string,
    templateName: string,
    side: Side,
    kind: GroupKind,
    units: set<UnitId>)

  datatype SpawnLoc = AtPos(pos: Vector2) | AtTrigger(name: string, offset: Vector2)

  /** The parts of a mission group template the database reads and writes. */
  datatype TemplateUnit = TemplateUnit(name: string, pos: Vector2)
  datatype TemplateGroup = TemplateGroup(name: string, pos: Vector2, lateActivation: bool, units: seq<TemplateUnit>)

  datatype Mission = Mission(
    templates: map<(GroupKind, Side, string), TemplateGroup>,
    zones: map<string, Vector2>)

  /** The five maps of `Db` (the dirty flag lives in the `Db` object). */
  datatype Store = Store(
    groupsById: map<GroupId, SpawnedGroup>,
    unitsById: map<UnitId, SpawnedUnit>,
    groupsByName: map<string, GroupId>,
    unitsByName: map<string, UnitId>,
    groupsBySide: map<Side, set<GroupId>>)

  const EMPTY_STORE: Store := Store(map[], map[], map[], map[], map[])

  // ---------------------------------------------------------------------
  // Lookups
  // ---------------------------------------------------------------------

  /** `get_group_by_name`: the name index, then the id map. */
  function GroupByName(s: Store, name: string): (r: Option<SpawnedGroup>)
    ensures r.Some? <==> name in s.groupsByName && s.groupsByName[name] in s.groupsById
    ensures r.Some? ==> r.value in s.groupsById.Values
  {
    if name in s.groupsByName && s.groupsByName[name] in s.groupsById then
      Some(s.groupsById[s.groupsByName[name]])
    else None
  }

  /** `get_unit_by_name` */
  function UnitByName(s: Store, name: string): (r: Option<SpawnedUnit>)
    ensures r.Some? <==> name in s.unitsByName && s.unitsByName[name] in s.unitsById
    ensures r.Some? ==> r.value in s.unitsById.Values
  {
    if name in s.unitsByName && s.unitsByName[name] in s.unitsById then
      Some(s.unitsById[s.unitsByName[name]])
    else None
  }

  // ---------------------------------------------------------------------
  // The store invariant
  // ---------------------------------------------------------------------

  /** Ids agree with their keys and lie below the allocators' counters. */
  ghost predicate IdsBelow(s: Store, gidFloor: nat, uidFloor: nat) {
    && (forall g :: g in s.groupsById ==> s.groupsById[g].id == g && g < gidFloor)
    && (forall u :: u in s.unitsById ==> s.unitsById[u].id == u && u < uidFloor)
  }

  /** Every unit belongs to a stored group that lists it. */
  ghost predicate UnitsGrouped(s: Store) {
    forall u :: u in s.unitsById ==>
      s.unitsById[u].group in s.groupsById && u in s.groupsById[s.unitsById[u].group].units
  }

  /** Every listed member of a group is stored, as a unit of that group. */
  ghost predicate MembersStored(s: Store) {
    forall g, u :: g in s.groupsById && u in s.groupsById[g].units ==>
      u in s.unitsById && s.unitsById[u].group == g
  }

  ghost predicate Membership(s: Store) {
    UnitsGrouped(s) && MembersStored(s)
  }

  /** Names follow `"{template}-{gid}"` and `"{group name}-{uid}"`. */
  ghost predicate Naming(s: Store) {
    && (forall g :: g in s.groupsById ==>
          s.groupsById[g].name == Decimal.Suffixed(s.groupsById[g].templateName, g))
    && (forall u :: u in s.unitsById && s.unitsById[u].group in s.groupsById ==>
          s.unitsById[u].name == Decimal.Suffixed(s.groupsById[s.unitsById[u].group].name, u))
  }

  /** The name indices are exactly the names of the stored entities. */
  ghost predicate NameIndices(s: Store) {
    && (forall n :: n in s.groupsByName ==>
          s.groupsByName[n] in s.groupsById && s.groupsById[s.groupsByName[n]].name == n)
    && (forall g :: g in s.groupsById ==> s.groupsById[g].name in s.groupsByName)
    && (forall n :: n in s.unitsByName ==>
          s.unitsByName[n] in s.unitsById && s.unitsById[s.unitsByName[n]].name == n)
    && (forall u :: u in s.unitsById ==> s.unitsById[u].name in s.unitsByName)
  }

  /** The side index names only stored groups of that side. */
  ghost predicate SideIndex(s: Store) {
    forall side, g :: side in s.groupsBySide && g in s.groupsBySide[side] ==>
      g in s.groupsById && s.groupsById[g].side == side
  }

  ghost predicate StoreValid(s: Store, gidFloor: nat, uidFloor: nat) {
    IdsBelow(s, gidFloor, uidFloor) && Membership(s) && Naming(s) && NameIndices(s) && SideIndex(s)
  }

  /** In a valid store, every group and unit is found under its own name. */
  lemma NamesFindEntities(s: Store, gidFloor: nat, uidFloor: nat)
    requires StoreValid(s, gidFloor, uidFloor)
    ensures forall g :: g in s.groupsById ==> GroupByName(s, s.groupsById[g].name) == Some(s.groupsById[g])
    ensures forall u :: u in s.unitsById ==> UnitByName(s, s.unitsById[u].name) == Some(s.unitsById[u])
  {
    forall g | g in s.groupsById
      ensures GroupByName(s, s.groupsById[g].name) == Some(s.groupsById[g])
    {
      var n := s.groupsById[g].name;
      var h := s.groupsByName[n];
      if h != g {
        Decimal.SuffixedInjective(s.groupsById[g].templateName, g, s.groupsById[h].templateName, h);
      }
    }
    forall u | u in s.unitsById
      ensures UnitByName(s, s.unitsById[u].name) == Some(s.unitsById[u])
    {
      var n := s.unitsById[u].name;
      var v := s.unitsByName[n];
      if v != u {
        Decimal.SuffixedInjective(s.groupsById[s.unitsById[u].group].name, u,
                                  s.groupsById[s.unitsById[v].group].name, v);
      }
    }
  }

  // ---------------------------------------------------------------------
  // unit_dead
  // ---------------------------------------------------------------------

  /** The units map after `unit_dead(id, dead)`. */
  function MarkDead(units: map<UnitId, SpawnedUnit>, id: UnitId, dead: bool): (r: map<UnitId, SpawnedUnit>)
    ensures r.Keys == units.Keys
    ensures id in units ==> r[id] == units[id].(dead := dead)
    ensures forall u :: u in units && u != id ==> r[u] == units[u]
  {
    if id in units then units[id := units[id].(dead := dead)] else units
  }

  /** `r` differs from `s` at most in the dead flags of units. */
  ghost predicate SameButDead(s: Store, r: Store) {
    && r.groupsById == s.groupsById && r.groupsByName == s.groupsByName
    && r.unitsByName == s.unitsByName && r.groupsBySide == s.groupsBySide
    && r.unitsById.Keys == s.unitsById.Keys
    && forall u :: u in r.unitsById ==> r.unitsById[u] == s.unitsById[u].(dead := r.unitsById[u].dead)
  }

  lemma SameButDeadValid(s: Store, r: Store, gidFloor: nat, uidFloor: nat)
    requires StoreValid(s, gidFloor, uidFloor) && SameButDead(s, r)
    ensures StoreValid(r, gidFloor, uidFloor)
  {
    SameButDeadIds(s, r, gidFloor, uidFloor);
    SameButDeadMembership(s, r);
    SameButDeadNaming(s, r);
    SameButDeadNameIndices(s, r);
    SameButDeadSideIndex(s, r);
  }

  lemma SameButDeadIds(s: Store, r: Store, gidFloor: nat, uidFloor: nat)
    requires IdsBelow(s, gidFloor, uidFloor) && SameButDead(s, r)
    ensures IdsBelow(r, gidFloor, uidFloor)
  {
  }

  lemma SameButDeadMembership(s: Store, r: Store)
    requires Membership(s) && SameButDead(s, r)
    ensures Membership(r)
  {
  }

  lemma SameButDeadNaming(s: Store, r: Store)
    requires Naming(s) && SameButDead(s, r)
    ensures Naming(r)
  {
  }

  lemma SameButDeadSideIndex(s: Store, r: Store)
    requires SideIndex(s) && SameButDead(s, r)
    ensures SideIndex(r)
  {
  }

  lemma SameButDeadNameIndices(s: Store, r: Store)
    requires NameIndices(s) && SameButDead(s, r)
    ensures NameIndices(r)
  {
  }

  /** Marking a unit dead touches only its flag, so the store invariant survives. */
  lemma MarkDeadKeepsValid(s: Store, id: UnitId, dead: bool, gidFloor: nat, uidFloor: nat)
    requires StoreValid(s, gidFloor, uidFloor)
    ensures StoreValid(s.(unitsById := MarkDead(s.unitsById, id, dead)), gidFloor, uidFloor)
  {
    var r := s.(unitsById := MarkDead(s.unitsById, id, dead));
    forall u | u in r.unitsById
      ensures r.unitsById[u] == s.unitsById[u].(dead := r.unitsById[u].dead)
    {
      if u != id {
        assert r.unitsById[u] == s.unitsById[u];
      }
    }
    SameButDeadValid(s, r, gidFloor, uidFloor);
  }

  // ---------------------------------------------------------------------
  // spawn_template_as_new
  // ---------------------------------------------------------------------

  /**
    Where `spawn_template_as_new` puts a template unit, AS WRITTEN
    (bflib/src/db.rs:346-347): the target plus the group origin minus the
    unit's position, which mirrors the formation through the target.
  */
  function PlaceUnitAsWritten(target: Vector2, groupPos: Vector2, unitPos: Vector2): Vector2 {
    Add(target, Sub(groupPos, unitPos))
  }

  /** As written, the offset between two placed units is the template's offset reversed. */
  lemma AsWrittenReversesOffsets(target: Vector2, groupPos: Vector2, u: Vector2, v: Vector2)
    ensures Sub(PlaceUnitAsWritten(target, groupPos, u), PlaceUnitAsWritten(target, groupPos, v)) == Sub(v, u)
  {
  }

  /**
    A unit at offset `d` from its group's origin lands at `target - d` as
    written and at `target + d` once corrected: the two differ for every
    unit not at the origin.
  */
  lemma AsWrittenMirrors(target: Vector2, groupPos: Vector2, d: Vector2)
    ensures PlaceUnitAsWritten(target, groupPos, Add(groupPos, d)) == Sub(target, d)
    ensures PlaceUnit(target, groupPos, Add(groupPos, d)) == Add(target, d)
    ensures d != Vector2(0.0, 0.0) ==>
      PlaceUnitAsWritten(target, groupPos, Add(groupPos, d)) != PlaceUnit(target, groupPos, Add(groupPos, d))
  {
  }

  /**
    The corrected placement: the unit keeps its offset from the group
    origin, relative to the target (as the newer generation's translation
    does, bflib/src/db/group.rs:316-321).
  */
  function PlaceUnit(target: Vector2, groupPos: Vector2, unitPos: Vector2): Vector2 {
    Add(target, Sub(unitPos, groupPos))
  }

  /** A placed unit sits at the same offset from the target as it sat from the template's origin. */
  lemma PlaceUnitOffset(target: Vector2, groupPos: Vector2, unitPos: Vector2)
    ensures Sub(PlaceUnit(target, groupPos, unitPos), target) == Sub(unitPos, groupPos)
  {
  }

  /** Corrected placement keeps the formation: offsets between units are unchanged. */
  lemma PlaceUnitKeepsFormation(target: Vector2, groupPos: Vector2, u: Vector2, v: Vector2)
    ensures Sub(PlaceUnit(target, groupPos, u), PlaceUnit(target, groupPos, v)) == Sub(u, v)
  {
  }

  /**
    The two placements are reflections of each other through the target,
    so either one is recovered from the other: the position the source
    stores is twice the target minus the corrected one.
  */
  lemma PlacementsReflect(target: Vector2, groupPos: Vector2, unitPos: Vector2)
    ensures PlaceUnitAsWritten(target, groupPos, unitPos) == Sub(Add(target, target), PlaceUnit(target, groupPos, unitPos))
    ensures PlaceUnit(target, groupPos, unitPos) == Sub(Add(target, target), PlaceUnitAsWritten(target, groupPos, unitPos))
  {
  }

  /** The spawn point: the given position, or the trigger zone's position plus the offset. */
  function SpawnTarget(m: Mission, loc: SpawnLoc): (r: Result<Vector2, string>)
    ensures loc.AtPos? ==> r == Ok(loc.pos)
    ensures loc.AtTrigger? && loc.name !in m.zones ==> r == Err("no such trigger zone")
    ensures loc.AtTrigger? && loc.name in m.zones ==> r == Ok(Add(m.zones[loc.name], loc.offset))
  {
    match loc
    case AtPos(pos) => Ok(pos)
    case AtTrigger(name, offset) =>
      if name in m.zones then Ok(Add(m.zones[name], offset)) else Err("no such trigger zone")
  }

  /** The record stored for template unit `tu` drawn with unit id `uid`. */
  function NewUnit(groupName: string, gid: GroupId, uid: UnitId, tu: TemplateUnit, target: Vector2, groupPos: Vector2): SpawnedUnit {
    SpawnedUnit(Decimal.Suffixed(groupName, uid), uid, gid, tu.name, PlaceUnit(target, groupPos, tu.pos), false)
  }

  /** The units the loop stores for the first `n` template units, by id. */
  function NewUnits(groupName: string, gid: GroupId, tg: TemplateGroup, first: nat, target: Vector2, n: nat)
    : map<UnitId, SpawnedUnit>
    requires n <= |tg.units|
  {
    if n == 0 then map[]
    else
      var uid := Ids.Nth(first, n - 1);
      NewUnits(groupName, gid, tg, first, target, n - 1)[uid := NewUnit(groupName, gid, uid, tg.units[n - 1], target, tg.pos)]
  }

  /**
    One unit per drawn id, each stored under its own id, in the new group,
    under `"{group name}-{uid}"`, alive.
  */
  lemma {:induction false} NewUnitsShape(groupName: string, gid: GroupId, tg: TemplateGroup, first: nat, target: Vector2, n: nat)
    requires n <= |tg.units|
    ensures NewUnits(groupName, gid, tg, first, target, n).Keys == Ids.Drawn(first, n)
    ensures forall u :: u in NewUnits(groupName, gid, tg, first, target, n) ==>
      var su := NewUnits(groupName, gid, tg, first, target, n)[u];
      su.id == u && su.group == gid && su.name == Decimal.Suffixed(groupName, u) && !su.dead
  {
    NewUnitsKeys(groupName, gid, tg, first, target, n);
    if n > 0 {
      NewUnitsShape(groupName, gid, tg, first, target, n - 1);
      var prev := NewUnits(groupName, gid, tg, first, target, n - 1);
      var uid := Ids.Nth(first, n - 1);
      var su := NewUnit(groupName, gid, uid, tg.units[n - 1], target, tg.pos);
      assert NewUnits(groupName, gid, tg, first, target, n) == prev[uid := su];
      NewUnitsShapeStep(groupName, gid, prev, uid, su);
    }
  }

  /** The unit map gains exactly the drawn ids. */
  lemma {:induction false} NewUnitsKeys(groupName: string, gid: GroupId, tg: TemplateGroup, first: nat, target: Vector2, n: nat)
    requires n <= |tg.units|
    ensures NewUnits(groupName, gid, tg, first, target, n).Keys == Ids.Drawn(first, n)
  {
    if n > 0 {
      NewUnitsKeys(groupName, gid, tg, first, target, n - 1);
      var prev := NewUnits(groupName, gid, tg, first, target, n - 1);
      var uid := Ids.Nth(first, n - 1);
      var su := NewUnit(groupName, gid, uid, tg.units[n - 1], target, tg.pos);
      assert NewUnits(groupName, gid, tg, first, target, n) == prev[uid := su];
      assert Ids.Drawn(first, n) == Ids.Drawn(first, n - 1) + {uid};
      assert prev[uid := su].Keys == prev.Keys + {uid};
    }
  }

  /** Storing one more unit that has the shape `NewUnitsShape` describes keeps the whole map in that shape. */
  lemma NewUnitsShapeStep(groupName: string, gid: GroupId, prev: map<UnitId, SpawnedUnit>, uid: UnitId, su: SpawnedUnit)
    requires forall u :: u in prev ==>
      var s := prev[u];
      s.id == u && s.group == gid && s.name == Decimal.Suffixed(groupName, u) && !s.dead
    requires su.id == uid && su.group == gid && su.name == Decimal.Suffixed(groupName, uid) && !su.dead
    ensures forall u :: u in prev[uid := su] ==>
      var s := prev[uid := su][u];
      s.id == u && s.group == gid && s.name == Decimal.Suffixed(groupName, u) && !s.dead
  {
  }

  /** Below the wrap-around point, template unit `i` is stored under id `first + i`. */
  lemma {:induction false} NewUnitsAt(groupName: string, gid: GroupId, tg: TemplateGroup, first: nat, target: Vector2,
                                      n: nat, i: nat)
    requires n <= |tg.units| && first + n <= Ids.U64_MODULUS && i < n
    ensures first + i in NewUnits(groupName, gid, tg, first, target, n)
    ensures NewUnits(groupName, gid, tg, first, target, n)[first + i]
      == NewUnit(groupName, gid, first + i, tg.units[i], target, tg.pos)
  {
    Ids.NthNoWrap(first, n - 1);
    var prev := NewUnits(groupName, gid, tg, first, target, n - 1);
    var uid := Ids.Nth(first, n - 1);
    var su := NewUnit(groupName, gid, uid, tg.units[n - 1], target, tg.pos);
    assert NewUnits(groupName, gid, tg, first, target, n) == prev[uid := su];
    if i < n - 1 {
      NewUnitsAt(groupName, gid, tg, first, target, n - 1, i);
      KeptUnderUpdate(prev, uid, su, first + i);
    } else {
      assert uid == first + i && tg.units[n - 1] == tg.units[i];
    }
  }

  /** Updating a map at one key leaves every other key's entry in place. */
  lemma KeptUnderUpdate<K, V>(m: map<K, V>, k: K, v: V, x: K)
    requires x in m && x != k
    ensures x in m[k := v] && m[k := v][x] == m[x]
  {
  }

  function EmptyGroup(gid: GroupId, templateName: string, side: Side, kind: GroupKind): SpawnedGroup {
    SpawnedGroup(gid, Decimal.Suffixed(templateName, gid), templateName, side, kind, {})
  }

  /** The store after `spawn_template_as_new` drew group id `gid` and unit ids from `first`. */
  function SpawnStore(s: Store, tg: TemplateGroup, templateName: string, side: Side, kind: GroupKind,
                      gid: GroupId, first: nat, target: Vector2): Store
  {
    var grp := EmptyGroup(gid, templateName, side, kind).(units := Ids.Drawn(first, |tg.units|));
    s.(groupsById := s.groupsById[gid := grp],
       groupsByName := s.groupsByName[grp.name := gid],
       unitsById := s.unitsById + NewUnits(grp.name, gid, tg, first, target, |tg.units|),
       unitsByName := s.unitsByName + Ids.SuffixedNames(grp.name, first, |tg.units|))
  }

  /** The first `n` template units as handed to the engine. */
  function PlacedUnits(tg: TemplateGroup, groupName: string, first: nat, target: Vector2, n: nat): seq<TemplateUnit>
    requires n <= |tg.units|
  {
    if n == 0 then []
    else
      PlacedUnits(tg, groupName, first, target, n - 1)
        + [TemplateUnit(Decimal.Suffixed(groupName, Ids.Nth(first, n - 1)), PlaceUnit(target, tg.pos, tg.units[n - 1].pos))]
  }

  /** The template handed to the engine: renamed, moved, activated, its units renamed and placed. */
  function SpawnRequest(tg: TemplateGroup, groupName: string, first: nat, target: Vector2): TemplateGroup {
    TemplateGroup(groupName, target, false, PlacedUnits(tg, groupName, first, target, |tg.units|))
  }

  /** The request keeps every template unit, in order, renamed after its drawn id and placed at the target. */
  lemma {:induction false} PlacedUnitsAt(tg: TemplateGroup, groupName: string, first: nat, target: Vector2, n: nat)
    requires n <= |tg.units|
    ensures |PlacedUnits(tg, groupName, first, target, n)| == n
    ensures forall i :: 0 <= i < n ==>
      PlacedUnits(tg, groupName, first, target, n)[i] == TemplateUnit(Decimal.Suffixed(groupName, Ids.Nth(first, i)), PlaceUnit(target, tg.pos, tg.units[i].pos))
  {
    if n > 0 {
      PlacedUnitsAt(tg, groupName, first, target, n - 1);
    }
  }

  /**
    A spawn into a valid store, with group id and unit ids drawn from
    counters above every stored id, yields a valid store again. The side
    index is left as it was.
  */
  lemma SpawnKeepsValid(s: Store, tg: TemplateGroup, templateName: string, side: Side, kind: GroupKind,
                        gid: GroupId, first: nat, target: Vector2)
    requires StoreValid(s, gid, first)
    requires first + |tg.units| <= Ids.U64_MODULUS
    ensures StoreValid(SpawnStore(s, tg, templateName, side, kind, gid, first, target), gid + 1, first + |tg.units|)
    ensures SpawnStore(s, tg, templateName, side, kind, gid, first, target).groupsBySide == s.groupsBySide
  {
    SpawnIds(s, tg, templateName, side, kind, gid, first, target);
    SpawnMembership(s, tg, templateName, side, kind, gid, first, target);
    SpawnNaming(s, tg, templateName, side, kind, gid, first, target);
    SpawnNameIndices(s, tg, templateName, side, kind, gid, first, target);
    SpawnSideIndex(s, tg, templateName, side, kind, gid, first, target);
  }

  lemma SpawnIds(s: Store, tg: TemplateGroup, templateName: string, side: Side, kind: GroupKind,
                 gid: GroupId, first: nat, target: Vector2)
    requires IdsBelow(s, gid, first)
    requires first + |tg.units| <= Ids.U64_MODULUS
    ensures IdsBelow(SpawnStore(s, tg, templateName, side, kind, gid, first, target), gid + 1, first + |tg.units|)
  {
    var n := |tg.units|;
    var grp := EmptyGroup(gid, templateName, side, kind).(units := Ids.Drawn(first, n));
    var nu := NewUnits(grp.name, gid, tg, first, target, n);
    var r := SpawnStore(s, tg, templateName, side, kind, gid, first, target);
    assert r.groupsById == s.groupsById[gid := grp] && r.unitsById == s.unitsById + nu;
    NewUnitsShape(grp.name, gid, tg, first, target, n);
    Ids.DrawnRange(first, n);
    forall g | g in r.groupsById ensures r.groupsById[g].id == g && g < gid + 1 {
      if g != gid {
        assert g in s.groupsById;
      }
    }
    forall u | u in r.unitsById ensures r.unitsById[u].id == u && u < first + n {
      if u in nu {
        assert u in Ids.Drawn(first, n);
      } else {
        assert u in s.unitsById;
      }
    }
  }

  lemma SpawnMembership(s: Store, tg: TemplateGroup, templateName: string, side: Side, kind: GroupKind,
                        gid: GroupId, first: nat, target: Vector2)
    requires IdsBelow(s, gid, first) && Membership(s)
    requires first + |tg.units| <= Ids.U64_MODULUS
    ensures Membership(SpawnStore(s, tg, templateName, side, kind, gid, first, target))
  {
    SpawnUnitsGrouped(s, tg, templateName, side, kind, gid, first, target);
    SpawnMembersStored(s, tg, templateName, side, kind, gid, first, target);
  }

  lemma SpawnUnitsGrouped(s: Store, tg: TemplateGroup, templateName: string, side: Side, kind: GroupKind,
                        gid: GroupId, first: nat, target: Vector2)
    requires IdsBelow(s, gid, first) && UnitsGrouped(s)
    requires first + |tg.units| <= Ids.U64_MODULUS
    ensures UnitsGrouped(SpawnStore(s, tg, templateName, side, kind, gid, first, target))
  {
    var n := |tg.units|;
    var grp := EmptyGroup(gid, templateName, side, kind).(units := Ids.Drawn(first, n));
    var nu := NewUnits(grp.name, gid, tg, first, target, n);
    var r := SpawnStore(s, tg, templateName, side, kind, gid, first, target);
    assert r.groupsById == s.groupsById[gid := grp] && r.unitsById == s.unitsById + nu;
    NewUnitsShape(grp.name, gid, tg, first, target, n);
    Ids.DrawnRange(first, n);
    forall u | u in r.unitsById
      ensures r.unitsById[u].group in r.groupsById && u in r.groupsById[r.unitsById[u].group].units
    {
      if u !in nu {
        assert u in s.unitsById;
        assert r.unitsById[u] == s.unitsById[u];
        assert s.unitsById[u].group != gid;
      }
    }
  }

  lemma SpawnMembersStored(s: Store, tg: TemplateGroup, templateName: string, side: Side, kind: GroupKind,
                        gid: GroupId, first: nat, target: Vector2)
    requires IdsBelow(s, gid, first) && MembersStored(s)
    requires first + |tg.units| <= Ids.U64_MODULUS
    ensures MembersStored(SpawnStore(s, tg, templateName, side, kind, gid, first, target))
  {
    var n := |tg.units|;
    var grp := EmptyGroup(gid, templateName, side, kind).(units := Ids.Drawn(first, n));
    var nu := NewUnits(grp.name, gid, tg, first, target, n);
    var r := SpawnStore(s, tg, templateName, side, kind, gid, first, target);
    assert r.groupsById == s.groupsById[gid := grp] && r.unitsById == s.unitsById + nu;
    NewUnitsShape(grp.name, gid, tg, first, target, n);
    Ids.DrawnRange(first, n);
    forall g, u | g in r.groupsById && u in r.groupsById[g].units
      ensures u in r.unitsById && r.unitsById[u].group == g
    {
      if g == gid {
        assert u in nu;
      } else {
        assert u in s.groupsById[g].units;
        assert u in s.unitsById && u < first;
        assert u !in nu;
      }
    }
  }

  lemma SpawnNaming(s: Store, tg: TemplateGroup, templateName: string, side: Side, kind: GroupKind,
                    gid: GroupId, first: nat, target: Vector2)
    requires IdsBelow(s, gid, first) && Membership(s) && Naming(s)
    requires first + |tg.units| <= Ids.U64_MODULUS
    ensures Naming(SpawnStore(s, tg, templateName, side, kind, gid, first, target))
  {
    var n := |tg.units|;
    var grp := EmptyGroup(gid, templateName, side, kind).(units := Ids.Drawn(first, n));
    var nu := NewUnits(grp.name, gid, tg, first, target, n);
    var r := SpawnStore(s, tg, templateName, side, kind, gid, first, target);
    assert r.groupsById == s.groupsById[gid := grp] && r.unitsById == s.unitsById + nu;
    NewUnitsShape(grp.name, gid, tg, first, target, n);
    Ids.DrawnRange(first, n);
    forall g | g in r.groupsById
      ensures r.groupsById[g].name == Decimal.Suffixed(r.groupsById[g].templateName, g)
    {
      if g != gid {
        assert r.groupsById[g] == s.groupsById[g];
      }
    }
    forall u | u in r.unitsById && r.unitsById[u].group in r.groupsById
      ensures r.unitsById[u].name == Decimal.Suffixed(r.groupsById[r.unitsById[u].group].name, u)
    {
      if u in nu {
        assert r.unitsById[u] == nu[u];
      } else {
        assert u in s.unitsById && r.unitsById[u] == s.unitsById[u];
        var g := s.unitsById[u].group;
        assert g in s.groupsById && g != gid;
        assert r.groupsById[g] == s.groupsById[g];
      }
    }
  }

  lemma SpawnNameIndices(s: Store, tg: TemplateGroup, templateName: string, side: Side, kind: GroupKind,
                         gid: GroupId, first: nat, target: Vector2)
    requires IdsBelow(s, gid, first) && NameIndices(s)
    requires first + |tg.units| <= Ids.U64_MODULUS
    ensures NameIndices(SpawnStore(s, tg, templateName, side, kind, gid, first, target))
  {
    var n := |tg.units|;
    var grp := EmptyGroup(gid, templateName, side, kind).(units := Ids.Drawn(first, n));
    var nu := NewUnits(grp.name, gid, tg, first, target, n);
    var r := SpawnStore(s, tg, templateName, side, kind, gid, first, target);
    assert r.groupsById == s.groupsById[gid := grp] && r.unitsById == s.unitsById + nu;
    NewUnitsShape(grp.name, gid, tg, first, target, n);
    Ids.DrawnRange(first, n);
    var nn := Ids.SuffixedNames(grp.name, first, n);
    Ids.SuffixedNamesShape(grp.name, first, n);
    assert r.groupsByName == s.groupsByName[grp.name := gid] && r.unitsByName == s.unitsByName + nn;
    forall nm | nm in r.groupsByName
      ensures r.groupsByName[nm] in r.groupsById && r.groupsById[r.groupsByName[nm]].name == nm
    {
      if nm != grp.name {
        var h := s.groupsByName[nm];
        assert h in s.groupsById && h != gid;
        assert r.groupsById[h] == s.groupsById[h];
      }
    }
    forall g | g in r.groupsById ensures r.groupsById[g].name in r.groupsByName {
      if g != gid {
        assert s.groupsById[g].name in s.groupsByName;
      }
    }
    forall nm | nm in r.unitsByName
      ensures r.unitsByName[nm] in r.unitsById && r.unitsById[r.unitsByName[nm]].name == nm
    {
      if nm in nn {
        var u := nn[nm];
        assert u in nu && r.unitsById[u] == nu[u];
      } else {
        var v := s.unitsByName[nm];
        assert v in s.unitsById && v < first;
        assert v !in nu;
        assert r.unitsById[v] == s.unitsById[v];
      }
    }
    forall u | u in r.unitsById ensures r.unitsById[u].name in r.unitsByName {
      if u in nu {
        assert nu[u].name == Decimal.Suffixed(grp.name, u);
        assert Decimal.Suffixed(grp.name, u) in nn;
      } else {
        assert s.unitsById[u].name in s.unitsByName;
      }
    }
  }

  lemma SpawnSideIndex(s: Store, tg: TemplateGroup, templateName: string, side: Side, kind: GroupKind,
                       gid: GroupId, first: nat, target: Vector2)
    requires IdsBelow(s, gid, first) && SideIndex(s)
    ensures SideIndex(SpawnStore(s, tg, templateName, side, kind, gid, first, target))
    ensures SpawnStore(s, tg, templateName, side, kind, gid, first, target).groupsBySide == s.groupsBySide
  {
    var r := SpawnStore(s, tg, templateName, side, kind, gid, first, target);
    assert r.groupsBySide == s.groupsBySide;
    forall sd, g | sd in r.groupsBySide && g in r.groupsBySide[sd]
      ensures g in r.groupsById && r.groupsById[g].side == sd
    {
      assert g in s.groupsById && g != gid;
    }
  }

  /** The new group is found under `"{template}-{gid}"`, holding exactly the drawn unit ids. */
  lemma SpawnedGroupFound(s: Store, tg: TemplateGroup, templateName: string, side: Side, kind: GroupKind,
                          gid: GroupId, first: nat, target: Vector2)
    ensures GroupByName(SpawnStore(s, tg, templateName, side, kind, gid, first, target), Decimal.Suffixed(templateName, gid))
      == Some(SpawnedGroup(gid, Decimal.Suffixed(templateName, gid), templateName, side, kind, Ids.Drawn(first, |tg.units|)))
  {
  }

  /** Below the wrap-around point, template unit `i` is found under `"{group name}-{first + i}"`. */
  lemma SpawnedUnitFound(s: Store, tg: TemplateGroup, templateName: string, side: Side, kind: GroupKind,
                         gid: GroupId, first: nat, target: Vector2, i: nat)
    requires first + |tg.units| <= Ids.U64_MODULUS && i < |tg.units|
    ensures UnitByName(SpawnStore(s, tg, templateName, side, kind, gid, first, target),
                       Decimal.Suffixed(Decimal.Suffixed(templateName, gid), first + i))
      == Some(NewUnit(Decimal.Suffixed(templateName, gid), gid, first + i, tg.units[i], target, tg.pos))
  {
    var n := |tg.units|;
    var gname := Decimal.Suffixed(templateName, gid);
    var nu := NewUnits(gname, gid, tg, first, target, n);
    var nn := Ids.SuffixedNames(gname, first, n);
    var r := SpawnStore(s, tg, templateName, side, kind, gid, first, target);
    assert r.unitsById == s.unitsById + nu && r.unitsByName == s.unitsByName + nn;
    Ids.DrawnRange(first, n);
    Ids.SuffixedNamesShape(gname, first, n);
    var name := Decimal.Suffixed(gname, first + i);
    assert first + i in Ids.Drawn(first, n);
    assert name in nn;
    var u := nn[name];
    Decimal.SuffixedInjective(gname, u, gname, first + i);
    NewUnitsAt(gname, gid, tg, first, target, n, i);
    assert r.unitsByName[name] == first + i;
    assert r.unitsById[first + i] == nu[first + i];
  }

  /**
    The position the source stores for template unit `i` (placed as
    written, bflib/src/db.rs:346-347) is the stored unit's position
    reflected through the target.
  */
  lemma SpawnedUnitAsWritten(s: Store, tg: TemplateGroup, templateName: string, side: Side, kind: GroupKind,
                             gid: GroupId, first: nat, target: Vector2, i: nat)
    requires first + |tg.units| <= Ids.U64_MODULUS && i < |tg.units|
    ensures var found := UnitByName(SpawnStore(s, tg, templateName, side, kind, gid, first, target),
                                    Decimal.Suffixed(Decimal.Suffixed(templateName, gid), first + i));
      && found.Some?
      && PlaceUnitAsWritten(target, tg.pos, tg.units[i].pos) == Sub(Add(target, target), found.value.pos)
  {
    SpawnedUnitFound(s, tg, templateName, side, kind, gid, first, target, i);
    PlacementsReflect(target, tg.pos, tg.units[i].pos);
  }

  /** The same for the request handed to the engine: each requested position reflects the source's. */
  lemma RequestAsWritten(tg: TemplateGroup, groupName: string, first: nat, target: Vector2, i: nat)
    requires i < |tg.units|
    ensures var req := SpawnRequest(tg, groupName, first, target);
      && i < |req.units|
      && PlaceUnitAsWritten(target, tg.pos, tg.units[i].pos) == Sub(Add(target, target), req.units[i].pos)
  {
    PlacedUnitsAt(tg, groupName, first, target, |tg.units|);
    PlacementsReflect(target, tg.pos, tg.units[i].pos);
  }

  // ---------------------------------------------------------------------
  // respawn_group
  // ---------------------------------------------------------------------

  /**
    `by_tname`: the group's living members by template name. The member set
    is walked in ascending id order, so when two members share a template
    name the one with the larger id is kept.
  */
  function ByTemplateName(units: map<UnitId, SpawnedUnit>, members: set<UnitId>): map<string, SpawnedUnit>
    decreases members
  {
    if members == {} then map[]
    else
      var m := Ids.MaxOf(members);
      var rest := ByTemplateName(units, members - {m});
      if m in units && !units[m].dead then rest[units[m].templateName := units[m]] else rest
  }

  /** Every living member is indexed under its template name, and every entry is a living member. */
  lemma {:induction false} ByTemplateNameMembers(units: map<UnitId, SpawnedUnit>, members: set<UnitId>)
    ensures forall n :: n in ByTemplateName(units, members) ==>
      exists u :: u in members && u in units && !units[u].dead && units[u].templateName == n &&
        ByTemplateName(units, members)[n] == units[u]
    ensures forall u :: u in members && u in units && !units[u].dead ==>
      units[u].templateName in ByTemplateName(units, members)
    decreases members
  {
    if members != {} {
      var m := Ids.MaxOf(members);
      var rest := ByTemplateName(units, members - {m});
      ByTemplateNameMembers(units, members - {m});
      var r := ByTemplateName(units, members);
      forall n | n in r
        ensures exists u :: u in members && u in units && !units[u].dead && units[u].templateName == n && r[n] == units[u]
      {
        if m in units && !units[m].dead && n == units[m].templateName {
          assert r[n] == units[m];
        } else {
          assert n in rest && r[n] == rest[n];
          var u :| u in members - {m} && u in units && !units[u].dead && units[u].templateName == n && rest[n] == units[u];
          assert u in members;
        }
      }
    }
  }

  /** Of the living members sharing a template name, the one with the largest id is kept. */
  lemma {:induction false} ByTemplateNameLargest(units: map<UnitId, SpawnedUnit>, members: set<UnitId>, u: UnitId)
    requires u in members && u in units && !units[u].dead
    ensures units[u].templateName in ByTemplateName(units, members)
    ensures exists w :: (w in members && w >= u && w in units &&
      ByTemplateName(units, members)[units[u].templateName] == units[w])
    decreases members
  {
    var m := Ids.MaxOf(members);
    if u != m && !(m in units && !units[m].dead && units[m].templateName == units[u].templateName) {
      ByTemplateNameLargest(units, members - {m}, u);
      var w :| w in members - {m} && w >= u && w in units &&
        ByTemplateName(units, members - {m})[units[u].templateName] == units[w];
      assert ByTemplateName(units, members)[units[u].templateName] == units[w];
    } else {
      assert ByTemplateName(units, members)[units[u].templateName] == units[m];
    }
  }

  /** A kept template unit, moved to its living counterpart's position. */
  function KeepOne(tu: TemplateUnit, alive: map<string, SpawnedUnit>): seq<TemplateUnit> {
    if tu.name in alive then [tu.(pos := alive[tu.name].pos)] else []
  }

  /** The template units the loop leaves, in order. */
  function Kept(units: seq<TemplateUnit>, alive: map<string, SpawnedUnit>): seq<TemplateUnit> {
    if units == [] then []
    else Kept(units[..|units| - 1], alive) + KeepOne(units[|units| - 1], alive)
  }

  /**
    One turn of the loop over `units == Kept(tg.units[..d]) + tg.units[d..]`
    drops template unit `d` or keeps it at its counterpart's position.
  */
  lemma KeptStep(tg: TemplateGroup, alive: map<string, SpawnedUnit>, d: nat, units: seq<TemplateUnit>)
    requires d < |tg.units| && units == Kept(tg.units[..d], alive) + tg.units[d..]
    ensures var k := |Kept(tg.units[..d], alive)|;
      && k < |units| && units[k] == tg.units[d]
      && (units[k].name !in alive ==>
            && units[..k] + units[k + 1..] == Kept(tg.units[..d + 1], alive) + tg.units[d + 1..]
            && Kept(tg.units[..d + 1], alive) == Kept(tg.units[..d], alive))
      && (units[k].name in alive ==>
            && units[..k] + [units[k].(pos := alive[units[k].name].pos)] + units[k + 1..]
               == Kept(tg.units[..d + 1], alive) + tg.units[d + 1..]
            && |Kept(tg.units[..d + 1], alive)| == k + 1
            && FinalGroupPos(tg, Kept(tg.units[..d + 1], alive)) == alive[units[k].name].pos)
  {
    var before := Kept(tg.units[..d], alive);
    var k := |before|;
    assert tg.units[..d + 1][..d] == tg.units[..d];
    assert Kept(tg.units[..d + 1], alive) == before + KeepOne(tg.units[d], alive);
    assert units[..k] == before && units[k + 1..] == tg.units[d + 1..];
  }

  /** Where the kept units sit in `units`: the indices of those with a living counterpart, ascending. */
  function KeptIndices(units: seq<TemplateUnit>, alive: map<string, SpawnedUnit>): seq<nat> {
    if units == [] then []
    else KeptIndices(units[..|units| - 1], alive) + (if units[|units| - 1].name in alive then [|units| - 1] else [])
  }

  /**
    The kept units, in order, are the template units at strictly ascending
    indices, which are exactly the indices of the units with a living
    counterpart; each is that template unit with only its position changed.
  */
  lemma {:induction false} KeptInOrder(units: seq<TemplateUnit>, alive: map<string, SpawnedUnit>)
    ensures var idx := KeptIndices(units, alive);
      && |idx| == |Kept(units, alive)|
      && (forall k :: 0 <= k < |idx| ==> idx[k] < |units| && units[idx[k]].name in alive)
      && (forall k, l :: 0 <= k < l < |idx| ==> idx[k] < idx[l])
      && (forall i :: 0 <= i < |units| && units[i].name in alive ==> i in idx)
      && (forall k :: 0 <= k < |idx| ==>
            Kept(units, alive)[k] == units[idx[k]].(pos := alive[units[idx[k]].name].pos))
  {
    if units != [] {
      var init := units[..|units| - 1];
      KeptInOrder(init, alive);
      forall i | 0 <= i < |init| ensures init[i] == units[i] { }
    }
  }

  /** Kept units are exactly the template units that match a living member, each at that member's position. */
  lemma {:induction false} KeptIsFilter(units: seq<TemplateUnit>, alive: map<string, SpawnedUnit>)
    ensures var idx := KeptIndices(units, alive);
      && |idx| == |Kept(units, alive)|
      && (forall k :: 0 <= k < |idx| ==> idx[k] < |units| && units[idx[k]].name in alive)
      && (forall k, l :: 0 <= k < l < |idx| ==> idx[k] < idx[l])
      && (forall i :: 0 <= i < |units| && units[i].name in alive ==> i in idx)
      && (forall k :: 0 <= k < |idx| ==>
            Kept(units, alive)[k] == units[idx[k]].(pos := alive[units[idx[k]].name].pos))
    ensures |Kept(units, alive)| <= |units|
    ensures forall k :: 0 <= k < |Kept(units, alive)| ==>
      Kept(units, alive)[k].name in alive && Kept(units, alive)[k].pos == alive[Kept(units, alive)[k].name].pos
    ensures forall i :: 0 <= i < |units| && units[i].name in alive ==>
      units[i].(pos := alive[units[i].name].pos) in Kept(units, alive)
    ensures Kept(units, alive) == [] <==> forall i :: 0 <= i < |units| ==> units[i].name !in alive
  {
    KeptInOrder(units, alive);
    KeptSound(units, alive);
    KeptComplete(units, alive);
    KeptEmpty(units, alive);
  }

  lemma {:induction false} KeptSound(units: seq<TemplateUnit>, alive: map<string, SpawnedUnit>)
    ensures |Kept(units, alive)| <= |units|
    ensures forall k :: 0 <= k < |Kept(units, alive)| ==>
      Kept(units, alive)[k].name in alive && Kept(units, alive)[k].pos == alive[Kept(units, alive)[k].name].pos
  {
    if units != [] {
      KeptSound(units[..|units| - 1], alive);
    }
  }

  lemma {:induction false} KeptComplete(units: seq<TemplateUnit>, alive: map<string, SpawnedUnit>)
    ensures forall i :: 0 <= i < |units| && units[i].name in alive ==>
      units[i].(pos := alive[units[i].name].pos) in Kept(units, alive)
  {
    if units != [] {
      var init := units[..|units| - 1];
      KeptComplete(init, alive);
      forall i | 0 <= i < |init| ensures init[i] == units[i] { }
    }
  }

  lemma {:induction false} KeptEmpty(units: seq<TemplateUnit>, alive: map<string, SpawnedUnit>)
    ensures Kept(units, alive) == [] <==> forall i :: 0 <= i < |units| ==> units[i].name !in alive
  {
    if units != [] {
      var init := units[..|units| - 1];
      KeptEmpty(init, alive);
      forall i | 0 <= i < |init| ensures init[i] == units[i] { }
    }
  }

  /**
    What `respawn_group` asks the engine to spawn: the stored group's
    template, renamed and activated, keeping the units that have a living
    counterpart, each moved to it; nothing when no unit is kept.
  */
  function RespawnRequest(m: Mission, s: Store, group: SpawnedGroup): Result<Option<TemplateGroup>, string> {
    if (group.kind, group.side, group.templateName) !in m.templates then Err("no such template")
    else
      var tg := m.templates[(group.kind, group.side, group.templateName)];
      var kept := Kept(tg.units, ByTemplateName(s.unitsById, group.units));
      Ok(if kept == [] then None else Some(TemplateGroup(group.name, FinalGroupPos(tg, kept), false, kept)))
  }

  /** `spctx.spawn`: nothing to spawn succeeds; otherwise the engine decides. */
  function SpawnOutcome(request: Option<TemplateGroup>, engine: TemplateGroup -> bool): Result<(), string> {
    if request.Some? && !engine(request.value) then Err("the engine refused the spawn") else Ok(())
  }

  /**
    A respawned group keeps its stored name and is activated at once; its
    units are exactly the template units with a living counterpart, each at
    that counterpart's position, and the group sits where the last of them
    does. Nothing is spawned exactly when no template unit has one.
  */
  lemma RespawnRequestKeepsLiving(m: Mission, s: Store, group: SpawnedGroup)
    requires (group.kind, group.side, group.templateName) in m.templates
    ensures var tg := m.templates[(group.kind, group.side, group.templateName)];
      var alive := ByTemplateName(s.unitsById, group.units);
      var req := RespawnRequest(m, s, group);
      && req.Ok?
      && (req.value == None <==> forall i :: 0 <= i < |tg.units| ==> tg.units[i].name !in alive)
      && (req.value.Some? ==>
            && req.value.value.name == group.name && !req.value.value.lateActivation
            && (forall k :: 0 <= k < |req.value.value.units| ==>
                  req.value.value.units[k].name in alive &&
                  req.value.value.units[k].pos == alive[req.value.value.units[k].name].pos)
            && (forall i :: 0 <= i < |tg.units| && tg.units[i].name in alive ==>
                  tg.units[i].(pos := alive[tg.units[i].name].pos) in req.value.value.units)
            && req.value.value.pos == req.value.value.units[|req.value.value.units| - 1].pos
            && var idx := KeptIndices(tg.units, alive);
            && |idx| == |req.value.value.units|
            && (forall k :: 0 <= k < |idx| ==> idx[k] < |tg.units| && tg.units[idx[k]].name in alive)
            && (forall k, l :: 0 <= k < l < |idx| ==> idx[k] < idx[l])
            && (forall i :: 0 <= i < |tg.units| && tg.units[i].name in alive ==> i in idx)
            && (forall k :: 0 <= k < |idx| ==>
                  req.value.value.units[k] == tg.units[idx[k]].(pos := alive[tg.units[idx[k]].name].pos)))
  {
    var tg := m.templates[(group.kind, group.side, group.templateName)];
    KeptIsFilter(tg.units, ByTemplateName(s.unitsById, group.units));
  }

  /** The group position after the loop: that of the last kept unit, the template's if none is kept. */
  function FinalGroupPos(tg: TemplateGroup, kept: seq<TemplateUnit>): Vector2 {
    if kept == [] then tg.pos else kept[|kept| - 1].pos
  }

  // ---------------------------------------------------------------------
  // The database object
  // ---------------------------------------------------------------------

  class Db {
    var dirty: bool
    var store: Store

    /** `Db::default()` */
    constructor ()
      ensures !dirty && store == EMPTY_STORE
    {
      dirty := false;
      store := EMPTY_STORE;
    }

    /**
      `Db::load`, once the save file is decoded to `saved`: the dirty flag
      starts cleared and every stored id is replayed into its counter.
    */
    constructor Load(saved: Store, gids: Ids.IdAllocator, uids: Ids.IdAllocator)
      requires gids != uids && gids.Valid() && uids.Valid()
      requires forall g :: g in saved.groupsById ==> g < Ids.U64_MODULUS
      requires forall u :: u in saved.unitsById ==> u < Ids.U64_MODULUS
      modifies gids, uids
      ensures !dirty && store == saved
      ensures gids.Valid() && uids.Valid()
      ensures (forall g :: g in saved.groupsById ==> g + 1 < Ids.U64_MODULUS) ==>
                Ids.FloorAfter(old(gids.next), saved.groupsById.Keys, gids.next)
      ensures (forall u :: u in saved.unitsById ==> u + 1 < Ids.U64_MODULUS) ==>
                Ids.FloorAfter(old(uids.next), saved.unitsById.Keys, uids.next)
    {
      dirty := false;
      store := saved;
      new;
      Replay(gids, saved.groupsById.Keys);
      Replay(uids, saved.unitsById.Keys);
    }

    /** `maybe_snapshot`: a copy of the store when dirty, clearing the flag; nothing when clean. */
    method MaybeSnapshot() returns (snap: Option<Store>)
      modifies this
      ensures old(dirty) ==> snap == Some(old(store)) && !dirty && store == old(store)
      ensures !old(dirty) ==> snap == None && !dirty && store == old(store)
    {
      if dirty {
        dirty := false;
        snap := Some(store);
      } else {
        snap := None;
      }
    }

    /** `unit_dead`: only that unit's flag changes; the store is marked dirty even for an unknown id. */
    method UnitDead(id: UnitId, dead: bool)
      modifies this
      ensures store == old(store).(unitsById := MarkDead(old(store).unitsById, id, dead))
      ensures dirty
    {
      store := store.(unitsById := MarkDead(store.unitsById, id, dead));
      dirty := true;
    }

    /**
      `spawn_template_as_new`. A missing template or trigger zone fails
      before any id is drawn. Otherwise one group id and one unit id per
      template unit are drawn, the store gains the group and its units,
      the flag is set, and the engine is asked to spawn; an engine refusal
      is reported after the store was changed.
    */
    method SpawnTemplateAsNew(m: Mission, side: Side, kind: GroupKind, loc: SpawnLoc, templateName: string,
                              gids: Ids.IdAllocator, uids: Ids.IdAllocator, engine: TemplateGroup -> bool)
      returns (r: Result<GroupId, string>, request: Option<TemplateGroup>)
      requires gids != uids && gids.Valid() && uids.Valid()
      modifies this, gids, uids
      ensures gids.Valid() && uids.Valid()
      ensures (kind, side, templateName) !in m.templates ==>
        r == Err("no such template") && request == None && unchanged(this, gids, uids)
      ensures (kind, side, templateName) in m.templates && SpawnTarget(m, loc).Err? ==>
        r == Err("no such trigger zone") && request == None && unchanged(this, gids, uids)
      ensures (kind, side, templateName) in m.templates && SpawnTarget(m, loc).Ok? ==>
        var tg := m.templates[(kind, side, templateName)];
        var gid := old(gids.next);
        var target := SpawnTarget(m, loc).value;
        && gids.next == Ids.Bump(gid)
        && uids.next == Ids.Nth(old(uids.next), |tg.units|)
        && store == SpawnStore(old(store), tg, templateName, side, kind, gid, old(uids.next), target)
        && dirty
        && request == Some(SpawnRequest(tg, Decimal.Suffixed(templateName, gid), old(uids.next), target))
        && r == (if engine(request.value) then Ok(gid) else Err("the engine refused the spawn"))
    {
      if (kind, side, templateName) !in m.templates {
        return Err("no such template"), None;
      }
      var tg := m.templates[(kind, side, templateName)];
      var target := SpawnTarget(m, loc);
      if target.Err? {
        return Err("no such trigger zone"), None;
      }
      r, request := SpawnAt(tg, templateName, side, kind, target.value, gids, uids, engine);
    }

    /** `spawn_template_as_new` once the template and the target are found. */
    method SpawnAt(tg: TemplateGroup, templateName: string, side: Side, kind: GroupKind, pos: Vector2,
                   gids: Ids.IdAllocator, uids: Ids.IdAllocator, engine: TemplateGroup -> bool)
      returns (r: Result<GroupId, string>, request: Option<TemplateGroup>)
      requires gids != uids && gids.Valid() && uids.Valid()
      modifies this, gids, uids
      ensures gids.Valid() && uids.Valid()
      ensures gids.next == Ids.Bump(old(gids.next))
      ensures uids.next == Ids.Nth(old(uids.next), |tg.units|)
      ensures store == SpawnStore(old(store), tg, templateName, side, kind, old(gids.next), old(uids.next), pos)
      ensures dirty
      ensures request == Some(SpawnRequest(tg, Decimal.Suffixed(templateName, old(gids.next)), old(uids.next), pos))
      ensures r == (if engine(request.value) then Ok(old(gids.next)) else Err("the engine refused the spawn"))
    {
      var gid := gids.New();
      var groupName := Decimal.Suffixed(templateName, gid);
      var ids, placed := AddTemplateUnits(tg, groupName, gid, pos, uids);
      var grp := EmptyGroup(gid, templateName, side, kind).(units := ids);
      store := store.(groupsById := store.groupsById[gid := grp], groupsByName := store.groupsByName[groupName := gid]);
      dirty := true;
      request := Some(TemplateGroup(groupName, pos, false, placed));
      r := if engine(request.value) then Ok(gid) else Err("the engine refused the spawn");
    }

    /**
      The unit loop of `spawn_template_as_new`: one unit id per template
      unit, each unit stored under its id and its name, and the placed
      copies collected for the engine, in template order.
    */
    method AddTemplateUnits(tg: TemplateGroup, groupName: string, gid: GroupId, pos: Vector2, uids: Ids.IdAllocator)
      returns (ids: set<UnitId>, placed: seq<TemplateUnit>)
      requires uids.Valid()
      modifies this, uids
      ensures uids.Valid() && uids.next == Ids.Nth(old(uids.next), |tg.units|)
      ensures ids == Ids.Drawn(old(uids.next), |tg.units|)
      ensures store == old(store).(
        unitsById := old(store).unitsById + NewUnits(groupName, gid, tg, old(uids.next), pos, |tg.units|),
        unitsByName := old(store).unitsByName + Ids.SuffixedNames(groupName, old(uids.next), |tg.units|))
      ensures placed == PlacedUnits(tg, groupName, old(uids.next), pos, |tg.units|)
      ensures dirty == old(dirty)
    {
      var units, names;
      ids, placed, units, names := DrawUnits(tg, groupName, gid, pos, uids, store.unitsById, store.unitsByName);
      store := store.(unitsById := units, unitsByName := names);
    }

    /**
      The loop of `spawn_template_as_new` on the two unit maps it extends:
      one id is drawn per template unit, in template order.
    */
    method DrawUnits(tg: TemplateGroup, groupName: string, gid: GroupId, pos: Vector2, uids: Ids.IdAllocator,
                     units0: map<UnitId, SpawnedUnit>, names0: map<string, UnitId>)
      returns (ids: set<UnitId>, placed: seq<TemplateUnit>, units: map<UnitId, SpawnedUnit>, names: map<string, UnitId>)
      requires uids.Valid()
      modifies uids
      ensures uids.Valid() && uids.next == Ids.Nth(old(uids.next), |tg.units|)
      ensures ids == Ids.Drawn(old(uids.next), |tg.units|)
      ensures units == units0 + NewUnits(groupName, gid, tg, old(uids.next), pos, |tg.units|)
      ensures names == names0 + Ids.SuffixedNames(groupName, old(uids.next), |tg.units|)
      ensures placed == PlacedUnits(tg, groupName, old(uids.next), pos, |tg.units|)
    {
      ghost var first := uids.next;
      units := units0;
      names := names0;
      ids := {};
      placed := [];
      var i := 0;
      while i < |tg.units|
        invariant 0 <= i <= |tg.units|
        invariant uids.Valid() && uids.next == Ids.Nth(first, i)
        invariant ids == Ids.Drawn(first, i)
        invariant units == units0 + NewUnits(groupName, gid, tg, first, pos, i)
        invariant names == names0 + Ids.SuffixedNames(groupName, first, i)
        invariant placed == PlacedUnits(tg, groupName, first, pos, i)
      {
        Ids.NthStep(first, i);
        var uid := uids.New();
        var su := NewUnit(groupName, gid, uid, tg.units[i], pos, tg.pos);
        AddStep(units0, names0, groupName, gid, tg, first, pos, i, uid, su);
        ids := ids + {uid};
        units := units[uid := su];
        names := names[su.name := uid];
        placed := placed + [TemplateUnit(su.name, su.pos)];
        i := i + 1;
      }
    }

    /**
      `respawn_group`: the template handed to the engine is the one
      `RespawnRequest` describes; a refusal by the engine is reported.
      The store is only read.
    */
    method RespawnGroup(m: Mission, group: SpawnedGroup, engine: TemplateGroup -> bool)
      returns (r: Result<(), string>, request: Option<TemplateGroup>)
      ensures RespawnRequest(m, store, group).Err? ==> r == Err("no such template") && request == None
      ensures RespawnRequest(m, store, group).Ok? ==>
        request == RespawnRequest(m, store, group).value && r == SpawnOutcome(request, engine)
    {
      if (group.kind, group.side, group.templateName) !in m.templates {
        return Err("no such template"), None;
      }
      var tg := m.templates[(group.kind, group.side, group.templateName)];
      var byTname := ByTemplateName(store.unitsById, group.units);
      var groupPos := tg.pos;
      var units := tg.units;
      ghost var done := 0;
      var i := 1;
      while i <= |units|
        invariant 0 <= done <= |tg.units|
        invariant i - 1 == |Kept(tg.units[..done], byTname)|
        invariant units == Kept(tg.units[..done], byTname) + tg.units[done..]
        invariant groupPos == FinalGroupPos(tg, Kept(tg.units[..done], byTname))
        decreases |tg.units| - done
      {
        var unit := units[i - 1];
        KeptStep(tg, byTname, done, units);
        if unit.name !in byTname {
          units := units[..i - 1] + units[i..];
        } else {
          var su := byTname[unit.name];
          groupPos := su.pos;
          units := units[..i - 1] + [unit.(pos := su.pos)] + units[i..];
          i := i + 1;
        }
        done := done + 1;
      }
      assert done == |tg.units|;
      assert tg.units[..done] == tg.units && tg.units[done..] == [];
      assert units == Kept(tg.units, byTname) && groupPos == FinalGroupPos(tg, units);
      if |units| > 0 {
        request := Some(TemplateGroup(group.name, groupPos, false, units));
        r := if engine(request.value) then Ok(()) else Err("the engine refused the spawn");
      } else {
        request := None;
        r := Ok(());
      }
    }
  }

  /** One turn of the unit loop of `spawn_template_as_new` extends every accumulated value by template unit `i`. */
  lemma AddStep(units0: map<UnitId, SpawnedUnit>, names0: map<string, UnitId>, groupName: string, gid: GroupId,
                tg: TemplateGroup, first: nat, pos: Vector2, i: nat, uid: UnitId, su: SpawnedUnit)
    requires i < |tg.units| && uid == Ids.Nth(first, i)
    requires su == NewUnit(groupName, gid, uid, tg.units[i], pos, tg.pos)
    ensures (units0 + NewUnits(groupName, gid, tg, first, pos, i))[uid := su]
      == units0 + NewUnits(groupName, gid, tg, first, pos, i + 1)
    ensures (names0 + Ids.SuffixedNames(groupName, first, i))[su.name := uid]
      == names0 + Ids.SuffixedNames(groupName, first, i + 1)
    ensures Ids.Drawn(first, i) + {uid} == Ids.Drawn(first, i + 1)
    ensures PlacedUnits(tg, groupName, first, pos, i) + [TemplateUnit(su.name, su.pos)]
      == PlacedUnits(tg, groupName, first, pos, i + 1)
  {
    UnionUpdate(units0, NewUnits(groupName, gid, tg, first, pos, i), uid, su);
    UnionUpdate(names0, Ids.SuffixedNames(groupName, first, i), su.name, uid);
  }

  /** Updating a union at a key is updating its right operand there. */
  lemma UnionUpdate<K, V>(a: map<K, V>, b: map<K, V>, k: K, v: V)
    ensures (a + b)[k := v] == a + b[k := v]
  {
  }

  /** The id replay of `Db::load`: `update_max` for every id, in any order. */
  method Replay(a: Ids.IdAllocator, ids: set<nat>)
    requires a.Valid() && forall id :: id in ids ==> id < Ids.U64_MODULUS
    modifies a
    ensures a.Valid()
    ensures (forall id :: id in ids ==> id + 1 < Ids.U64_MODULUS) ==> Ids.FloorAfter(old(a.next), ids, a.next)
  {
    ghost var start := a.next;
    var rest := ids;
    ghost var seen: set<nat> := {};
    while rest != {}
      invariant a.Valid()
      invariant rest + seen == ids && rest !! seen
      invariant (forall id :: id in ids ==> id + 1 < Ids.U64_MODULUS) ==> Ids.FloorAfter(start, seen, a.next)
      decreases rest
    {
      var id :| id in rest;
      a.UpdateMax(id);
      rest := rest - {id};
      seen := seen + {id};
    }
  }
}
