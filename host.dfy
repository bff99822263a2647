/**
  The mission host (bflib/src/lib.rs): the context that ties engine events
  to the flat database, the periodic snapshot timer, and the start-up
  branch that either spawns the test groups or restores a saved database.

  Engine objects are reduced to what the handlers read of them: an event's
  initiator is a unit with a name and an object id, or something else. The
  background thread is the ordered list of tasks sent to it. The two id
  counters, global statics in the source, are fields of the context.
*/
module Host {
  import opened Wrappers
  import Ids
  import Decimal
  import opened Vectors
  import opened Coalition
  import FlatDb

  datatype Initiator = NotAUnit | UnitObject(name: string, objectId: int)

  /** The events `on_event` tells apart; every other engine event is `OtherEvent`. */
  datatype Event = Birth(initiator: Initiator) | Dead(initiator: Initiator) | OtherEvent

  datatype BgTask = MizInit | SaveState(path: string, snapshot: FlatDb.Store)

  /** The parts of the context the event handler and the timer read and write. */
  datatype HostState = HostState(
    objIds: map<int, FlatDb.UnitId>,
    store: FlatDb.Store,
    dirty: bool,
    tasks: seq<BgTask>)

  // ---------------------------------------------------------------------
  // Event reconciliation
  // ---------------------------------------------------------------------

  /**
    `on_event`: a unit born under a stored name is remembered under its
    object id; a remembered object that dies is forgotten and its unit
    marked dead; nothing else changes anything.
  */
  function Reconcile(h: HostState, ev: Event): HostState {
    match ev
    case Birth(UnitObject(name, oid)) =>
      var su := FlatDb.UnitByName(h.store, name);
      if su.Some? then h.(objIds := h.objIds[oid := su.value.id]) else h
    case Dead(UnitObject(_, oid)) =>
      if oid in h.objIds then
        h.(objIds := h.objIds - {oid},
           store := h.store.(unitsById := FlatDb.MarkDead(h.store.unitsById, h.objIds[oid], true)),
           dirty := true)
      else h
    case _ => h
  }

  /**
    In a valid store, a birth under a stored name maps the object id to the
    unit carrying that name and leaves every other mapping and the database
    alone; a birth under an unknown name changes nothing.
  */
  lemma BirthMapsNamedUnit(h: HostState, name: string, oid: int, gidFloor: nat, uidFloor: nat)
    requires FlatDb.IdsBelow(h.store, gidFloor, uidFloor) && FlatDb.NameIndices(h.store)
    ensures var r := Reconcile(h, Birth(UnitObject(name, oid)));
      && r.store == h.store && r.dirty == h.dirty && r.tasks == h.tasks
      && (name !in h.store.unitsByName ==> r == h)
      && (name in h.store.unitsByName ==>
            && oid in r.objIds && r.objIds[oid] in h.store.unitsById
            && h.store.unitsById[r.objIds[oid]].name == name
            && forall o :: o in h.objIds && o != oid ==> o in r.objIds && r.objIds[o] == h.objIds[o])
  {
    if name in h.store.unitsByName {
      var u := h.store.unitsByName[name];
      assert u in h.store.unitsById && h.store.unitsById[u].id == u;
    }
  }

  /**
    A death of a remembered object forgets it, marks exactly its unit dead
    and sets the dirty flag; a death of an unknown object changes nothing.
  */
  lemma DeadMarksMappedUnit(h: HostState, name: string, oid: int)
    ensures var r := Reconcile(h, Dead(UnitObject(name, oid)));
      && r.tasks == h.tasks
      && (oid !in h.objIds ==> r == h)
      && (oid in h.objIds ==>
            && r.objIds == h.objIds - {oid} && r.dirty
            && r.store == h.store.(unitsById := r.store.unitsById)
            && r.store.unitsById.Keys == h.store.unitsById.Keys
            && (h.objIds[oid] in h.store.unitsById ==> r.store.unitsById[h.objIds[oid]].dead)
            && forall u :: u in h.store.unitsById && u != h.objIds[oid] ==> r.store.unitsById[u] == h.store.unitsById[u])
  {
  }

  /** A second death report for the same object has no effect: the first one removed the mapping. */
  lemma DeadTwiceIsDeadOnce(h: HostState, a: string, b: string, oid: int)
    ensures Reconcile(Reconcile(h, Dead(UnitObject(a, oid))), Dead(UnitObject(b, oid)))
         == Reconcile(h, Dead(UnitObject(a, oid)))
  {
  }

  /** Events other than a unit's birth or death leave the context as it was. */
  lemma OtherEventsInert(h: HostState, ev: Event)
    requires ev.OtherEvent? || ev.initiator.NotAUnit?
    ensures Reconcile(h, ev) == h
  {
  }

  /** A unit seen born and then reported dead ends up marked dead in the database. */
  lemma BirthThenDeadMarksUnit(h: HostState, name: string, oid: int, gidFloor: nat, uidFloor: nat)
    requires FlatDb.IdsBelow(h.store, gidFloor, uidFloor) && FlatDb.NameIndices(h.store)
    requires name in h.store.unitsByName
    ensures var r := Reconcile(Reconcile(h, Birth(UnitObject(name, oid))), Dead(UnitObject(name, oid)));
      && oid !in r.objIds && r.dirty
      && r.store.unitsById[h.store.unitsByName[name]].dead
  {
    BirthMapsNamedUnit(h, name, oid, gidFloor, uidFloor);
  }

  /** Reconciliation keeps a valid store valid, and every remembered object names a stored unit. */
  lemma ReconcileKeepsValid(h: HostState, ev: Event, gidFloor: nat, uidFloor: nat)
    requires FlatDb.StoreValid(h.store, gidFloor, uidFloor)
    requires forall o :: o in h.objIds ==> h.objIds[o] in h.store.unitsById
    ensures FlatDb.StoreValid(Reconcile(h, ev).store, gidFloor, uidFloor)
    ensures forall o :: o in Reconcile(h, ev).objIds ==> Reconcile(h, ev).objIds[o] in Reconcile(h, ev).store.unitsById
  {
    if ev.Birth? && ev.initiator.UnitObject? {
      BirthKeepsMapped(h, ev.initiator.name, ev.initiator.objectId, gidFloor, uidFloor);
    } else if ev.Dead? && ev.initiator.UnitObject? {
      DeadKeepsMapped(h, ev.initiator.name, ev.initiator.objectId, gidFloor, uidFloor);
    }
  }

  lemma BirthKeepsMapped(h: HostState, name: string, oid: int, gidFloor: nat, uidFloor: nat)
    requires FlatDb.IdsBelow(h.store, gidFloor, uidFloor) && FlatDb.NameIndices(h.store)
    requires forall o :: o in h.objIds ==> h.objIds[o] in h.store.unitsById
    ensures Reconcile(h, Birth(UnitObject(name, oid))).store == h.store
    ensures forall o :: o in Reconcile(h, Birth(UnitObject(name, oid))).objIds ==>
      Reconcile(h, Birth(UnitObject(name, oid))).objIds[o] in h.store.unitsById
  {
    BirthMapsNamedUnit(h, name, oid, gidFloor, uidFloor);
  }

  lemma DeadKeepsMapped(h: HostState, name: string, oid: int, gidFloor: nat, uidFloor: nat)
    requires FlatDb.StoreValid(h.store, gidFloor, uidFloor)
    requires forall o :: o in h.objIds ==> h.objIds[o] in h.store.unitsById
    ensures FlatDb.StoreValid(Reconcile(h, Dead(UnitObject(name, oid))).store, gidFloor, uidFloor)
    ensures forall o :: o in Reconcile(h, Dead(UnitObject(name, oid))).objIds ==>
      Reconcile(h, Dead(UnitObject(name, oid))).objIds[o] in Reconcile(h, Dead(UnitObject(name, oid))).store.unitsById
  {
    if oid in h.objIds {
      var r := Reconcile(h, Dead(UnitObject(name, oid)));
      var marked := FlatDb.MarkDead(h.store.unitsById, h.objIds[oid], true);
      assert r.store == h.store.(unitsById := marked) && r.objIds == h.objIds - {oid};
      FlatDb.MarkDeadKeepsValid(h.store, h.objIds[oid], true, gidFloor, uidFloor);
      forall o | o in r.objIds ensures r.objIds[o] in marked {
        assert r.objIds[o] == h.objIds[o];
      }
    }
  }

  // ---------------------------------------------------------------------
  // The snapshot timer
  // ---------------------------------------------------------------------

  /** One firing of the timer closure: a snapshot, when there is one, goes to the background to be saved. */
  function Tick(h: HostState, path: string): HostState {
    if h.dirty then h.(dirty := false, tasks := h.tasks + [SaveState(path, h.store)]) else h
  }

  /**
    A tick sends exactly one save task, holding the current store, when the
    store changed since the last snapshot, and none otherwise; the store and
    the object map are never touched.
  */
  lemma TickSavesChanges(h: HostState, path: string)
    ensures Tick(h, path).store == h.store && Tick(h, path).objIds == h.objIds && !Tick(h, path).dirty
    ensures h.dirty ==> Tick(h, path).tasks == h.tasks + [SaveState(path, h.store)]
    ensures !h.dirty ==> Tick(h, path).tasks == h.tasks
  {
  }

  /** Two ticks with nothing in between save once. */
  lemma SecondTickSavesNothing(h: HostState, path: string)
    ensures Tick(Tick(h, path), path) == Tick(h, path)
    ensures |Tick(Tick(h, path), path).tasks| <= |h.tasks| + 1
  {
  }

  /** A recorded death reaches the save file: the next tick saves a store in which the unit is dead. */
  lemma DeathIsSaved(h: HostState, name: string, oid: int, path: string)
    requires oid in h.objIds && h.objIds[oid] in h.store.unitsById
    ensures var t := Tick(Reconcile(h, Dead(UnitObject(name, oid))), path);
      && |t.tasks| == |h.tasks| + 1
      && t.tasks[|h.tasks|].SaveState?
      && t.tasks[|h.tasks|].snapshot.unitsById[h.objIds[oid]].dead
  {
  }

  // ---------------------------------------------------------------------
  // Start-up
  // ---------------------------------------------------------------------

  const TEST_ZONE: string := "TEST_TZ"
  const BLUE_TEST_GROUP: string := "BLUE_TEST_GROUP"
  const RED_TEST_GROUP: string := "RED_TEST_GROUP"
  const BLUE_TEST_LOC: FlatDb.SpawnLoc := FlatDb.AtTrigger(TEST_ZONE, Vector2(100.0, 100.0))
  const RED_TEST_LOC: FlatDb.SpawnLoc := FlatDb.AtTrigger(TEST_ZONE, Vector2(-100.0, -100.0))

  /** The save file's path: the sortie's file name under the engine's write directory. */
  function SavePath(writeDir: string, sortie: string): string {
    writeDir + "\\" + sortie
  }

  /**
    The effect of `spawn_new`, from the store `before` and counters `g0`,
    `u0` to the store `after` and counters `g`, `u`: nothing spawned and
    nothing changed when the blue template or the test zone is missing;
    otherwise the blue group is stored and requested at the zone offset by
    (100, 100), and only when the engine took it and the red template
    exists is the red group stored and requested at the zone offset by
    (-100, -100).
  */
  ghost predicate TestGroupsSpawned(m: FlatDb.Mission, engine: FlatDb.TemplateGroup -> bool,
                                    before: FlatDb.Store, dirtyBefore: bool, g0: nat, u0: nat,
                                    r: Result<(), string>, spawned: seq<FlatDb.TemplateGroup>,
                                    after: FlatDb.Store, dirty: bool, g: nat, u: nat)
  {
    var blue := (FlatDb.Vehicle, Blue, BLUE_TEST_GROUP);
    var red := (FlatDb.Vehicle, Red, RED_TEST_GROUP);
    && g0 < Ids.U64_MODULUS && u0 < Ids.U64_MODULUS
    && |spawned| <= 2
    && (spawned == [] <==> blue !in m.templates || TEST_ZONE !in m.zones)
    && (spawned == [] ==> r.Err? && after == before && dirty == dirtyBefore && g == g0 && u == u0)
    && (spawned != [] ==>
          var zone := m.zones[TEST_ZONE];
          var btg := m.templates[blue];
          var bstore := FlatDb.SpawnStore(before, btg, BLUE_TEST_GROUP, Blue, FlatDb.Vehicle,
                                          g0, u0, Add(zone, Vector2(100.0, 100.0)));
          && spawned[0] == FlatDb.SpawnRequest(btg, Decimal.Suffixed(BLUE_TEST_GROUP, g0), u0,
                                               Add(zone, Vector2(100.0, 100.0)))
          && dirty
          && (|spawned| == 2 <==> engine(spawned[0]) && red in m.templates)
          && (|spawned| == 1 ==>
                r.Err? && after == bstore && g == Ids.Bump(g0) && u == Ids.Nth(u0, |btg.units|))
          && (|spawned| == 2 ==>
                var rtg := m.templates[red];
                var g1, u1 := Ids.Bump(g0), Ids.Nth(u0, |btg.units|);
                && spawned[1] == FlatDb.SpawnRequest(rtg, Decimal.Suffixed(RED_TEST_GROUP, g1), u1,
                                                     Add(zone, Vector2(-100.0, -100.0)))
                && after == FlatDb.SpawnStore(bstore, rtg, RED_TEST_GROUP, Red, FlatDb.Vehicle,
                                              g1, u1, Add(zone, Vector2(-100.0, -100.0)))
                && g == Ids.Bump(g1) && u == Ids.Nth(u1, |rtg.units|)
                && (r.Ok? <==> engine(spawned[1]))))
  }

  /** The outcome of a run of respawns: the first error, if any, and the templates handed to the engine. */
  datatype Startup = Startup(status: Result<(), string>, spawned: seq<FlatDb.TemplateGroup>)

  /** `respawn_groups` over the ids `ids`, in order, stopping at the first error. */
  function RespawnAll(m: FlatDb.Mission, s: FlatDb.Store, engine: FlatDb.TemplateGroup -> bool, ids: seq<FlatDb.GroupId>)
    : Startup
    requires forall i :: 0 <= i < |ids| ==> ids[i] in s.groupsById
  {
    if ids == [] then Startup(Ok(()), [])
    else
      var done := RespawnAll(m, s, engine, ids[..|ids| - 1]);
      if done.status.Err? then done
      else
        match FlatDb.RespawnRequest(m, s, s.groupsById[ids[|ids| - 1]])
        case Err(e) => Startup(Err(e), done.spawned)
        case Ok(q) =>
          Startup(FlatDb.SpawnOutcome(q, engine), done.spawned + (if q.Some? then [q.value] else []))
  }

  /** One more group of the walk, after the earlier ones all succeeded. */
  lemma RespawnAllStep(m: FlatDb.Mission, s: FlatDb.Store, engine: FlatDb.TemplateGroup -> bool,
                       ids: seq<FlatDb.GroupId>, i: nat)
    requires forall k :: 0 <= k < |ids| ==> ids[k] in s.groupsById
    requires i < |ids| && RespawnAll(m, s, engine, ids[..i]).status.Ok?
    ensures var req := FlatDb.RespawnRequest(m, s, s.groupsById[ids[i]]);
      var done := RespawnAll(m, s, engine, ids[..i]);
      RespawnAll(m, s, engine, ids[..i + 1]) ==
        if req.Err? then Startup(Err(req.error), done.spawned)
        else Startup(FlatDb.SpawnOutcome(req.value, engine), done.spawned + (if req.value.Some? then [req.value.value] else []))
  {
    assert ids[..i + 1][..i] == ids[..i];
  }

  /** Once a respawn failed, the later ones are not attempted. */
  lemma {:induction false} RespawnAllStops(m: FlatDb.Mission, s: FlatDb.Store, engine: FlatDb.TemplateGroup -> bool,
                                           ids: seq<FlatDb.GroupId>, k: nat)
    requires forall i :: 0 <= i < |ids| ==> ids[i] in s.groupsById
    requires k <= |ids| && RespawnAll(m, s, engine, ids[..k]).status.Err?
    ensures RespawnAll(m, s, engine, ids) == RespawnAll(m, s, engine, ids[..k])
  {
    if k < |ids| {
      var init := ids[..|ids| - 1];
      assert init[..k] == ids[..k];
      RespawnAllStops(m, s, engine, init, k);
    } else {
      assert ids[..k] == ids;
    }
  }

  /**
    A run of respawns that succeeds found every group's template, had every
    spawn accepted, and handed the engine each group that keeps a unit.
  */
  lemma {:induction false} RespawnAllCovers(m: FlatDb.Mission, s: FlatDb.Store, engine: FlatDb.TemplateGroup -> bool,
                                            ids: seq<FlatDb.GroupId>)
    requires forall i :: 0 <= i < |ids| ==> ids[i] in s.groupsById
    ensures RespawnAll(m, s, engine, ids).status.Ok? ==> forall i :: 0 <= i < |ids| ==>
      var req := FlatDb.RespawnRequest(m, s, s.groupsById[ids[i]]);
      && req.Ok?
      && FlatDb.SpawnOutcome(req.value, engine).Ok?
      && (req.value.Some? ==> req.value.value in RespawnAll(m, s, engine, ids).spawned)
  {
    if ids != [] && RespawnAll(m, s, engine, ids).status.Ok? {
      var init := ids[..|ids| - 1];
      var done := RespawnAll(m, s, engine, init);
      assert done.status.Ok?;
      RespawnAllCovers(m, s, engine, init);
      var r := RespawnAll(m, s, engine, ids);
      forall i | 0 <= i < |ids|
        ensures var req := FlatDb.RespawnRequest(m, s, s.groupsById[ids[i]]);
          && req.Ok? && FlatDb.SpawnOutcome(req.value, engine).Ok?
          && (req.value.Some? ==> req.value.value in r.spawned)
      {
        if i < |init| {
          assert ids[i] == init[i];
          var req := FlatDb.RespawnRequest(m, s, s.groupsById[ids[i]]);
          if req.Ok? && req.value.Some? {
            assert req.value.value in done.spawned;
          }
        }
      }
    }
  }

  /** A start-up from a save file that succeeds respawned every stored group that keeps a unit. */
  lemma RestoreRespawnsEveryGroup(m: FlatDb.Mission, s: FlatDb.Store, engine: FlatDb.TemplateGroup -> bool)
    ensures var ids := Ids.Ascending(s.groupsById.Keys);
      (forall i :: 0 <= i < |ids| ==> ids[i] in s.groupsById) &&
      (RespawnAll(m, s, engine, ids).status.Ok? ==> forall g :: g in s.groupsById ==>
         var req := FlatDb.RespawnRequest(m, s, s.groupsById[g]);
         req.Ok? && (req.value.Some? ==> req.value.value in RespawnAll(m, s, engine, ids).spawned))
  {
    var ids := Ids.Ascending(s.groupsById.Keys);
    Ids.AscendingIds(s.groupsById.Keys);
    RespawnAllCovers(m, s, engine, ids);
    forall g | g in s.groupsById && RespawnAll(m, s, engine, ids).status.Ok?
      ensures var req := FlatDb.RespawnRequest(m, s, s.groupsById[g]);
        req.Ok? && (req.value.Some? ==> req.value.value in RespawnAll(m, s, engine, ids).spawned)
    {
      var i :| 0 <= i < |ids| && ids[i] == g;
    }
  }

  // ---------------------------------------------------------------------
  // The context object
  // ---------------------------------------------------------------------

  class Context {
    var db: FlatDb.Db
    var unitsByObjId: map<int, FlatDb.UnitId>
    /** The tasks sent to the background thread, oldest first. */
    var toBackground: seq<BgTask>
    /** The process-wide group and unit id counters. */
    var gids: Ids.IdAllocator
    var uids: Ids.IdAllocator

    ghost predicate Valid()
      reads this, gids, uids
    {
      gids != uids && gids.Valid() && uids.Valid()
    }

    function State(): HostState
      reads this, db
    {
      HostState(unitsByObjId, db.store, db.dirty, toBackground)
    }

    /** `Context::default()`, with both counters at zero. */
    constructor ()
      ensures Valid() && fresh(db) && fresh(gids) && fresh(uids)
      ensures State() == HostState(map[], FlatDb.EMPTY_STORE, false, [])
      ensures gids.next == 0 && uids.next == 0
    {
      db := new FlatDb.Db();
      unitsByObjId := map[];
      toBackground := [];
      gids := new Ids.IdAllocator();
      uids := new Ids.IdAllocator();
    }

    /** `on_event` */
    method OnEvent(ev: Event)
      modifies this, db
      ensures db == old(db) && gids == old(gids) && uids == old(uids)
      ensures State() == Reconcile(old(State()), ev)
    {
      match ev
      case Birth(UnitObject(name, oid)) =>
        var su := FlatDb.UnitByName(db.store, name);
        if su.Some? {
          unitsByObjId := unitsByObjId[oid := su.value.id];
        }
      case Dead(UnitObject(_, oid)) =>
        if oid in unitsByObjId {
          var uid := unitsByObjId[oid];
          unitsByObjId := unitsByObjId - {oid};
          db.UnitDead(uid, true);
        }
      case _ =>
    }

    /** The timer closure: returns when it wants to run next. */
    method SnapshotTick(path: string, now: real) returns (next: real)
      modifies this, db
      ensures db == old(db) && gids == old(gids) && uids == old(uids)
      ensures State() == Tick(old(State()), path)
      ensures next == now + 10.0
    {
      var snap := db.MaybeSnapshot();
      if snap.Some? {
        toBackground := toBackground + [SaveState(path, snap.value)];
      }
      next := now + 10.0;
    }

    /**
      `spawn_new`: the blue test group at the test zone offset by (100, 100),
      then, unless that failed, the red one offset by (-100, -100), both
      vehicle groups.
    */
    method SpawnNew(m: FlatDb.Mission, engine: FlatDb.TemplateGroup -> bool)
      returns (r: Result<(), string>, spawned: seq<FlatDb.TemplateGroup>)
      requires Valid()
      modifies db, gids, uids
      ensures Valid()
      ensures TestGroupsSpawned(m, engine, old(db.store), old(db.dirty), old(gids.next), old(uids.next),
                                r, spawned, db.store, db.dirty, gids.next, uids.next)
    {
      var b, breq := db.SpawnTemplateAsNew(m, Blue, FlatDb.Vehicle, BLUE_TEST_LOC, BLUE_TEST_GROUP, gids, uids, engine);
      spawned := if breq.Some? then [breq.value] else [];
      if b.Err? {
        return Err(b.error), spawned;
      }
      var red, rreq := db.SpawnTemplateAsNew(m, Red, FlatDb.Vehicle, RED_TEST_LOC, RED_TEST_GROUP, gids, uids, engine);
      if rreq.Some? {
        spawned := spawned + [rreq.value];
      }
      r := if red.Err? then Err(red.error) else Ok(());
    }

    /** `respawn_groups`: every stored group in ascending id order, stopping at the first error. */
    method RespawnGroups(m: FlatDb.Mission, engine: FlatDb.TemplateGroup -> bool)
      returns (r: Result<(), string>, spawned: seq<FlatDb.TemplateGroup>)
      ensures var ids := Ids.Ascending(db.store.groupsById.Keys);
        (forall i :: 0 <= i < |ids| ==> ids[i] in db.store.groupsById) &&
        Startup(r, spawned) == RespawnAll(m, db.store, engine, ids)
    {
      var store := db.store;
      var ids := Ids.Ascending(store.groupsById.Keys);
      Ids.AscendingIds(store.groupsById.Keys);
      r, spawned := Ok(()), [];
      var i := 0;
      while i < |ids|
        invariant 0 <= i <= |ids|
        invariant Startup(r, spawned) == RespawnAll(m, store, engine, ids[..i])
        invariant r.Ok?
      {
        RespawnAllStep(m, store, engine, ids, i);
        var res, req := db.RespawnGroup(m, store.groupsById[ids[i]], engine);
        if req.Some? {
          spawned := spawned + [req.value];
        }
        if res.Err? {
          r := res;
          RespawnAllStops(m, store, engine, ids, i + 1);
          return;
        }
        i := i + 1;
      }
      assert ids[..i] == ids;
    }

    /**
      `init_miz_`, once the event handler is registered: an empty sortie
      fails; otherwise the timer is armed for ten seconds on, carrying the
      save path, and then either the test groups are spawned (no save file)
      or the saved database replaces the current one and its groups are
      respawned. `saveFile` is `None` when the path does not exist, and the
      load's error or decoded store otherwise.
    */
    method InitMiz(m: FlatDb.Mission, sortie: string, writeDir: string, now: real,
                   saveFile: Option<Result<FlatDb.Store, string>>, engine: FlatDb.TemplateGroup -> bool)
      returns (r: Result<(), string>, timer: Option<(string, real)>, spawned: seq<FlatDb.TemplateGroup>)
      requires Valid()
      requires saveFile.Some? && saveFile.value.Ok? ==>
        (forall g :: g in saveFile.value.value.groupsById ==> g < Ids.U64_MODULUS) &&
        (forall u :: u in saveFile.value.value.unitsById ==> u < Ids.U64_MODULUS)
      modifies this, db, gids, uids
      ensures Valid() && gids == old(gids) && uids == old(uids)
      ensures unitsByObjId == old(unitsByObjId) && toBackground == old(toBackground)
      ensures sortie == "" ==>
        && r == Err("missing sortie in miz file") && timer == None && spawned == []
        && db == old(db) && db.store == old(db.store) && db.dirty == old(db.dirty)
        && gids.next == old(gids.next) && uids.next == old(uids.next)
      ensures sortie != "" ==> timer == Some((SavePath(writeDir, sortie), now + 10.0))
      ensures sortie != "" && saveFile.Some? && saveFile.value.Err? ==>
        && r == Err(saveFile.value.error) && spawned == []
        && db == old(db) && db.store == old(db.store) && db.dirty == old(db.dirty)
        && gids.next == old(gids.next) && uids.next == old(uids.next)
      ensures sortie != "" && saveFile.Some? && saveFile.value.Ok? ==>
        var saved := saveFile.value.value;
        var ids := Ids.Ascending(saved.groupsById.Keys);
        && fresh(db) && db.store == saved && !db.dirty
        && ((forall g :: g in saved.groupsById ==> g + 1 < Ids.U64_MODULUS) ==>
              Ids.FloorAfter(old(gids.next), saved.groupsById.Keys, gids.next))
        && ((forall u :: u in saved.unitsById ==> u + 1 < Ids.U64_MODULUS) ==>
              Ids.FloorAfter(old(uids.next), saved.unitsById.Keys, uids.next))
        && (forall i :: 0 <= i < |ids| ==> ids[i] in saved.groupsById)
        && Startup(r, spawned) == RespawnAll(m, saved, engine, ids)
      ensures sortie != "" && saveFile.None? ==>
        db == old(db) &&
        TestGroupsSpawned(m, engine, old(db.store), old(db.dirty), old(gids.next), old(uids.next),
                          r, spawned, db.store, db.dirty, gids.next, uids.next)
    {
      if sortie == "" {
        return Err("missing sortie in miz file"), None, [];
      }
      var path := SavePath(writeDir, sortie);
      timer := Some((path, now + 10.0));
      if saveFile.None? {
        r, spawned := SpawnNew(m, engine);
      } else if saveFile.value.Err? {
        r, spawned := Err(saveFile.value.error), [];
      } else {
        db := new FlatDb.Db.Load(saveFile.value.value, gids, uids);
        r, spawned := RespawnGroups(m, engine);
      }
    }
  }
}
