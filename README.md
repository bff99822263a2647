# mercs — a Dafny model of the mission database and its scripting bridge

This project models the core of *mercs*, a mission server for a flight simulator, written in Rust. The core is made of three things.

- **The Lua bridge** (`src/dcs/mod.rs`, `src/dcs/group.rs`, `dcso3/src/coalition.rs`, `src/lib.rs`). These are the conversions between engine values and Rust values:
  - integer-coded enumerations (`simple_enum!`);
  - string-coded enumerations with a custom fallback (`string_enum!`);
  - the class-chain check behind `as_tbl`;
  - the coercion of values to strings;
  - coalition sides with their text names, opposites and service codes;
  - group categories and objective owners;
  - the Lua-to-JSON converter `to_json`.
- **The flat database** (`bflib/src/db.rs`) and **the mission host** (`bflib/src/lib.rs`).
  - The database stores spawned groups and units under ids and names. It is loaded from a save file, snapshotted when dirty, and spawns templates either as new groups or as respawns of saved ones.
  - The host routes engine birth and death events into the database and runs the ten-second snapshot timer. At start-up it either spawns two test groups or restores a saved database.
- **The newer group database** (`bflib/src/db/group.rs`). It covers:
  - adding a group from a template, with water checks, unit classification, categorisation by origin and marking;
  - deleting a group with everything that refers to it;
  - marks;
  - unit births and deaths, including the wipe-out of a player-deployed group;
  - group health;
  - the position sweep over units.

The modules follow the program. Here is what each one holds.

| Module | Holds |
|---|---|
| `Wrappers` | `Option`, `Result` |
| `Decimal` | integer text and its parser; the `"{prefix}-{id}"` names |
| `Ids` | the process-wide id counters, with the 64-bit wrap-around written out; the ordered walk over an id set |
| `Vectors` | 2-D and 3-D points |
| `Coalition` | sides, services |
| `LuaValues` | the Lua value model and the conversion macros |
| `DcsGroup` | group categories, owners |
| `LuaJson` | the JSON converter |
| `FlatDb` | the flat database |
| `Host` | the mission host |
| `GroupDb` | the newer group database |

Where the source mutates an object, the model does too:
- `Ids.IdAllocator` is a class with its counter;
- `FlatDb.Db` is a class with its store and dirty flag;
- `GroupDb.Db` is a class with its persisted and ephemeral parts;
- `Host.Context` is a class with the database, the object-id map, the queue to the background thread and the two counters.

Each such method is proved against a specification function of the old state. The properties are proved about those functions. Examples:
- a delete undoes an add;
- a delete leaves no trace of the group;
- a spawn keeps the store's indices consistent;
- names find the entities stored under them;
- a respawn keeps exactly the living units.

The loops of the source stay loops:
- the class-chain walk;
- the table walk of `to_json`;
- the unit loops of both spawns and of `delete_group`;
- the position sweep;
- the marking of moved groups;
- the respawn walk at start-up;
- the replay of saved ids.

`Coalition.DefaultSide` is the `Default` of `Side` (Red). `ToStr`, `FromStr` and `Opposite` are modelled as functions. The lemmas in the table below state their properties.

Engine queries are parameters of the operations that use them:
- the surface type and terrain height at a point;
- trigger zones;
- whether an object is still alive, and its pose;
- the heading computed from a pose;
- whether the engine accepted a spawn request;
- the layout of units around a trigger zone.

## Model

| member | source | states |
|---|---|---|
| Coalition.Code | dcso3/src/coalition.rs:29-30 | every side has a code 0..6, its arm in the code table and its place in `SIDES` agree with it |
| Coalition.SideArmsWellFormed | dcso3/src/coalition.rs:29 | the side arms have distinct codes that fit in a `u8` |
| Coalition.CodesAreDistinct | dcso3/src/coalition.rs:29-30 | different sides have different codes; `SIDES` lists all seven sides in code order |
| Coalition.SideIntoLua | dcso3/src/coalition.rs:29 | a side is handed to Lua as the integer of its code |
| Coalition.SideFromInteger | dcso3/src/coalition.rs:29 | an integer decodes to a side exactly when it is 0..6, and then to the side with that code |
| Coalition.SideRoundTrip | dcso3/src/coalition.rs:29 | decoding an encoded side gives the side back |
| Coalition.ToStrInjective | dcso3/src/coalition.rs:57-68 | different sides have different text names |
| Coalition.FromStrToStr | dcso3/src/coalition.rs:44-68 | parsing the name of Blue, Red or Neutral gives the side back |
| Coalition.FromStrAccepts | dcso3/src/coalition.rs:44-55 | parsing accepts exactly "blue", "red" and "neutrals", whose names round-trip; the names of the other four sides are rejected |
| Coalition.OppositeInvolution | dcso3/src/coalition.rs:70-80 | among Red, Blue and Neutral the opposite is an involution, and Red and Blue are not their own opposite |
| Coalition.OppositeOfOthers | dcso3/src/coalition.rs:70-80 | Green's opposite is Neutral, each mercenary side's is Green, and no side's opposite is a mercenary side |
| Coalition.ServiceCodes | dcso3/src/coalition.rs:89 | Service codes are not in declaration order: 3 is Fac and 2 is Tanker; 4 is rejected |
| DcsGroup.CategoryRoundTrip | src/dcs/group.rs:5-32 | decoding an encoded category gives it back |
| DcsGroup.CategoryDecodes | src/dcs/group.rs:21-32 | a value decodes exactly when it is an integer 0..4, and it re-encodes to that same value; other `u32` integers are rejected as `GroupCategory` |
| DcsGroup.OwnerDecodes | src/dcs/group.rs:34-47 | an integer decodes exactly when it is 0..6; 3 is Contested, the others the side with that code; Green is never an owner |
| DcsGroup.OwnerRoundTrip | src/dcs/group.rs:34-47 | every owner other than Green is decoded from its own encoding |
| DcsGroup.OwnerRejectsNonIntegers | src/dcs/group.rs:40-47 | a non-integer fails with the `u32` conversion error |
| Decimal.DigitChar | src/dcs/mod.rs:280-281 | the character of a digit is a digit of that value |
| Decimal.NatText | src/dcs/mod.rs:281 | a natural number's text is non-empty, all digits, with no leading zero |
| Decimal.IntText | src/dcs/mod.rs:281 | an integer's text is non-empty and starts with '-' exactly when it is negative |
| Decimal.ParseNatText | src/dcs/mod.rs:281 | parsing a natural number's text gives the number back |
| Decimal.ParseIntText | src/dcs/mod.rs:281 | parsing an integer's text gives the integer back |
| Decimal.NatTextInjective | src/dcs/mod.rs:281 | different numbers have different texts |
| Decimal.IntTextInjective | src/dcs/mod.rs:281 | different integers have different texts |
| Decimal.SuffixedShape | bflib/src/db/group.rs:427 | a name `"{prefix}-{id}"` has '-' right after the prefix and only digits after it |
| Decimal.SuffixedInjective | bflib/src/db/group.rs:427-444 | equal suffixed names have equal prefixes and equal ids, so names drawn from distinct ids never collide |
| Ids.Bump | bflib/src/db.rs:49-51 | drawing an id moves the 64-bit counter up by one, wrapping to 0 after 2^64-1 |
| Ids.Observe | bflib/src/db.rs:53-58 | observing an id keeps the counter a 64-bit value |
| Ids.ObserveRaises | bflib/src/db.rs:53-58 | after observing an id the counter is above it and never lower than before; it is either unchanged or the id plus one |
| Ids.ObserveIdempotent | bflib/src/db.rs:53-58 | observing the same id twice is the same as once |
| Ids.FloorAfterUnique | bflib/src/db.rs:198-203 | the counter value after replaying an id set is determined by the start value and the set |
| Ids.IdAllocator.constructor | bflib/src/db.rs:42-46 | a fresh counter starts at 0 |
| Ids.IdAllocator.New | bflib/src/db.rs:49-51 | returns the counter's value and bumps it |
| Ids.IdAllocator.UpdateMax | bflib/src/db.rs:53-58 | raises the counter past the id when it is not already past it |
| Ids.TwoIdsIncrease | bflib/src/db.rs:49-51 | two ids drawn in a row increase and both lie below the new counter |
| Ids.NthNoWrap | bflib/src/db.rs:341-347 | below the wrap-around point the i-th id drawn from `first` is `first + i` |
| Ids.NthStep | bflib/src/db.rs:341-347 | drawing one more id gives the next id of the series |
| Ids.DrawnRange | bflib/src/db.rs:341-347 | below the wrap-around point the ids drawn for n units are `first .. first + n - 1` |
| Ids.NthFresh | bflib/src/db.rs:341-347 | the next id to be drawn is not among those already drawn |
| Ids.SuffixedNamesShape | bflib/src/db.rs:341-364 | the name index entries added for drawn ids map `"{prefix}-{uid}"` to `uid`, one for each drawn id |
| Ids.Largest | bflib/src/db.rs:198-203 | returns a witness: an element of the non-empty id set that is at least every element |
| Ids.MaxExists | bflib/src/db.rs:198-203 | states only that a maximum exists, so that `MaxOf` can choose it |
| Ids.MaxOf | bflib/src/db.rs:198-203 | the maximum of an id set is in the set and at least every element |
| Ids.AscendingIds | bflib/src/lib.rs:98-104 | the ordered walk over an id set visits exactly its elements, strictly ascending |
| LuaValues.RawGet | src/dcs/mod.rs:135-148 | a raw lookup yields nil or a value stored under that string key, which is smaller than the table |
| LuaValues.StoredIsSmaller | src/dcs/mod.rs:135-148 | a value stored in a table is smaller than the table; since tables are assumed finite and acyclic (see "## Left out"), walking parent classes terminates |
| LuaValues.RawGetFrom | src/dcs/mod.rs:135-148 | the lookup over a list of pairs yields nil or a value paired with the key |
| LuaValues.StringFromBoolean | src/dcs/mod.rs:280 | a boolean converts to "true" or "false" |
| LuaValues.StringFromInteger | src/dcs/mod.rs:281 | an integer converts to text that parses back to it |
| LuaValues.Chain | src/dcs/mod.rs:135-148 | the class chain of a table starts with the table itself |
| LuaValues.NamedCons | src/dcs/mod.rs:135-148 | a chain names a class exactly when its head or its rest does |
| LuaValues.ImplementsStep | src/dcs/mod.rs:135-148 | a table implements a class exactly when its own class name is that class, or its parent class is a table that implements it |
| LuaValues.CheckImplements | src/dcs/mod.rs:135-148 | the loop answers true exactly when the table implements the class |
| LuaValues.StopsAtMissingParent | src/dcs/mod.rs:141-143 | a table with another class name and no parent table does not implement the class |
| LuaValues.MissingClassNameReadsNil | src/dcs/mod.rs:137-139 | a missing class name is read as "nil" |
| LuaValues.AsTbl | src/dcs/mod.rs:150-179 | non-tables fail with the conversion error; without a type any table is accepted; with a type a table without a metatable fails as "not an object", and one with a metatable is accepted exactly when the metatable implements the type |
| LuaValues.IntFromLua | src/dcs/mod.rs:64-71 | an integer decodes exactly when it fits the representation, and to itself |
| LuaValues.LiteralBound | src/dcs/mod.rs:54-79 | the literal of a listed case fits the representation and is that case's own arm |
| LuaValues.CaseOfLiteral | src/dcs/mod.rs:64-71 | decoding any arm's literal gives that arm's case |
| LuaValues.CaseOfMissing | src/dcs/mod.rs:64-71 | a number no arm lists decodes to nothing |
| LuaValues.SimpleRoundTrip | src/dcs/mod.rs:54-79 | an integer-coded enumeration decodes the encoding of each case back to that case |
| LuaValues.SimpleRejectsUnlisted | src/dcs/mod.rs:64-71 | a representable number no arm lists fails with the enumeration's conversion error |
| LuaValues.LookupFound | src/dcs/mod.rs:98-107 | a listed text is matched by its first arm |
| LuaValues.LookupMissing | src/dcs/mod.rs:98-107 | an unlisted text matches no arm |
| LuaValues.TextOfArm | src/dcs/mod.rs:109-116 | each primary case is encoded as its own text |
| LuaValues.StringEnumKeepsText | src/dcs/mod.rs:98-116 | a text that is primary, or not an alternate, re-encodes to itself |
| LuaValues.StringEnumNormalisesAlternate | src/dcs/mod.rs:98-116 | an alternate text decodes to its case, which re-encodes to the case's primary text |
| LuaValues.StringEnumCustom | src/dcs/mod.rs:98-116 | an unlisted text becomes `Custom` and re-encodes to itself |
| LuaValues.StringEnumRoundTrip | src/dcs/mod.rs:98-116 | each primary case round-trips through its text |
| LuaJson.LessIrreflexive | src/lib.rs:19 | the key order is irreflexive |
| LuaJson.LessTransitive | src/lib.rs:19 | the key order is transitive |
| LuaJson.LessTotal | src/lib.rs:19 | the key order is total |
| LuaJson.KeysCons | src/lib.rs:19 | the keys of an entry list are its head's key and the rest's keys |
| LuaJson.InsertFacts | src/lib.rs:27 | inserting a key adds it, maps it to the new value and leaves every other key untouched |
| LuaJson.InsertSorted | src/lib.rs:27 | inserting into a sorted object keeps it sorted |
| LuaJson.SortedCons | src/lib.rs:27 | an entry whose key is below every key of a sorted list can be put in front |
| LuaJson.KeysAbove | src/lib.rs:27 | a key below every key of a list is below each entry's key |
| LuaJson.SortedUnique | src/lib.rs:19-29 | a sorted object never holds a key twice |
| LuaJson.ObjectOfStep | src/lib.rs:20-28 | each pair of the walk inserts its converted key and value |
| LuaJson.ObjectOfSorted | src/lib.rs:19-29 | the object built from any prefix of the walk is sorted |
| LuaJson.ToJson | src/lib.rs:5-32 | the converter computes the JSON value of every Lua value |
| LuaJson.ScalarCases | src/lib.rs:8-17 | nil, booleans, integers, strings and errors convert to their JSON counterparts; light user data, user data, functions and threads to their placeholder strings |
| LuaJson.NeverAnArray | src/lib.rs:5-32 | no value becomes an array; exactly tables become objects, and their entries are sorted |
| LuaJson.FoldSorted | src/lib.rs:19-29 | folding entries into an object yields a sorted object |
| LuaJson.FoldGet | src/lib.rs:27 | a key of the folded object holds the last value given for it |
| LuaJson.LastInFinds | src/lib.rs:27 | a key has a last value exactly when some entry has it, and that entry has no later entry for the key |
| LuaJson.ObjectOfFold | src/lib.rs:19-29 | the table walk is a fold of the converted pairs |
| LuaJson.LastForFinds | src/lib.rs:20-28 | a key is present exactly when some pair of the table converts to it |
| LuaJson.LastForIsLast | src/lib.rs:20-28 | the value under a key is that of the last pair converting to it |
| LuaJson.LaterPairWins | src/lib.rs:20-28 | looking up a key in the object yields the last pair's value |
| LuaJson.KeyTexts | src/lib.rs:22-25 | a string key is kept as is; an integer key becomes its decimal text, which parses back; `true` becomes "true" |
| LuaJson.IntegerKeyCollides | src/lib.rs:22-27 | the integer key 1 and the string key "1" collide, and the later pair wins |
| FlatDb.GroupByName | bflib/src/db.rs:250-252 | a group is found by name exactly when the name index maps it to a stored id, and it is then a stored group |
| FlatDb.UnitByName | bflib/src/db.rs:258-260 | a unit is found by name exactly when the name index maps it to a stored id, and it is then a stored unit |
| FlatDb.NamesFindEntities | bflib/src/db.rs:250-260 | in a valid store every group and unit is found under its own name |
| FlatDb.MarkDead | bflib/src/db.rs:229-240 | sets the dead flag of one unit when it is stored; every other unit and the key set stay as they were |
| FlatDb.SameButDeadValid | bflib/src/db.rs:229-240 | changing only dead flags keeps a store valid |
| FlatDb.MarkDeadKeepsValid | bflib/src/db.rs:229-240 | marking a unit dead or alive keeps a store valid |
| FlatDb.AsWrittenReversesOffsets | bflib/src/db.rs:346-347 | the placement as written reverses every offset between two units |
| FlatDb.AsWrittenMirrors | bflib/src/db.rs:346-347 | the placement as written reflects each unit's offset through the target; the corrected one translates it, and the two differ for every unit off the group's position |
| FlatDb.PlaceUnitOffset | bflib/src/db.rs:346-347 | the corrected placement keeps the unit's offset from the group position |
| FlatDb.PlaceUnitKeepsFormation | bflib/src/db.rs:346-347 | the corrected placement keeps every offset between two units |
| FlatDb.PlacementsReflect | bflib/src/db.rs:346-347 | the as-written and corrected placements are reflections of each other through the target, so each gives the other |
| FlatDb.SpawnTarget | bflib/src/db.rs:320-325 | a position is used as given; a trigger zone is looked up and offset, or is an error when missing |
| FlatDb.NewUnitsShape | bflib/src/db.rs:341-362 | the units the loop stores are exactly those under the drawn ids, each under its own id, in the new group, named `"{group}-{uid}"`, alive |
| FlatDb.NewUnitsKeys | bflib/src/db.rs:341-362 | the units the loop stores are keyed by exactly the drawn ids |
| FlatDb.NewUnitsAt | bflib/src/db.rs:341-362 | below the wrap-around point template unit i is stored under id `first + i` |
| FlatDb.PlacedUnitsAt | bflib/src/db.rs:341-362 | the request holds one unit per template unit, renamed and placed |
| FlatDb.SpawnKeepsValid | bflib/src/db.rs:308-368 | a spawn into a valid store with counters above every stored id yields a valid store with the counters advanced; the side index is not touched |
| FlatDb.SpawnIds | bflib/src/db.rs:326-364 | every stored id stays below the advanced counters |
| FlatDb.SpawnMembership | bflib/src/db.rs:333-364 | groups and units still refer to each other |
| FlatDb.SpawnUnitsGrouped | bflib/src/db.rs:333-364 | every unit still belongs to a stored group |
| FlatDb.SpawnMembersStored | bflib/src/db.rs:333-364 | every member of a group is still a stored unit |
| FlatDb.SpawnNaming | bflib/src/db.rs:327-364 | names stay unique and group-prefixed |
| FlatDb.SpawnNameIndices | bflib/src/db.rs:363-364 | the name indices still map names to the entities carrying them |
| FlatDb.SpawnSideIndex | bflib/src/db.rs:308-368 | the side index is unchanged and still refers to stored groups |
| FlatDb.SpawnedGroupFound | bflib/src/db.rs:326-340 | the new group is found under `"{template}-{gid}"` with the drawn unit ids |
| FlatDb.SpawnedUnitFound | bflib/src/db.rs:341-364 | each new unit is found under its own name |
| FlatDb.SpawnedUnitAsWritten | bflib/src/db.rs:341-364 | the position the source stores for each new unit is the stored unit's position reflected through the target |
| FlatDb.RequestAsWritten | bflib/src/db.rs:341-366 | the position the source requests for each unit is the requested position reflected through the target |
| FlatDb.ByTemplateNameMembers | bflib/src/db.rs:272-284 | the index of living members by template name holds exactly the living members' template names, each mapped to one of them |
| FlatDb.ByTemplateNameLargest | bflib/src/db.rs:272-284 | a living member's template name maps to that member or one with a larger id |
| FlatDb.KeptStep | bflib/src/db.rs:285-300 | one loop step removes a dead template unit, or moves a living one and advances the index |
| FlatDb.KeptIsFilter | bflib/src/db.rs:285-300 | the kept list is the template units with a living counterpart, at strictly ascending indices that are exactly those units' indices, each unchanged but for its saved position; it is empty exactly when none lives |
| FlatDb.KeptInOrder | bflib/src/db.rs:285-300 | the k-th kept unit is the template unit at the k-th index of a strictly ascending list that holds exactly the indices of the living template units, moved to its saved position |
| FlatDb.KeptSound | bflib/src/db.rs:285-300 | only living units are kept, at their saved positions |
| FlatDb.KeptComplete | bflib/src/db.rs:285-300 | every living template unit is kept at its saved position |
| FlatDb.KeptEmpty | bflib/src/db.rs:285-300 | the kept list is empty exactly when no template unit lives |
| FlatDb.RespawnRequestKeepsLiving | bflib/src/db.rs:262-306 | a respawn requests nothing exactly when no unit lives; otherwise it requests the group under its own name, active, holding exactly the living template units in template order, each unchanged but for its saved position, with the group placed at the last kept unit |
| FlatDb.AddStep | bflib/src/db.rs:341-362 | one loop step stores the next unit and its name, draws its id and adds its placed unit to the request |
| FlatDb.Db.constructor | bflib/src/db.rs:177-186 | a new database is empty and clean |
| FlatDb.Db.Load | bflib/src/db.rs:189-205 | loads the saved store clean, and raises both counters past every saved id |
| FlatDb.Db.MaybeSnapshot | bflib/src/db.rs:220-227 | a dirty database hands out its store and becomes clean; a clean one hands out nothing |
| FlatDb.Db.UnitDead | bflib/src/db.rs:229-240 | sets the unit's dead flag and makes the database dirty |
| FlatDb.Db.SpawnTemplateAsNew | bflib/src/db.rs:308-368 | a missing template or trigger zone is an error that changes nothing; otherwise one group id and one unit id per template unit are drawn, the new group and units are stored, the database is dirty, and the renamed, placed request goes to the engine, whose answer is the result |
| FlatDb.Db.SpawnAt | bflib/src/db.rs:326-366 | the spawn at a resolved position: ids drawn, store extended, request made |
| FlatDb.Db.AddTemplateUnits | bflib/src/db.rs:341-364 | the unit loop stores the new units and their names and advances the unit counter by the template's size |
| FlatDb.Db.DrawUnits | bflib/src/db.rs:341-362 | the unit loop draws one id per template unit and builds the exact new units, name entries and placed units |
| FlatDb.Db.RespawnGroup | bflib/src/db.rs:262-306 | a missing template is an error; otherwise the request holds the living units and the engine's answer is the result |
| FlatDb.Replay | bflib/src/db.rs:198-203 | replaying saved ids leaves the counter past every one of them |
| Host.BirthMapsNamedUnit | bflib/src/lib.rs:141-150 | a birth under a stored name maps the object id to the unit of that name, leaving the database alone; under an unknown name it changes nothing |
| Host.DeadMarksMappedUnit | bflib/src/lib.rs:151-158 | a death of a mapped object drops the mapping and marks that unit dead, touching no other unit; an unmapped object changes nothing |
| Host.DeadTwiceIsDeadOnce | bflib/src/lib.rs:151-158 | a second death of the same object changes nothing |
| Host.OtherEventsInert | bflib/src/lib.rs:137-162 | other events, and events whose initiator is not a unit, change nothing |
| Host.BirthThenDeadMarksUnit | bflib/src/lib.rs:141-158 | a birth followed by the death of the same object marks the named unit dead and drops the mapping |
| Host.ReconcileKeepsValid | bflib/src/lib.rs:137-162 | every event keeps the store valid and every object mapping pointing at a stored unit |
| Host.BirthKeepsMapped | bflib/src/lib.rs:141-150 | a birth keeps every object mapping pointing at a stored unit |
| Host.DeadKeepsMapped | bflib/src/lib.rs:151-158 | a death keeps the store valid and every object mapping pointing at a stored unit |
| Host.TickSavesChanges | bflib/src/lib.rs:233-239 | a tick sends one save of the current store when the database is dirty and none otherwise, and leaves it clean |
| Host.SecondTickSavesNothing | bflib/src/lib.rs:233-239 | a second tick right after the first sends nothing |
| Host.DeathIsSaved | bflib/src/lib.rs:151-158 | a death followed by a tick sends a snapshot in which the unit is dead |
| Host.RespawnAllStep | bflib/src/lib.rs:98-104 | each further group of the walk adds its respawn's outcome and request |
| Host.RespawnAllStops | bflib/src/lib.rs:98-104 | the walk stops at the first error |
| Host.RespawnAllCovers | bflib/src/lib.rs:98-104 | a walk that succeeds has respawned every group it passed, with all its requests made |
| Host.RestoreRespawnsEveryGroup | bflib/src/lib.rs:98-104 | restoring a save that succeeds respawns every saved group |
| Host.Context.constructor | bflib/src/lib.rs:40-46 | a new context has an empty database, no mappings, no tasks and both counters at zero |
| Host.Context.OnEvent | bflib/src/lib.rs:137-162 | the event handler's new state is the reconciliation of the old state with the event |
| Host.Context.SnapshotTick | bflib/src/lib.rs:230-240 | the timer's new state is the tick of the old, and it runs again ten seconds later |
| Host.Context.SpawnNew | bflib/src/lib.rs:197-219 | spawns the blue test group at the test zone, then the red one only when the engine took the blue one |
| Host.Context.RespawnGroups | bflib/src/lib.rs:98-104 | respawns the saved groups in ascending id order, stopping at the first error |
| Host.Context.InitMiz | bflib/src/lib.rs:221-250 | a missing sortie is an error; otherwise the timer is armed; a save file that fails to load is an error; a loaded one replaces the database, raises both counters past every saved id below the wrap, and its groups are respawned; without a save file the test groups are spawned; the error branches leave the database, its dirty flag and the counters as they were |
| GroupDb.TemplatePositions | bflib/src/db/group.rs:309-313 | the template positions are the units' positions, in order |
| GroupDb.AtPosWithCenterTranslates | bflib/src/db/group.rs:316-321 | a spawn at a position with a centre translates every unit by the same vector, keeping every offset between units |
| GroupDb.CheckWaterFindsWater | bflib/src/db/group.rs:401-418 | the water check fails exactly when some position is water or shallow water, with the water message |
| GroupDb.ClassifiedStep | bflib/src/db/group.rs:445-450 | one more classified unit extends the classified prefix |
| GroupDb.FirstUnclassifiedAt | bflib/src/db/group.rs:445-450 | the first unclassified unit is at the end of the classified prefix |
| GroupDb.BatchUnitsKeys | bflib/src/db/group.rs:439-483 | the unit loop stores units under exactly the drawn ids |
| GroupDb.BatchUnitsShape | bflib/src/db/group.rs:463-479 | each stored unit has its own id, the group, the name `"{group}-{uid}"`, and is alive |
| GroupDb.BatchUnitsAt | bflib/src/db/group.rs:439-483 | below the wrap-around point template unit i is stored under `first + i` |
| GroupDb.BatchTagsCover | bflib/src/db/group.rs:451 | the group's tags include every unit's tags |
| GroupDb.BatchTagsFromMembers | bflib/src/db/group.rs:451 | every tag of the group comes from one of its units |
| GroupDb.TagsFromStep | bflib/src/db/group.rs:451 | adding a unit keeps every group tag coming from some unit |
| GroupDb.AddUnitStep | bflib/src/db/group.rs:439-483 | one loop step stores the next unit and its name, draws its id and adds its tags |
| GroupDb.LeaveUndoesJoin | bflib/src/db/group.rs:219-240 | removing a group from the origin's categories undoes adding it |
| GroupDb.JoinMembership | bflib/src/db/group.rs:484-505 | a group joins exactly the categories its origin names: crates and the player's crates, deployed, troops, JTACs, EWRs |
| GroupDb.MarkedOnce | bflib/src/db/group.rs:161-206 | a group in the store that is not an objective gets the next mark; an old mark goes to the deleted marks |
| GroupDb.MarkedKeepsOthers | bflib/src/db/group.rs:161-206 | marking a group leaves every other group's mark alone |
| GroupDb.MarkedTwice | bflib/src/db/group.rs:161-206 | marking twice marks the same groups as once |
| GroupDb.PreparedDry | bflib/src/db/group.rs:421-424 | a layout error stops the add; otherwise there is one position per unit, and the add goes on exactly when no position is water |
| GroupDb.AddedGroupStored | bflib/src/db/group.rs:426-438 | the added group is stored under its id, name and side, with its origin and exactly the drawn unit ids |
| GroupDb.AddedUnitStored | bflib/src/db/group.rs:439-483 | each added unit is stored under its id and name, at its position, with its type, in the group, alive |
| GroupDb.AddedTagsUnion | bflib/src/db/group.rs:451 | the group's tags are exactly the union of its units' tags |
| GroupDb.UnclassifiedLeavesOrphans | bflib/src/db/group.rs:445-450 | a unit of an unclassified type stops the add after the earlier units are stored, leaving them without a group |
| GroupDb.AscendingListed | bflib/src/db/group.rs:244-257 | the ordered walk lists exactly the group's units |
| GroupDb.DropUnitsPersisted | bflib/src/db/group.rs:244-257 | the unit loop removes exactly the listed units and their names |
| GroupDb.DropUnitsEphemeral | bflib/src/db/group.rs:244-257 | the unit loop removes the listed units from the proximity sets and both handle maps |
| GroupDb.DropUnitsNames | bflib/src/db/group.rs:244-257 | the loop collects the names of the units it found |
| GroupDb.FoundNamesSound | bflib/src/db/group.rs:244-257 | every collected name is a listed unit's name |
| GroupDb.FoundNamesComplete | bflib/src/db/group.rs:244-257 | every listed stored unit's name is collected |
| GroupDb.FoundNamesCount | bflib/src/db/group.rs:244-257 | one name is collected per listed stored unit |
| GroupDb.StaticDespawnsSound | bflib/src/db/group.rs:259-272 | every static despawn queued is for the group and names one of its units |
| GroupDb.StaticDespawnsComplete | bflib/src/db/group.rs:259-272 | every stored unit of a static group gets a despawn |
| GroupDb.AscendingDistinct | bflib/src/db/group.rs:244-257 | the ordered walk lists no unit twice |
| GroupDb.PurgedPersisted | bflib/src/db/group.rs:244-257 | purging the units removes them and their names from the persisted part |
| GroupDb.PurgedEphemeral | bflib/src/db/group.rs:244-272 | purging the units removes them from the ephemeral part, makes it dirty and queues the despawns |
| GroupDb.QueuedDespawns | bflib/src/db/group.rs:259-272 | the despawns queued match the group's kind: one for the group, or one per static unit |
| GroupDb.DeleteDespawns | bflib/src/db/group.rs:208-274 | a delete queues the despawns of the group |
| GroupDb.PurgedQueue | bflib/src/db/group.rs:259-272 | purging appends the group's despawns to the queue |
| GroupDb.DeleteLeavesNoTrace | bflib/src/db/group.rs:208-274 | after a delete the group is in no index, no category and no mark, and none of its units or their names or handles remain |
| GroupDb.WithoutUndoesWith | bflib/src/db/group.rs:209-243 | removing a group's entries undoes inserting them |
| GroupDb.UnindexUndoesIndex | bflib/src/db/group.rs:209-218 | unindexing a group undoes indexing it |
| GroupDb.JoinKeepsIndices | bflib/src/db/group.rs:484-505 | categorising leaves the group indices alone |
| GroupDb.LeaveJoinFrame | bflib/src/db/group.rs:219-240 | uncategorising undoes categorising whatever the side index |
| GroupDb.MapPlusLess | bflib/src/db/group.rs:244-257 | removing the keys just added restores a map |
| GroupDb.FreshUnitNames | bflib/src/db/group.rs:444 | the names of the added units are exactly the names drawn for them |
| GroupDb.BatchUnitNames | bflib/src/db/group.rs:444 | the stored units' names are the suffixed names of the drawn ids |
| GroupDb.NamesOfOverride | bflib/src/db/group.rs:480-482 | names of units a map override comes from the overriding map |
| GroupDb.DropUndoesWithUnits | bflib/src/db/group.rs:244-257 | removing the drawn units and their names undoes storing them |
| GroupDb.AddThenDeleteRestores | bflib/src/db/group.rs:208-515 | adding a group with fresh ids and deleting it restores the persisted part, up to an empty side entry |
| GroupDb.AddedMarkable | bflib/src/db/group.rs:513-514 | the added group can be marked |
| GroupDb.AliveCount | bflib/src/db/group.rs:642-651 | counting living units over a list of distinct ids counts the living members |
| GroupDb.ListedLast | bflib/src/db/group.rs:642-651 | a list's elements are its prefix's and its last one |
| GroupDb.LiveMembersPlus | bflib/src/db/group.rs:642-651 | one more id adds one living member exactly when it is a living unit |
| GroupDb.AscendingLength | bflib/src/db/group.rs:642-651 | the ordered walk is as long as the set |
| GroupDb.DistinctCard | bflib/src/db/group.rs:642-651 | a list without repeats has as many elements as its set |
| GroupDb.HealthCounts | bflib/src/db/group.rs:642-651 | a group's health is (living members, members); the first is at most the second and is 0 exactly when every member is dead |
| GroupDb.AliveMembers | bflib/src/db/group.rs:642-651 | the walk over the members counts exactly the living ones |
| GroupDb.LiveMembersBounds | bflib/src/db/group.rs:642-651 | there are at most as many living members as members, and none exactly when all are dead |
| GroupDb.UnitDiedUnknown | bflib/src/db/group.rs:592-616 | the death of an unknown unit changes nothing |
| GroupDb.UnitDiedKeepsObjectiveGroups | bflib/src/db/group.rs:617-636 | a unit of a group that no player deployed is frozen dead, the database dirty, nothing deleted |
| GroupDb.UnitDiedWipesOut | bflib/src/db/group.rs:617-636 | when the last living unit of a player-deployed group dies, the group is deleted |
| GroupDb.UnitDiedSpares | bflib/src/db/group.rs:617-636 | while a unit of a player-deployed group still lives, its death only freezes the unit |
| GroupDb.BornKeepsInverse | bflib/src/db/group.rs:535-590 | a birth under a stored name links the object and the unit both ways, keeping the handle maps inverse |
| GroupDb.InverseLess | bflib/src/db/group.rs:244-257 | removing units from both handle maps keeps them inverse |
| GroupDb.DeleteKeepsInverse | bflib/src/db/group.rs:208-274 | a delete keeps the handle maps inverse |
| GroupDb.SweptFrame | bflib/src/db/group.rs:653-711 | the sweep changes only unit positions and the proximity sets, never a unit's group, and reports only stored groups as moved |
| GroupDb.SweepStepFrame | bflib/src/db/group.rs:667-705 | one sweep step changes only its unit and reports at most its group |
| GroupDb.SweptStuck | bflib/src/db/group.rs:667-705 | the sweep stops at the first failure |
| GroupDb.SweptPoses | bflib/src/db/group.rs:667-705 | a swept unit with a living handle takes the engine's pose; every other unit is left alone |
| GroupDb.SweepStepPose | bflib/src/db/group.rs:667-705 | one sweep step moves only its own unit to the engine's pose |
| GroupDb.SweptSkipsUnmoved | bflib/src/db/group.rs:690-703 | a unit already at the engine's pose is left unchanged |
| GroupDb.SweptDead | bflib/src/db/group.rs:667-705 | the sweep reports exactly the dead handles of the swept units |
| GroupDb.DeadHandlesExact | bflib/src/db/group.rs:668-674 | the dead handles are exactly the dead handles of swept units |
| GroupDb.MarkMovedSucceeds | bflib/src/db/group.rs:706-709 | marking the moved groups succeeds exactly when all of them are stored |
| GroupDb.MarkMovedMarks | bflib/src/db/group.rs:706-709 | after marking, each moved group holds a mark exactly when it is not an objective, and the database is dirty when any moved |
| GroupDb.MarkStep | bflib/src/db/group.rs:161-206 | one mark sets the group's mark by its origin and touches no other group or the dirty flag |
| GroupDb.MarkMovedKeepsOthers | bflib/src/db/group.rs:706-709 | marking the moved groups leaves the other groups' marks alone |
| GroupDb.MarkMovedStuck | bflib/src/db/group.rs:706-709 | marking stops at the first missing group |
| GroupDb.QueuedAppends | bflib/src/db/group.rs:528-531 | queueing appends the group to the immediate queue, or to the queue of its spawn time, touching nothing else |
| GroupDb.Db.MarkGroup | bflib/src/db/group.rs:161-206 | marks the group, or fails with "no such group"; the persisted part is unchanged |
| GroupDb.Db.AddGroup | bflib/src/db/group.rs:277-515 | a failed preparation changes nothing; otherwise one group id is drawn and the group is added from the template |
| GroupDb.Db.AddAt | bflib/src/db/group.rs:425-515 | adds the group at the computed positions: stored, categorised, indexed, marked |
| GroupDb.Db.InsertGroup | bflib/src/db/group.rs:484-511 | categorises and indexes the group |
| GroupDb.Db.AddUnits | bflib/src/db/group.rs:439-483 | stores units up to the first unclassified one and succeeds exactly when there is none |
| GroupDb.Db.StoreUnit | bflib/src/db/group.rs:463-482 | stores one unit and its name |
| GroupDb.Db.DeleteGroup | bflib/src/db/group.rs:208-274 | an unknown group is an error that changes nothing; otherwise the group is deleted |
| GroupDb.Db.RemoveGroupEntries | bflib/src/db/group.rs:209-240 | removes the group from its indices and categories |
| GroupDb.Db.DropMembers | bflib/src/db/group.rs:244-257 | the unit loop drops the listed units and collects their names |
| GroupDb.Db.PushStaticDespawns | bflib/src/db/group.rs:259-272 | queues one static despawn per name |
| GroupDb.Db.GroupHealth | bflib/src/db/group.rs:642-651 | computes the group's health, or "no such group" |
| GroupDb.Db.UnitDead | bflib/src/db/group.rs:592-640 | the new state and result are those of the unit's death |
| GroupDb.Db.UnitBorn | bflib/src/db/group.rs:535-590 | links the born object to the unit named after it |
| GroupDb.Db.UpdateUnitPositions | bflib/src/db/group.rs:653-711 | the new state and result are those of sweeping the units and marking the moved groups |
| GroupDb.Db.SweepUnits | bflib/src/db/group.rs:667-705 | the loop computes the sweep of the units in order |
| GroupDb.Db.MarkGroups | bflib/src/db/group.rs:706-709 | the loop marks the moved groups in order |
| GroupDb.Db.AddAndQueueGroup | bflib/src/db/group.rs:517-533 | adds the group and, after a success, queues it for spawning now or at the given time |

## Left out

- I/O is left out: the save file, the log, the background thread's file writes and the serialisation format. The background thread is the ordered list of tasks sent to it. A save file is given to start-up as an already parsed store or an error.
- Concurrency is left out: the counters are atomics in the source and are plain fields of the context here.
- Lua values are a finite inductive datatype, so a table that contains itself, shares a sub-table or has a cyclic `parentClass_` chain cannot be represented. On such a table the class-chain loop of `src/dcs/mod.rs:135-148` and the recursion of `to_json` in `src/lib.rs:5-32` would not end; the model assumes every table is finite and acyclic.
- GroupDb.SpawnedGroup has no `class` field: `ObjGroupClass::from(template_name)` at `bflib/src/db/group.rs:435` is not modelled, since nothing in the modelled core reads it.
- GroupDb.SpawnedUnit has no `moved` field: the `moved: None` set at `bflib/src/db/group.rs:478` is not modelled, since nothing in the modelled core reads it.
- Floating point is modelled with mathematical reals. Lua numbers that are not integers carry only their display text.
- Engine calls are parameters:
  - the surface type and height at a point;
  - trigger zones;
  - object liveness and poses;
  - the heading computed from a pose;
  - spawn acceptance;
  - the unit layout around a trigger zone.
  Their own `?` errors (`SpawnCtx`, getters on engine objects) are not modelled.
- mlua's coercion of numbers and strings to integers is not modelled: only `Value::Integer` decodes as an integer. `Value::to_string`, used to turn other values into strings, is given as each value's display text; for nil that text is "nil".
- Only the `AtPosWithCenter` geometry is computed. The trigger-zone layout is the layout parameter: centroid, positions by type, rotation.
- unit_born: the warehouse and slot part is not modelled, only the mapping of the object to the unit.
- unit_dead: the player slot, sync and objective parts are not modelled. The ephemeral lookup of the unit is a `found` parameter.
- `ephemeral.rs`, the message module and the `db/mod.rs` macros are not part of this model. Their lookups fail as "no such group" or "no such unit", and their effects on marks are a counter and a list of deleted marks.
- `atomic_id!` in `bflib/src/db/group.rs` is modelled with the allocator of `bflib/src/db.rs`.
- change_instance is not modelled.
- GroupDb.Db.UpdateUnitPositions: requires every unit's group to be markable, where the source needs this only of the groups that moved.
- Iteration over hash maps and sets is modelled in ascending id order. The results proved hold whatever walk is used where the lemmas say so (DropUnitsPersisted); elsewhere they are stated for that order.
- The code and its design description disagree on three points. The model follows the code on all three.
  - An unclassified unit type stops `add_group` after the earlier units are stored, leaving them without a group (UnclassifiedLeavesOrphans).
  - update_unit_positions marks a group once per moved unit, not once per group.
  - spawn_template_as_new does not touch the side index.
- spawn_template_as_new places units with the corrected formula, target + (unit position − group position) (`FlatDb.PlaceUnit`). The code's formula, target + (group position − unit position) (`FlatDb.PlaceUnitAsWritten`, bflib/src/db.rs:346-347), is the finding below. It is recovered from every stored or requested position by `FlatDb.PlacementsReflect`, `FlatDb.SpawnedUnitAsWritten` and `FlatDb.RequestAsWritten`. The members whose contracts name a unit position therefore state the corrected position, not the one the code stores. Each is listed below.
- FlatDb.NewUnitsAt: the stored unit's position is the corrected placement, not the code's.
- FlatDb.PlacedUnitsAt: each requested unit's position is the corrected placement, not the code's.
- FlatDb.SpawnedUnitFound: the unit found carries the corrected placement, not the code's.
- FlatDb.AddStep: the loop step stores and requests the corrected placement, not the code's.
- FlatDb.Db.SpawnTemplateAsNew: the new store and the request hold the corrected placement, not the code's.
- FlatDb.Db.SpawnAt: the new store and the request hold the corrected placement, not the code's.
- FlatDb.Db.AddTemplateUnits: the new units and placed units hold the corrected placement, not the code's.
- FlatDb.Db.DrawUnits: the new units and placed units hold the corrected placement, not the code's.
- Host.Context.SpawnNew: the spawned test groups hold the corrected placement, not the code's.
- Host.Context.InitMiz: without a save file, the spawned test groups hold the corrected placement, not the code's.
- DcsGroup.OwnerFromLua: `src/dcs/group.rs` decodes an owner's side with the `Side` of `src/dcs/coalition.rs`, which is not part of this model. The model uses the seven-side `Side` of `dcso3/src/coalition.rs` instead, whose codes are 0..6 with Green at 3.
- DcsGroup.OwnerDecodes: the accepted codes 0..6, and Green never being an owner, rest on that same choice of `Side`.
- DcsGroup.OwnerRoundTrip: the round trip rests on that same choice of `Side`.
- Coalition.SideFromInteger: `dcso3/src/coalition.rs:29` expands dcso3's own `simple_enum!`, which is not part of this model. It is modelled with the `simple_enum!` of `src/dcs/mod.rs:54-79`.
- Coalition.SideRoundTrip: rests on that same choice of `simple_enum!`.
- Indexing `players[player]` panics in the source when the player is unknown (bflib/src/db/group.rs:175, 184, 193, 223, 488). The model excludes that case with the `KnownPlayer` precondition instead of modelling the panic. This applies to:
  - `Join`, `Leave`, `WithGroup`, `WithoutGroup`, `Added`, `Deleted`;
  - their lemmas (LeaveUndoesJoin, JoinMembership, AddedGroupStored, AddedUnitStored, AddedTagsUnion, DeleteLeavesNoTrace, DeleteDespawns, WithoutUndoesWith, AddThenDeleteRestores, DeleteKeepsInverse);
  - the methods Db.MarkGroup (through `Markable`), Db.AddGroup, Db.AddAt, Db.InsertGroup, Db.DeleteGroup, Db.RemoveGroupEntries, Db.UnitDead (through `Deletable`), Db.MarkGroups and Db.AddAndQueueGroup.
- GroupDb.Db.AddGroup: an unknown player's panic is excluded by `requires KnownPlayer`.
- GroupDb.Db.AddAt: an unknown player's panic is excluded by `requires KnownPlayer`.
- GroupDb.Db.DeleteGroup: an unknown player's panic is excluded by `requires KnownPlayer`.
- GroupDb.Db.AddAndQueueGroup: an unknown player's panic is excluded by `requires KnownPlayer`.

## Findings

| source | as written | input that shows it | evidently intended | confidence | as-written member | corrected member |
|---|---|---|---|---|---|---|
| bflib/src/db.rs:346-347 | each unit is placed at target + (group position − unit position), which reflects the formation through the target | group at (0, 0), unit at (10, 0), target (100, 100): the unit goes to (90, 100) instead of (110, 100) | target + (unit position − group position), which moves the formation without turning it | not executed | FlatDb.AsWrittenMirrors | FlatDb.PlaceUnitKeepsFormation |
