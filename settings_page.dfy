/**
 * The settings page (renderer/pages/settings.tsx): the roster of players and
 * their vehicles, the lane assignments, and the editing state of the form.
 * Generated identifiers (`p${Date.now()}`, `v${Date.now()}`) are parameters.
 * Text typed into the form's inputs is written straight into the page's fields.
 */
module SettingsPage {
  import opened Wrappers
  import opened Types
  import Seqs
  import SettingsStore

  /**
   * The page's own course record. The lanes it starts with carry an id; the record that
   * `deletePlayer` writes in place of a cleared lane has none.
   */
  datatype CourseAssignment = CourseAssignment(id: Option<int>, playerId: Option<string>, vehicleId: Option<string>)

  datatype PageSettings = PageSettings(courses: seq<CourseAssignment>, lapCount: int, soundEnabled: bool)

  /** The two fields the form passes to `updateSettings(field, value)`. */
  datatype SettingUpdate = LapCount(laps: int) | SoundEnabled(on: bool)

  /** The two fields `updateCourseAssignment` is called with. */
  datatype CourseField = PlayerField | VehicleField

  // ---------------------------------------------------------------- text

  /** ECMAScript WhiteSpace and LineTerminator characters: what `trim()` removes. */
  predicate IsWhitespace(c: char) {
    c == '\t' || c == '\U{000B}' || c == '\U{000C}' || c == ' ' || c == '\U{00A0}' || c == '\U{FEFF}' ||
    c == '\n' || c == '\r' || c == '\U{2028}' || c == '\U{2029}' ||
    c == '\U{1680}' || ('\U{2000}' <= c <= '\U{200A}') || c == '\U{202F}' || c == '\U{205F}' || c == '\U{3000}'
  }

  predicate IsBlank(s: string) {
    forall i :: 0 <= i < |s| ==> IsWhitespace(s[i])
  }

  function TrimStart(s: string): string {
    if s != [] && IsWhitespace(s[0]) then TrimStart(s[1..]) else s
  }

  function TrimEnd(s: string): string {
    if s != [] && IsWhitespace(s[|s| - 1]) then TrimEnd(s[..|s| - 1]) else s
  }

  /** `s.trim()`. */
  function Trim(s: string): string {
    TrimEnd(TrimStart(s))
  }

  lemma {:induction false} TrimStartBlank(s: string)
    ensures TrimStart(s) == [] <==> IsBlank(s)
    ensures TrimStart(s) != [] ==> !IsWhitespace(TrimStart(s)[0])
  {
    if s != [] && IsWhitespace(s[0]) {
      TrimStartBlank(s[1..]);
      if IsBlank(s[1..]) {
        forall i | 0 <= i < |s| ensures IsWhitespace(s[i]) {
          if i > 0 { assert s[i] == s[1..][i - 1]; }
        }
      }
    }
  }

  lemma {:induction false} TrimEndKeeps(s: string)
    requires s != [] && !IsWhitespace(s[0])
    ensures TrimEnd(s) != []
  {
    if IsWhitespace(s[|s| - 1]) {
      TrimEndKeeps(s[..|s| - 1]);
    }
  }

  /** `s.trim() === ''` exactly when s is made of whitespace only (the empty text included). */
  lemma TrimEmptyIffBlank(s: string)
    ensures Trim(s) == "" <==> IsBlank(s)
  {
    TrimStartBlank(s);
    if TrimStart(s) != [] {
      TrimEndKeeps(TrimStart(s));
    }
  }

  /** JavaScript truthiness of a `string | null` identifier: null and '' are false. */
  predicate Truthy(id: Option<string>) {
    id.Some? && id.value != ""
  }

  // ---------------------------------------------------------------- roster lookups

  /** `players.find(p => p.id === id)`: the first player with that id, if any. */
  function FindPlayer(players: seq<Player>, id: string): (r: Option<Player>)
    ensures r.None? <==> forall i :: 0 <= i < |players| ==> players[i].id != id
    ensures r.Some? ==> exists i :: 0 <= i < |players| && players[i] == r.value && players[i].id == id &&
                                    forall j :: 0 <= j < i ==> players[j].id != id
  {
    if players == [] then None
    else if players[0].id == id then Some(players[0])
    else
      var r := FindPlayer(players[1..], id);
      assert r.Some? ==> exists i :: 0 <= i < |players| && players[i] == r.value && players[i].id == id &&
                                     forall j :: 0 <= j < i ==> players[j].id != id by {
        if r.Some? {
          var k :| 0 <= k < |players[1..]| && players[1..][k] == r.value && players[1..][k].id == id &&
                   forall j :: 0 <= j < k ==> players[1..][j].id != id;
          assert players[k + 1] == r.value;
          assert forall j :: 0 <= j < k + 1 ==> players[j].id != id by {
            forall j | 0 <= j < k + 1 ensures players[j].id != id {
              if j > 0 { assert players[j] == players[1..][j - 1]; }
            }
          }
        }
      }
      r
  }

  ghost predicate UniqueIds(players: seq<Player>) {
    forall i, j :: 0 <= i < j < |players| ==> players[i].id != players[j].id
  }

  /**
   * `getVehicleForPlayer(id)`: nothing for a null or empty id or an unknown player,
   * otherwise the vehicle of the (first) player with that id.
   */
  function VehicleForPlayer(players: seq<Player>, playerId: Option<string>): (v: Option<Vehicle>)
    ensures !Truthy(playerId) ==> v == None
    ensures Truthy(playerId) && (forall i :: 0 <= i < |players| ==> players[i].id != playerId.value) ==> v == None
    ensures v.Some? ==> exists i :: 0 <= i < |players| && players[i].id == playerId.value && players[i].vehicle == v
    ensures Truthy(playerId) && FindPlayer(players, playerId.value).Some? ==> v == FindPlayer(players, playerId.value).value.vehicle
    ensures Truthy(playerId) && UniqueIds(players) ==>
              forall i :: 0 <= i < |players| && players[i].id == playerId.value ==> v == players[i].vehicle
  {
    if !Truthy(playerId) then None
    else match FindPlayer(players, playerId.value)
      case Some(p) => p.vehicle
      case None => None
  }

  /** The id of the vehicle of the (first) player with that id, if there is one. */
  function VehicleIdOf(players: seq<Player>, playerId: string): Option<string> {
    match FindPlayer(players, playerId)
    case Some(p) => if p.vehicle.Some? then Some(p.vehicle.value.id) else None
    case None => None
  }

  // ---------------------------------------------------------------- consistency

  /**
   * A lane agrees with the roster when the player it names exists and the vehicle it
   * names is that player's current vehicle.
   */
  ghost predicate Agrees(c: CourseAssignment, players: seq<Player>) {
    (c.playerId.Some? ==> FindPlayer(players, c.playerId.value).Some?) &&
    (c.vehicleId.Some? ==> c.playerId.Some? && VehicleIdOf(players, c.playerId.value) == c.vehicleId)
  }

  ghost predicate Consistent(courses: seq<CourseAssignment>, players: seq<Player>) {
    forall i :: 0 <= i < |courses| ==> Agrees(courses[i], players)
  }

  // ---------------------------------------------------------------- list updates

  /** The course record after `updateCourseAssignment(_, field, value)`: '' becomes null. */
  function Assigned(c: CourseAssignment, field: CourseField, value: string): (r: CourseAssignment)
    ensures r.id == c.id
    ensures field == PlayerField ==> r.vehicleId == c.vehicleId && r.playerId == (if value == "" then None else Some(value))
    ensures field == VehicleField ==> r.playerId == c.playerId && r.vehicleId == (if value == "" then None else Some(value))
  {
    var v := if value == "" then None else Some(value);
    match field
    case PlayerField => c.(playerId := v)
    case VehicleField => c.(vehicleId := v)
  }

  /** The courses after `deletePlayer(id)`: a lane of that player becomes a record with no id, player or vehicle. */
  function PlayerLanesCleared(courses: seq<CourseAssignment>, id: string): (r: seq<CourseAssignment>)
    ensures |r| == |courses|
    ensures forall i :: 0 <= i < |courses| && courses[i].playerId == Some(id) ==> r[i] == CourseAssignment(None, None, None)
    ensures forall i :: 0 <= i < |courses| && courses[i].playerId != Some(id) ==> r[i] == courses[i]
  {
    Seqs.Map((c: CourseAssignment) => if c.playerId == Some(id) then CourseAssignment(None, None, None) else c, courses)
  }

  /** The players after `savePlayerEdit`: those with the edited id take the new name; nothing else changes. */
  function Renamed(players: seq<Player>, id: string, name: string): (r: seq<Player>)
    ensures |r| == |players|
    ensures forall i :: 0 <= i < |players| && players[i].id == id ==> r[i] == players[i].(name := name)
    ensures forall i :: 0 <= i < |players| && players[i].id != id ==> r[i] == players[i]
  {
    Seqs.Map((p: Player) => if p.id == id then p.(name := name) else p, players)
  }

  /** The players after `saveVehicleEdit`: the vehicle of a player with that id is renamed and keeps its id. */
  function VehicleRenamed(players: seq<Player>, id: string, name: string): (r: seq<Player>)
    ensures |r| == |players|
    ensures forall i :: 0 <= i < |players| && players[i].id == id && players[i].vehicle.Some? ==>
              r[i] == players[i].(vehicle := Some(Vehicle(players[i].vehicle.value.id, name)))
    ensures forall i :: 0 <= i < |players| && (players[i].id != id || players[i].vehicle.None?) ==> r[i] == players[i]
  {
    Seqs.Map((p: Player) => if p.id == id && p.vehicle.Some? then p.(vehicle := Some(p.vehicle.value.(name := name))) else p, players)
  }

  /** The players after `setVehicleToPlayer`: each player with that id now has vehicle v. */
  function VehicleGiven(players: seq<Player>, id: string, v: Vehicle): (r: seq<Player>)
    ensures |r| == |players|
    ensures forall i :: 0 <= i < |players| && players[i].id == id ==> r[i] == players[i].(vehicle := Some(v))
    ensures forall i :: 0 <= i < |players| && players[i].id != id ==> r[i] == players[i]
  {
    Seqs.Map((p: Player) => if p.id == id then p.(vehicle := Some(v)) else p, players)
  }

  /** Lanes of that player riding the old vehicle move to the new one; every other lane is unchanged. */
  function VehicleRepointed(courses: seq<CourseAssignment>, id: string, oldId: string, newId: string): (r: seq<CourseAssignment>)
    ensures |r| == |courses|
    ensures forall i :: 0 <= i < |courses| && courses[i].playerId == Some(id) && courses[i].vehicleId == Some(oldId) ==>
              r[i] == courses[i].(vehicleId := Some(newId))
    ensures forall i :: 0 <= i < |courses| && !(courses[i].playerId == Some(id) && courses[i].vehicleId == Some(oldId)) ==>
              r[i] == courses[i]
  {
    Seqs.Map((c: CourseAssignment) => if c.playerId == Some(id) && c.vehicleId == Some(oldId) then c.(vehicleId := Some(newId)) else c, courses)
  }

  /** The lane belongs to player id and rides that player's current vehicle. */
  predicate RidesCurrentVehicle(c: CourseAssignment, players: seq<Player>, id: string) {
    c.playerId == Some(id) && VehicleIdOf(players, id).Some? && c.vehicleId == VehicleIdOf(players, id)
  }

  /**
   * The courses after `setVehicleToPlayer(id)`: the player's lanes on its current vehicle
   * move to the new vehicle id; every other lane is unchanged.
   */
  function CoursesAfterNewVehicle(courses: seq<CourseAssignment>, players: seq<Player>, id: string, newId: string): (r: seq<CourseAssignment>)
    ensures |r| == |courses|
    ensures forall i :: 0 <= i < |courses| && RidesCurrentVehicle(courses[i], players, id) ==>
              r[i] == courses[i].(vehicleId := Some(newId))
    ensures forall i :: 0 <= i < |courses| && !RidesCurrentVehicle(courses[i], players, id) ==> r[i] == courses[i]
  {
    match FindPlayer(players, id)
    case Some(p) => if p.vehicle.Some? then VehicleRepointed(courses, id, p.vehicle.value.id, newId) else courses
    case None => courses
  }

  /** The players after `removeVehicle(id)`: each player with that id has no vehicle. */
  function VehicleTaken(players: seq<Player>, id: string): (r: seq<Player>)
    ensures |r| == |players|
    ensures forall i :: 0 <= i < |players| && players[i].id == id ==> r[i] == players[i].(vehicle := None)
    ensures forall i :: 0 <= i < |players| && players[i].id != id ==> r[i] == players[i]
  {
    Seqs.Map((p: Player) => if p.id == id then p.(vehicle := None) else p, players)
  }

  /** Every lane naming that vehicle loses it and keeps its player; other lanes are unchanged. */
  function VehicleDetached(courses: seq<CourseAssignment>, vehicleId: string): (r: seq<CourseAssignment>)
    ensures |r| == |courses|
    ensures forall i :: 0 <= i < |courses| && courses[i].vehicleId == Some(vehicleId) ==> r[i] == courses[i].(vehicleId := None)
    ensures forall i :: 0 <= i < |courses| && courses[i].vehicleId != Some(vehicleId) ==> r[i] == courses[i]
  {
    Seqs.Map((c: CourseAssignment) => if c.vehicleId == Some(vehicleId) then c.(vehicleId := None) else c, courses)
  }

  // ---------------------------------------------------------------- lookups after updates

  /** A list update that keeps every id finds the image of what it found before. */
  lemma {:induction false} FindAfterMap(f: Player -> Player, players: seq<Player>, id: string)
    requires forall p :: f(p).id == p.id
    ensures FindPlayer(Seqs.Map(f, players), id) == if FindPlayer(players, id).Some? then Some(f(FindPlayer(players, id).value)) else None
  {
    if players != [] {
      assert Seqs.Map(f, players)[1..] == Seqs.Map(f, players[1..]);
      FindAfterMap(f, players[1..], id);
    }
  }

  /** Removing one player does not change what is found for any other id. */
  lemma {:induction false} FindAfterRemove(players: seq<Player>, removed: string, id: string)
    requires id != removed
    ensures FindPlayer(SettingsStore.WithoutPlayer(players, removed), id) == FindPlayer(players, id)
  {
    if players != [] {
      SettingsStore.WithoutPlayerAppend([players[0]], players[1..], removed);
      assert [players[0]] + players[1..] == players;
      FindAfterRemove(players[1..], removed, id);
      var rest := SettingsStore.WithoutPlayer(players[1..], removed);
      if players[0].id != removed {
        assert SettingsStore.WithoutPlayer([players[0]], removed) == [players[0]];
        assert ([players[0]] + rest)[1..] == rest;
      } else {
        assert SettingsStore.WithoutPlayer([players[0]], removed) == [];
        assert [] + rest == rest;
      }
    }
  }

  /** Appending a player does not change what is found for an id already present. */
  lemma {:induction false} FindAfterAppend(players: seq<Player>, p: Player, id: string)
    requires FindPlayer(players, id).Some?
    ensures FindPlayer(players + [p], id) == FindPlayer(players, id)
  {
    if players[0].id != id {
      assert (players + [p])[1..] == players[1..] + [p];
      FindAfterAppend(players[1..], p, id);
    }
  }

  // ---------------------------------------------------------------- cascades keep the lanes consistent

  /** `addPlayer`: a new player at the end leaves every lane in agreement. */
  lemma AddKeepsConsistent(courses: seq<CourseAssignment>, players: seq<Player>, p: Player)
    requires Consistent(courses, players)
    ensures Consistent(courses, players + [p])
  {
    forall i | 0 <= i < |courses| && courses[i].playerId.Some? {
      FindAfterAppend(players, p, courses[i].playerId.value);
    }
  }

  /** `deletePlayer`: no lane names the deleted player and every lane still agrees. */
  lemma DeleteKeepsConsistent(courses: seq<CourseAssignment>, players: seq<Player>, id: string)
    requires Consistent(courses, players)
    ensures forall i :: 0 <= i < |courses| ==> PlayerLanesCleared(courses, id)[i].playerId != Some(id)
    ensures Consistent(PlayerLanesCleared(courses, id), SettingsStore.WithoutPlayer(players, id))
  {
    var r := PlayerLanesCleared(courses, id);
    forall i | 0 <= i < |r| && r[i].playerId.Some? {
      FindAfterRemove(players, id, r[i].playerId.value);
    }
  }

  /** `savePlayerEdit`: a rename keeps every id and vehicle, so every lane still agrees. */
  lemma RenameKeepsConsistent(courses: seq<CourseAssignment>, players: seq<Player>, id: string, name: string)
    requires Consistent(courses, players)
    ensures Consistent(courses, Renamed(players, id, name))
  {
    var f := (p: Player) => if p.id == id then p.(name := name) else p;
    forall i | 0 <= i < |courses| && courses[i].playerId.Some? {
      FindAfterMap(f, players, courses[i].playerId.value);
    }
  }

  /** `saveVehicleEdit`: a vehicle rename keeps the vehicle's id, so every lane still agrees. */
  lemma VehicleRenameKeepsConsistent(courses: seq<CourseAssignment>, players: seq<Player>, id: string, name: string)
    requires Consistent(courses, players)
    ensures Consistent(courses, VehicleRenamed(players, id, name))
  {
    var f := (p: Player) => if p.id == id && p.vehicle.Some? then p.(vehicle := Some(p.vehicle.value.(name := name))) else p;
    forall i | 0 <= i < |courses| && courses[i].playerId.Some? {
      FindAfterMap(f, players, courses[i].playerId.value);
    }
  }

  /** One lane under `setVehicleToPlayer`: repointed or not, it agrees with the new roster. */
  lemma NewVehicleLaneAgrees(c: CourseAssignment, after: CourseAssignment, players: seq<Player>, id: string, v: Vehicle)
    requires Agrees(c, players)
    requires VehicleIdOf(players, id).Some? && c.playerId == Some(id) && c.vehicleId == VehicleIdOf(players, id) ==>
               after == c.(vehicleId := Some(v.id))
    requires !(VehicleIdOf(players, id).Some? && c.playerId == Some(id) && c.vehicleId == VehicleIdOf(players, id)) ==>
               after == c
    ensures Agrees(after, VehicleGiven(players, id, v))
  {
    if c.playerId.Some? {
      FindAfterMap((p: Player) => if p.id == id then p.(vehicle := Some(v)) else p, players, c.playerId.value);
    }
  }

  /**
   * `setVehicleToPlayer`: the player's lanes that rode the old vehicle now ride the new
   * one, so every lane still agrees with the roster.
   */
  lemma NewVehicleKeepsConsistent(courses: seq<CourseAssignment>, players: seq<Player>, id: string, v: Vehicle)
    requires Consistent(courses, players)
    ensures Consistent(CoursesAfterNewVehicle(courses, players, id, v.id), VehicleGiven(players, id, v))
  {
    var r := CoursesAfterNewVehicle(courses, players, id, v.id);
    forall i | 0 <= i < |r| ensures Agrees(r[i], VehicleGiven(players, id, v)) {
      NewVehicleLaneAgrees(courses[i], r[i], players, id, v);
    }
  }

  /** One lane under `removeVehicle`: detached or not, it agrees with the new roster. */
  lemma RemoveVehicleLaneAgrees(c: CourseAssignment, players: seq<Player>, id: string, vehicleId: string)
    requires Agrees(c, players) && VehicleIdOf(players, id) == Some(vehicleId)
    ensures Agrees(if c.vehicleId == Some(vehicleId) then c.(vehicleId := None) else c, VehicleTaken(players, id))
  {
    if c.playerId.Some? {
      FindAfterMap((p: Player) => if p.id == id then p.(vehicle := None) else p, players, c.playerId.value);
    }
  }

  /** `removeVehicle`: lanes that named the removed vehicle lose it, so every lane still agrees. */
  lemma RemoveVehicleKeepsConsistent(courses: seq<CourseAssignment>, players: seq<Player>, id: string)
    requires Consistent(courses, players)
    requires FindPlayer(players, id).Some? && FindPlayer(players, id).value.vehicle.Some?
    ensures Consistent(VehicleDetached(courses, FindPlayer(players, id).value.vehicle.value.id), VehicleTaken(players, id))
  {
    var vid := FindPlayer(players, id).value.vehicle.value.id;
    var r := VehicleDetached(courses, vid);
    forall i | 0 <= i < |r| ensures Agrees(r[i], VehicleTaken(players, id)) {
      RemoveVehicleLaneAgrees(courses[i], players, id, vid);
    }
  }

  /**
   * What the lane's vehicle selector offers: no vehicle (''), or the vehicle of the lane's
   * player as `getVehicleForPlayer` returns it.
   */
  predicate Offered(players: seq<Player>, playerId: Option<string>, value: string) {
    value == "" || (VehicleForPlayer(players, playerId).Some? && VehicleForPlayer(players, playerId).value.id == value)
  }

  /**
   * Choosing a lane's vehicle from what the form offers (nothing, or the vehicle of the
   * lane's player) leaves every lane in agreement.
   */
  lemma AssignVehicleKeepsConsistent(courses: seq<CourseAssignment>, players: seq<Player>, index: nat, value: string)
    requires Consistent(courses, players) && index < |courses|
    requires Offered(players, courses[index].playerId, value)
    ensures Consistent(courses[index := Assigned(courses[index], VehicleField, value)], players)
  {
  }

  /**
   * Choosing another player for a lane keeps the lane's vehicle: a lane riding one
   * player's vehicle then names a player who does not own it.
   */
  lemma ReassignKeepsStaleVehicle()
    ensures var players := [Player("p1", "A", None, Some(Vehicle("v1", "X"))), Player("p2", "B", None, Some(Vehicle("v2", "Y")))];
            var lane := CourseAssignment(Some(1), Some("p1"), Some("v1"));
            Agrees(lane, players) && !Agrees(Assigned(lane, PlayerField, "p2"), players)
  {
  }

  // ---------------------------------------------------------------- the page

  function InitialSettings(): (s: PageSettings)
    ensures |s.courses| == 4 && s.lapCount == 10 && s.soundEnabled
    ensures forall i :: 0 <= i < 4 ==> s.courses[i] == CourseAssignment(Some(i + 1), None, None)
  {
    PageSettings(
      [ CourseAssignment(Some(1), None, None), CourseAssignment(Some(2), None, None),
        CourseAssignment(Some(3), None, None), CourseAssignment(Some(4), None, None) ],
      10, true)
  }

  function InitialPlayers(): (players: seq<Player>)
    ensures |players| == 4 && UniqueIds(players)
    ensures forall i :: 0 <= i < 4 ==> players[i].vehicle.Some?
  {
    [ Player("p1", "選手1", None, Some(Vehicle("v1-1", "車両1"))),
      Player("p2", "選手2", None, Some(Vehicle("v2-1", "車両2"))),
      Player("p3", "選手3", None, Some(Vehicle("v3-1", "車両3"))),
      Player("p4", "選手4", None, Some(Vehicle("v4-1", "車両4"))) ]
  }

  class Page {
    var settings: PageSettings
    var players: seq<Player>
    var newPlayerName: string
    var newVehicleName: string
    var editingPlayerId: Option<string>
    var editingPlayerName: string
    var editingVehiclePlayerId: Option<string>
    var editingVehicleName: string
    /** The value under the page's storage key. */
    var stored: Option<PageSettings>

    /** Every lane agrees with the roster. */
    ghost predicate LanesAgree()
      reads this
    {
      Consistent(settings.courses, players)
    }

    constructor (slot: Option<PageSettings>)
      ensures settings == InitialSettings() && players == InitialPlayers() && stored == slot
      ensures newPlayerName == "" && newVehicleName == "" && editingPlayerName == "" && editingVehicleName == ""
      ensures editingPlayerId == None && editingVehiclePlayerId == None
      ensures LanesAgree()
    {
      settings := InitialSettings();
      players := InitialPlayers();
      newPlayerName, newVehicleName := "", "";
      editingPlayerId, editingPlayerName := None, "";
      editingVehiclePlayerId, editingVehicleName := None, "";
      stored := slot;
    }

    /** `handleSubmit`: the current settings are written under the storage key. */
    method HandleSubmit()
      modifies this`stored
      ensures stored == Some(settings)
    {
      stored := Some(settings);
    }

    /** `updateSettings(field, value)`: only that field changes. */
    method UpdateSettings(u: SettingUpdate)
      modifies this`settings
      ensures u.LapCount? ==> settings == old(settings).(lapCount := u.laps)
      ensures u.SoundEnabled? ==> settings == old(settings).(soundEnabled := u.on)
    {
      match u
      case LapCount(n) => settings := settings.(lapCount := n);
      case SoundEnabled(b) => settings := settings.(soundEnabled := b);
    }

    /**
     * `updateCourseAssignment(index, field, value)`: one field of one lane changes, '' meaning
     * null. A vehicle chosen from what the form offers keeps the lanes in agreement.
     */
    method UpdateCourseAssignment(courseIndex: nat, field: CourseField, value: string)
      requires courseIndex < |settings.courses|
      modifies this`settings
      ensures settings == old(settings).(courses := old(settings.courses)[courseIndex := Assigned(old(settings.courses[courseIndex]), field, value)])
      ensures old(LanesAgree()) && field == VehicleField && Offered(players, old(settings.courses[courseIndex]).playerId, value)
              ==> LanesAgree()
    {
      var newCourses := settings.courses;
      newCourses := newCourses[courseIndex := Assigned(newCourses[courseIndex], field, value)];
      if LanesAgree() && field == VehicleField && Offered(players, settings.courses[courseIndex].playerId, value) {
        AssignVehicleKeepsConsistent(settings.courses, players, courseIndex, value);
      }
      settings := settings.(courses := newCourses);
    }

    /** `addPlayer`: a non-blank name becomes a new last player with no vehicle, and the input is cleared. */
    method AddPlayer(newId: string)
      modifies this`players, this`newPlayerName
      ensures Trim(old(newPlayerName)) == "" ==> players == old(players) && newPlayerName == old(newPlayerName)
      ensures Trim(old(newPlayerName)) != "" ==>
                players == old(players) + [Player(newId, old(newPlayerName), None, None)] && newPlayerName == ""
      ensures old(LanesAgree()) ==> LanesAgree()
    {
      if Trim(newPlayerName) == "" {
        return;
      }
      var player := Player(newId, newPlayerName, None, None);
      if LanesAgree() {
        AddKeepsConsistent(settings.courses, players, player);
      }
      players := players + [player];
      newPlayerName := "";
    }

    /** `deletePlayer(id)`: the player goes and each of its lanes is replaced by an empty record. */
    method DeletePlayer(playerId: string)
      modifies this`players, this`settings
      ensures players == SettingsStore.WithoutPlayer(old(players), playerId)
      ensures settings == old(settings).(courses := PlayerLanesCleared(old(settings.courses), playerId))
      ensures forall i :: 0 <= i < |settings.courses| ==> settings.courses[i].playerId != Some(playerId)
      ensures old(LanesAgree()) ==> LanesAgree()
    {
      if LanesAgree() {
        DeleteKeepsConsistent(settings.courses, players, playerId);
      }
      players := SettingsStore.WithoutPlayer(players, playerId);
      settings := settings.(courses := PlayerLanesCleared(settings.courses, playerId));
    }

    /** `startEditingPlayer(player)`. */
    method StartEditingPlayer(player: Player)
      modifies this`editingPlayerId, this`editingPlayerName
      ensures editingPlayerId == Some(player.id) && editingPlayerName == player.name
    {
      editingPlayerId := Some(player.id);
      editingPlayerName := player.name;
    }

    /**
     * `savePlayerEdit`: with a player being edited and a non-blank name, that player is
     * renamed and the editing state is cleared; otherwise nothing changes.
     */
    method SavePlayerEdit()
      modifies this`players, this`editingPlayerId, this`editingPlayerName
      ensures !Truthy(old(editingPlayerId)) || Trim(old(editingPlayerName)) == "" ==>
                players == old(players) && editingPlayerId == old(editingPlayerId) && editingPlayerName == old(editingPlayerName)
      ensures Truthy(old(editingPlayerId)) && Trim(old(editingPlayerName)) != "" ==>
                players == Renamed(old(players), old(editingPlayerId).value, old(editingPlayerName)) &&
                editingPlayerId == None && editingPlayerName == ""
      ensures old(LanesAgree()) ==> LanesAgree()
    {
      if !Truthy(editingPlayerId) || Trim(editingPlayerName) == "" {
        return;
      }
      if LanesAgree() {
        RenameKeepsConsistent(settings.courses, players, editingPlayerId.value, editingPlayerName);
      }
      players := Renamed(players, editingPlayerId.value, editingPlayerName);
      editingPlayerId := None;
      editingPlayerName := "";
    }

    /** `startEditingVehicle(id)`: only for a known player that has a vehicle. */
    method StartEditingVehicle(playerId: string)
      modifies this`editingVehiclePlayerId, this`editingVehicleName
      ensures FindPlayer(players, playerId).Some? && FindPlayer(players, playerId).value.vehicle.Some? ==>
                editingVehiclePlayerId == Some(playerId) &&
                editingVehicleName == FindPlayer(players, playerId).value.vehicle.value.name
      ensures !(FindPlayer(players, playerId).Some? && FindPlayer(players, playerId).value.vehicle.Some?) ==>
                editingVehiclePlayerId == old(editingVehiclePlayerId) && editingVehicleName == old(editingVehicleName)
    {
      var player := FindPlayer(players, playerId);
      if player.None? || player.value.vehicle.None? {
        return;
      }
      editingVehiclePlayerId := Some(playerId);
      editingVehicleName := player.value.vehicle.value.name;
    }

    /**
     * `saveVehicleEdit`: with a vehicle being edited, a non-blank name and the player found
     * with a vehicle, that vehicle is renamed (its id kept) and the editing state is
     * cleared; otherwise nothing changes.
     */
    method SaveVehicleEdit()
      modifies this`players, this`editingVehiclePlayerId, this`editingVehicleName
      ensures var go := Truthy(old(editingVehiclePlayerId)) && Trim(old(editingVehicleName)) != "" &&
                        FindPlayer(old(players), old(editingVehiclePlayerId).value).Some? &&
                        FindPlayer(old(players), old(editingVehiclePlayerId).value).value.vehicle.Some?;
              (!go ==> players == old(players) && editingVehiclePlayerId == old(editingVehiclePlayerId) &&
                       editingVehicleName == old(editingVehicleName)) &&
              (go ==> players == VehicleRenamed(old(players), old(editingVehiclePlayerId).value, old(editingVehicleName)) &&
                      editingVehiclePlayerId == None && editingVehicleName == "")
      ensures old(LanesAgree()) ==> LanesAgree()
    {
      if !Truthy(editingVehiclePlayerId) || Trim(editingVehicleName) == "" {
        return;
      }
      var player := FindPlayer(players, editingVehiclePlayerId.value);
      if player.None? || player.value.vehicle.None? {
        return;
      }
      if LanesAgree() {
        VehicleRenameKeepsConsistent(settings.courses, players, editingVehiclePlayerId.value, editingVehicleName);
      }
      players := VehicleRenamed(players, editingVehiclePlayerId.value, editingVehicleName);
      editingVehiclePlayerId := None;
      editingVehicleName := "";
    }

    /**
     * `setVehicleToPlayer(id)`: with a non-blank name, every player with that id gets the
     * new vehicle, the player's lanes on its old vehicle are repointed to it, and the input
     * is cleared; with a blank name nothing changes.
     */
    method SetVehicleToPlayer(playerId: string, newVehicleId: string)
      modifies this`players, this`settings, this`newVehicleName
      ensures Trim(old(newVehicleName)) == "" ==>
                players == old(players) && settings == old(settings) && newVehicleName == old(newVehicleName)
      ensures Trim(old(newVehicleName)) != "" ==>
                players == VehicleGiven(old(players), playerId, Vehicle(newVehicleId, old(newVehicleName))) &&
                settings == old(settings).(courses := CoursesAfterNewVehicle(old(settings.courses), old(players), playerId, newVehicleId)) &&
                newVehicleName == ""
      ensures old(LanesAgree()) ==> LanesAgree()
    {
      if Trim(newVehicleName) == "" {
        return;
      }
      var newVehicle := Vehicle(newVehicleId, newVehicleName);
      var previous := players;
      if LanesAgree() {
        NewVehicleKeepsConsistent(settings.courses, players, playerId, newVehicle);
      }
      players := VehicleGiven(players, playerId, newVehicle);
      var player := FindPlayer(previous, playerId);
      if player.Some? && player.value.vehicle.Some? {
        var oldVehicleId := player.value.vehicle.value.id;
        settings := settings.(courses := VehicleRepointed(settings.courses, playerId, oldVehicleId, newVehicle.id));
      }
      newVehicleName := "";
    }

    /**
     * `removeVehicle(id)`: for a known player with a vehicle, the player loses it and every
     * lane naming that vehicle loses it too (keeping its player); otherwise nothing changes.
     */
    method RemoveVehicle(playerId: string)
      modifies this`players, this`settings
      ensures var found := FindPlayer(old(players), playerId);
              (found.None? || found.value.vehicle.None? ==> players == old(players) && settings == old(settings)) &&
              (found.Some? && found.value.vehicle.Some? ==>
                 players == VehicleTaken(old(players), playerId) &&
                 settings == old(settings).(courses := VehicleDetached(old(settings.courses), found.value.vehicle.value.id)))
      ensures old(LanesAgree()) ==> LanesAgree()
    {
      var player := FindPlayer(players, playerId);
      if player.None? || player.value.vehicle.None? {
        return;
      }
      var vehicleId := player.value.vehicle.value.id;
      if LanesAgree() {
        RemoveVehicleKeepsConsistent(settings.courses, players, playerId);
      }
      players := VehicleTaken(players, playerId);
      settings := settings.(courses := VehicleDetached(settings.courses, vehicleId));
    }
  }
}
