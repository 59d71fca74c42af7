/**
 * The settings store (renderer/utils/settings.ts): the in-memory AppSettings and
 * the one persistent slot it is written to. Every update merges into the current
 * settings and writes the whole result to the slot; reset empties the slot.
 */
module SettingsStore {
  import opened Wrappers
  import opened Types
  import Seqs

  /** What the persistent slot can hold: settings that parse back, or text that does not. */
  datatype Slot = Saved(value: AppSettings) | Unparseable

  /** `Partial<AppSettings>`: a Some field is present in the partial object. */
  datatype SettingsPatch = SettingsPatch(
    courses: Option<seq<Course>>,
    players: Option<seq<Player>>,
    lapCount: Option<int>,
    soundEnabled: Option<bool>,
    races: Option<seq<Race>>)

  /** `Partial<Course>`. */
  datatype CoursePatch = CoursePatch(id: Option<int>, playerId: Option<Option<string>>, vehicleId: Option<Option<string>>)

  /** `Partial<Player>`. */
  datatype PlayerPatch = PlayerPatch(
    id: Option<string>,
    name: Option<string>,
    teamName: Option<Option<string>>,
    vehicle: Option<Option<Vehicle>>)

  const NoChange := SettingsPatch(None, None, None, None, None)

  /** `defaultSettings`: lanes 1 to 4 with nobody assigned, no players, 5 laps, sound off, no races. */
  function Defaults(): (d: AppSettings)
    ensures |d.courses| == 4
    ensures forall i :: 0 <= i < 4 ==> d.courses[i] == Course(i + 1, None, None)
    ensures d.players == [] && d.lapCount == 5 && !d.soundEnabled && d.races == []
  {
    AppSettings(
      [Course(1, None, None), Course(2, None, None), Course(3, None, None), Course(4, None, None)],
      [], 5, false, [])
  }

  function Pick<T>(field: Option<T>, current: T): T {
    if field.Some? then field.value else current
  }

  /** `{ ...s, ...p }`: the fields present in p replace those of s; every other field is kept. */
  function Merge(s: AppSettings, p: SettingsPatch): (r: AppSettings)
    ensures p.courses.Some? ==> r.courses == p.courses.value
    ensures p.courses.None? ==> r.courses == s.courses
    ensures p.players.Some? ==> r.players == p.players.value
    ensures p.players.None? ==> r.players == s.players
    ensures p.lapCount.Some? ==> r.lapCount == p.lapCount.value
    ensures p.lapCount.None? ==> r.lapCount == s.lapCount
    ensures p.soundEnabled.Some? ==> r.soundEnabled == p.soundEnabled.value
    ensures p.soundEnabled.None? ==> r.soundEnabled == s.soundEnabled
    ensures p.races.Some? ==> r.races == p.races.value
    ensures p.races.None? ==> r.races == s.races
  {
    AppSettings(
      Pick(p.courses, s.courses), Pick(p.players, s.players), Pick(p.lapCount, s.lapCount),
      Pick(p.soundEnabled, s.soundEnabled), Pick(p.races, s.races))
  }

  /** The patch that applies p and then q: q's fields win. */
  function Then(p: SettingsPatch, q: SettingsPatch): SettingsPatch {
    SettingsPatch(
      if q.courses.Some? then q.courses else p.courses,
      if q.players.Some? then q.players else p.players,
      if q.lapCount.Some? then q.lapCount else p.lapCount,
      if q.soundEnabled.Some? then q.soundEnabled else p.soundEnabled,
      if q.races.Some? then q.races else p.races)
  }

  /** An empty patch changes nothing, and a patch applied twice is applied once. */
  lemma MergeNothingIdempotent(s: AppSettings, p: SettingsPatch)
    ensures Merge(s, NoChange) == s
    ensures Merge(Merge(s, p), p) == Merge(s, p)
  {
  }

  /** Two merges in a row are one merge of the combined patch (last writer wins per field). */
  lemma MergeTwice(s: AppSettings, p: SettingsPatch, q: SettingsPatch)
    ensures Merge(Merge(s, p), q) == Merge(s, Then(p, q))
  {
  }

  /** `{ ...course, ...d }`. */
  function MergeCourse(c: Course, d: CoursePatch): Course {
    Course(Pick(d.id, c.id), Pick(d.playerId, c.playerId), Pick(d.vehicleId, c.vehicleId))
  }

  /** `{ ...player, ...d }`. */
  function MergePlayer(p: Player, d: PlayerPatch): Player {
    Player(Pick(d.id, p.id), Pick(d.name, p.name), Pick(d.teamName, p.teamName), Pick(d.vehicle, p.vehicle))
  }

  /** The course list of `updateCourse(id, d)`: d is merged into the courses with that id only. */
  function CoursesUpdated(courses: seq<Course>, id: int, d: CoursePatch): (r: seq<Course>)
    ensures |r| == |courses|
    ensures forall i :: 0 <= i < |courses| && courses[i].id != id ==> r[i] == courses[i]
    ensures forall i :: 0 <= i < |courses| && courses[i].id == id ==>
              (d.playerId.Some? ==> r[i].playerId == d.playerId.value) &&
              (d.playerId.None? ==> r[i].playerId == courses[i].playerId) &&
              (d.vehicleId.Some? ==> r[i].vehicleId == d.vehicleId.value) &&
              (d.vehicleId.None? ==> r[i].vehicleId == courses[i].vehicleId) &&
              (d.id.Some? ==> r[i].id == d.id.value) &&
              (d.id.None? ==> r[i].id == id)
    ensures (forall i :: 0 <= i < |courses| ==> courses[i].id != id) ==> r == courses
  {
    Seqs.Map((c: Course) => if c.id == id then MergeCourse(c, d) else c, courses)
  }

  /** The player list of `updatePlayer(id, d)`: d is merged into the players with that id only. */
  function PlayersUpdated(players: seq<Player>, id: string, d: PlayerPatch): (r: seq<Player>)
    ensures |r| == |players|
    ensures forall i :: 0 <= i < |players| && players[i].id != id ==> r[i] == players[i]
    ensures forall i :: 0 <= i < |players| && players[i].id == id ==>
              (d.name.Some? ==> r[i].name == d.name.value) &&
              (d.name.None? ==> r[i].name == players[i].name) &&
              (d.teamName.Some? ==> r[i].teamName == d.teamName.value) &&
              (d.teamName.None? ==> r[i].teamName == players[i].teamName) &&
              (d.vehicle.Some? ==> r[i].vehicle == d.vehicle.value) &&
              (d.vehicle.None? ==> r[i].vehicle == players[i].vehicle) &&
              (d.id.Some? ==> r[i].id == d.id.value) &&
              (d.id.None? ==> r[i].id == id)
    ensures (forall i :: 0 <= i < |players| ==> players[i].id != id) ==> r == players
  {
    Seqs.Map((p: Player) => if p.id == id then MergePlayer(p, d) else p, players)
  }

  /** `players.filter(p => p.id !== id)`: no player with that id is left, every other one is, in order. */
  function WithoutPlayer(players: seq<Player>, id: string): (r: seq<Player>)
    ensures |r| <= |players|
    ensures forall i :: 0 <= i < |r| ==> r[i].id != id && r[i] in players
    ensures forall i :: 0 <= i < |players| && players[i].id != id ==> players[i] in r
    ensures (forall i :: 0 <= i < |players| ==> players[i].id != id) ==> r == players
  {
    Seqs.Filter((p: Player) => p.id != id, players)
  }

  /** Removing a player from a list that is split in two removes it from each part. */
  lemma WithoutPlayerAppend(s: seq<Player>, t: seq<Player>, id: string)
    ensures WithoutPlayer(s + t, id) == WithoutPlayer(s, id) + WithoutPlayer(t, id)
  {
    Seqs.FilterAppend((p: Player) => p.id != id, s, t);
  }

  /**
   * The course list of `removePlayer(id)`: each course assigned to that player keeps its id
   * and loses both player and vehicle; every other course is unchanged.
   */
  function Unassigned(courses: seq<Course>, id: string): (r: seq<Course>)
    ensures |r| == |courses|
    ensures forall i :: 0 <= i < |courses| && courses[i].playerId == Some(id) ==>
              r[i] == Course(courses[i].id, None, None)
    ensures forall i :: 0 <= i < |courses| && courses[i].playerId != Some(id) ==> r[i] == courses[i]
  {
    Seqs.Map((c: Course) => if c.playerId == Some(id) then c.(playerId := None, vehicleId := None) else c, courses)
  }

  /** Every lane that names a player names one in the roster. */
  ghost predicate AssignmentsValid(s: AppSettings) {
    forall i :: 0 <= i < |s.courses| && s.courses[i].playerId.Some? ==>
      exists j :: 0 <= j < |s.players| && s.players[j].id == s.courses[i].playerId.value
  }

  /**
   * The settings after `removePlayer(id)`: the players are `WithoutPlayer` (the player
   * gone, every other one kept in order), its lanes keep their id but name no player or vehicle, and everything else is kept.
   */
  function PlayerRemoved(s: AppSettings, id: string): (r: AppSettings)
    ensures r.lapCount == s.lapCount && r.soundEnabled == s.soundEnabled && r.races == s.races
    ensures r.players == WithoutPlayer(s.players, id)
    ensures |r.courses| == |s.courses|
    ensures forall i :: 0 <= i < |s.courses| ==> r.courses[i].id == s.courses[i].id && r.courses[i].playerId != Some(id)
    ensures forall i :: 0 <= i < |s.courses| && s.courses[i].playerId == Some(id) ==> r.courses[i] == Course(s.courses[i].id, None, None)
    ensures forall i :: 0 <= i < |s.courses| && s.courses[i].playerId != Some(id) ==> r.courses[i] == s.courses[i]
  {
    Merge(s, NoChange.(players := Some(WithoutPlayer(s.players, id)), courses := Some(Unassigned(s.courses, id))))
  }

  /** If every lane named a rostered player before `removePlayer(id)`, every lane still does after it. */
  lemma RemovePlayerCascade(s: AppSettings, id: string)
    ensures AssignmentsValid(s) ==> AssignmentsValid(PlayerRemoved(s, id))
  {
    var r := PlayerRemoved(s, id);
    if AssignmentsValid(s) {
      forall i | 0 <= i < |r.courses| && r.courses[i].playerId.Some?
        ensures exists j :: 0 <= j < |r.players| && r.players[j].id == r.courses[i].playerId.value
      {
        var q := r.courses[i].playerId.value;
        assert s.courses[i].playerId == Some(q) && q != id;
        var j :| 0 <= j < |s.players| && s.players[j].id == q;
        assert s.players[j] in r.players;
        var k :| 0 <= k < |r.players| && r.players[k] == s.players[j];
      }
    }
  }

  /** The application's settings hook: in-memory settings, loading flag and the persistent slot. */
  class Store {
    var settings: AppSettings
    var isLoading: bool
    /** The value under the storage key: None when nothing is stored. */
    var stored: Option<Slot>

    constructor (slot: Option<Slot>)
      ensures settings == Defaults() && isLoading && stored == slot
    {
      settings := Defaults();
      isLoading := true;
      stored := slot;
    }

    /** The load effect: settings that parse replace the current ones; otherwise they stay. */
    method Load()
      modifies this`settings, this`isLoading
      ensures !isLoading
      ensures stored.Some? && stored.value.Saved? ==> settings == stored.value.value
      ensures !(stored.Some? && stored.value.Saved?) ==> settings == old(settings)
    {
      if stored.Some? {
        match stored.value {
          case Saved(value) => settings := value;
          case Unparseable =>
        }
      }
      isLoading := false;
    }

    /** `updateSettings(p)`: merge, keep in memory, write the result to the slot and return it. */
    method UpdateSettings(p: SettingsPatch) returns (updated: AppSettings)
      modifies this`settings, this`stored
      ensures updated == Merge(old(settings), p)
      ensures settings == updated && stored == Some(Saved(updated))
    {
      updated := Merge(settings, p);
      settings := updated;
      stored := Some(Saved(updated));
    }

    /** `updateCourse(id, d)`. */
    method UpdateCourse(courseId: int, d: CoursePatch) returns (updated: AppSettings)
      modifies this`settings, this`stored
      ensures updated == old(settings).(courses := CoursesUpdated(old(settings).courses, courseId, d))
      ensures settings == updated && stored == Some(Saved(updated))
    {
      updated := UpdateSettings(NoChange.(courses := Some(CoursesUpdated(settings.courses, courseId, d))));
    }

    /** `addPlayer(p)`: p becomes the last player; the others keep their order. */
    method AddPlayer(player: Player) returns (updated: AppSettings)
      modifies this`settings, this`stored
      ensures updated == old(settings).(players := old(settings).players + [player])
      ensures settings == updated && stored == Some(Saved(updated))
    {
      updated := UpdateSettings(NoChange.(players := Some(settings.players + [player])));
    }

    /** `updatePlayer(id, d)`. */
    method UpdatePlayer(playerId: string, d: PlayerPatch) returns (updated: AppSettings)
      modifies this`settings, this`stored
      ensures updated == old(settings).(players := PlayersUpdated(old(settings).players, playerId, d))
      ensures settings == updated && stored == Some(Saved(updated))
    {
      updated := UpdateSettings(NoChange.(players := Some(PlayersUpdated(settings.players, playerId, d))));
    }

    /** `removePlayer(id)`: the player goes and so do its lane assignments. */
    method RemovePlayer(playerId: string) returns (updated: AppSettings)
      modifies this`settings, this`stored
      ensures updated == PlayerRemoved(old(settings), playerId)
      ensures settings == updated && stored == Some(Saved(updated))
    {
      updated := UpdateSettings(NoChange.(
        players := Some(WithoutPlayer(settings.players, playerId)),
        courses := Some(Unassigned(settings.courses, playerId))));
    }

    /** `saveRaceResult(race)`: race becomes the last one saved; nothing else changes. */
    method SaveRaceResult(race: Race) returns (updated: AppSettings)
      modifies this`settings, this`stored
      ensures updated == old(settings).(races := old(settings).races + [race])
      ensures settings == updated && stored == Some(Saved(updated))
    {
      updated := UpdateSettings(NoChange.(races := Some(settings.races + [race])));
    }

    /** `resetSettings`: back to the defaults, with the slot emptied. */
    method ResetSettings() returns (d: AppSettings)
      modifies this`settings, this`stored
      ensures d == Defaults() && settings == d && stored == None
    {
      settings := Defaults();
      stored := None;
      d := settings;
    }
  }

  /**
   * Starting the application and loading: the defaults when nothing parseable is stored,
   * otherwise exactly what is stored.
   */
  method Startup(slot: Option<Slot>) returns (s: Store)
    ensures fresh(s) && !s.isLoading && s.stored == slot
    ensures s.settings == if slot.Some? && slot.value.Saved? then slot.value.value else Defaults()
  {
    s := new Store(slot);
    s.Load();
  }
}
