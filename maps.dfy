/**
  The map table of src/maps.js and its lookup by id. Only a map's id, name
  and track control points are modelled; materials, fog, scenery and
  traffic presets are presentation data.
 */
module Maps {
  import opened Optional

  /** A track control point `[x, y, z]`. */
  datatype ControlPoint = ControlPoint(x: int, y: int, z: int)

  datatype RaceMap = RaceMap(id: string, name: string, controlPoints: seq<ControlPoint>)

  /** The `maps` table. */
  const MAPS: seq<RaceMap> := [
    RaceMap("aurora-ring", "Aurora Ring", [
      ControlPoint(0, 0, 60), ControlPoint(60, 0, 70), ControlPoint(130, 0, 30),
      ControlPoint(120, 0, -50), ControlPoint(40, 0, -90), ControlPoint(-30, 0, -80),
      ControlPoint(-120, 0, -40), ControlPoint(-110, 0, 50), ControlPoint(-40, 0, 90)]),
    RaceMap("sunset-canyon", "Sunset Canyon", [
      ControlPoint(0, 0, 40), ControlPoint(70, 0, 30), ControlPoint(110, 0, -20),
      ControlPoint(70, 0, -90), ControlPoint(0, 0, -120), ControlPoint(-80, 0, -90),
      ControlPoint(-110, 0, -20), ControlPoint(-90, 0, 50), ControlPoint(-30, 0, 80)])
  ]

  /** `defaultMapId`: the id of the first map. */
  function DefaultMapId(): string
  {
    MAPS[0].id
  }

  /** `maps.find`: the index of the first map with this id, if any. */
  function FindIndex(maps: seq<RaceMap>, id: string): (r: Option<nat>)
    ensures r.Some? ==> r.value < |maps| && maps[r.value].id == id
    ensures r.Some? ==> forall j :: 0 <= j < r.value ==> maps[j].id != id
    ensures r.None? ==> forall j :: 0 <= j < |maps| ==> maps[j].id != id
  {
    if |maps| == 0 then None
    else if maps[0].id == id then Some(0)
    else match FindIndex(maps[1..], id)
      case None => None
      case Some(i) => Some(i + 1)
  }

  /** getMapById: the first map with this id, or the first map when none has it. */
  function GetMapById(id: string): (m: RaceMap)
    ensures m in MAPS
    ensures (exists i :: 0 <= i < |MAPS| && MAPS[i].id == id) ==> m.id == id
    ensures forall i :: 0 <= i < |MAPS| && MAPS[i].id == id && (forall j :: 0 <= j < i ==> MAPS[j].id != id)
                        ==> m == MAPS[i]
    ensures (forall i :: 0 <= i < |MAPS| ==> MAPS[i].id != id) ==> m == MAPS[0]
  {
    match FindIndex(MAPS, id)
    case Some(i) => MAPS[i]
    case None => MAPS[0]
  }

  /** The ids in the table are distinct, so a lookup by id is unambiguous. */
  lemma IdsAreDistinct()
    ensures forall i, j :: 0 <= i < j < |MAPS| ==> MAPS[i].id != MAPS[j].id
  {
  }

  /** Every map defines its closed loop with 9 control points, on the ground plane. */
  lemma NineControlPoints()
    ensures forall m :: m in MAPS ==> |m.controlPoints| == 9
    ensures forall m, p :: m in MAPS && p in m.controlPoints ==> p.y == 0
  {
  }

  /** Looking a map up by its own id gives that map back. */
  lemma LookupByOwnId(k: nat)
    requires k < |MAPS|
    ensures GetMapById(MAPS[k].id) == MAPS[k]
  {
    IdsAreDistinct();
  }

  /** The default id names the first map. */
  lemma DefaultLookup()
    ensures GetMapById(DefaultMapId()) == MAPS[0]
  {
    LookupByOwnId(0);
  }

  /** An unknown id falls back to the first map. */
  lemma UnknownIdFallsBack(id: string)
    requires id != "aurora-ring" && id != "sunset-canyon"
    ensures GetMapById(id) == MAPS[0]
  {
  }
}
