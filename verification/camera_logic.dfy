/** The viewpoint generator: five fixed camera poses around a coordinate.
    Coordinates and angles are exact reals (radians for the angles). */
module CameraLogic {

  /** One camera pose: where it sits and how it is oriented. */
  datatype Viewpoint = Viewpoint(
    name: string,
    latitude: real,
    longitude: real,
    height: real,
    heading: real,
    pitch: real,
    roll: real,
    fov: real)

  /** Step from the centre to each cardinal pose, in degrees of latitude or longitude. */
  const OFFSET: real := 0.0015
  /** Height of every pose. */
  const HEIGHT: real := 500.0
  /** Field of view of every pose (about 60 degrees). */
  const FOV: real := 1.0472
  /** Shared pitch of the four cardinal poses (about -25 degrees). */
  const CARDINAL_PITCH: real := -0.44
  /** Pitch of the straight-down pose. */
  const NADIR_PITCH: real := -1.57
  /** The heading step between successive cardinal poses (about a quarter turn). */
  const QUARTER_TURN: real := 1.57

  /** The pose names, in the order they are produced. */
  const NAMES: seq<string> := ["North", "East", "South", "West", "Nadir"]

  /** The five viewpoints around (lat, lng): North, East, South, West, then Nadir. */
  function GenerateViewpoints(lat: real, lng: real): (vps: seq<Viewpoint>)
    ensures |vps| == |NAMES| == 5
    ensures forall i :: 0 <= i < |vps| ==> vps[i].name == NAMES[i]
    ensures forall i :: 0 <= i < |vps| ==>
      vps[i].height == HEIGHT && vps[i].roll == 0.0 && vps[i].fov == FOV
    ensures forall i :: 0 <= i < 4 ==> vps[i].pitch == CARDINAL_PITCH
  {
    [
      Viewpoint("North", lat + OFFSET, lng, HEIGHT, 0.0, CARDINAL_PITCH, 0.0, FOV),
      Viewpoint("East", lat, lng + OFFSET, HEIGHT, 1.57, CARDINAL_PITCH, 0.0, FOV),
      Viewpoint("South", lat - OFFSET, lng, HEIGHT, 3.14, CARDINAL_PITCH, 0.0, FOV),
      Viewpoint("West", lat, lng - OFFSET, HEIGHT, 4.71, CARDINAL_PITCH, 0.0, FOV),
      Viewpoint("Nadir", lat, lng, HEIGHT, 0.0, NADIR_PITCH, 0.0, FOV)
    ]
  }

  /** The five names are pairwise distinct, so each shot is identified by its name. */
  lemma NamesDistinct(lat: real, lng: real)
    ensures forall i, j :: 0 <= i < j < 5 ==>
      GenerateViewpoints(lat, lng)[i].name != GenerateViewpoints(lat, lng)[j].name
  {
    var vps := GenerateViewpoints(lat, lng);
    assert vps[0].name == "North" && vps[1].name == "East" && vps[2].name == "South";
    assert vps[3].name == "West" && vps[4].name == "Nadir";
  }

  /** North and South lie on the meridian of the centre, on opposite sides of it,
      at the same distance. */
  lemma NorthSouthSymmetric(lat: real, lng: real)
    ensures var vps := GenerateViewpoints(lat, lng);
      vps[0].longitude == lng && vps[2].longitude == lng &&
      vps[0].latitude > lat > vps[2].latitude &&
      vps[0].latitude - lat == lat - vps[2].latitude == OFFSET
  {
  }

  /** East and West lie on the parallel of the centre, on opposite sides of it,
      at the same distance. */
  lemma EastWestSymmetric(lat: real, lng: real)
    ensures var vps := GenerateViewpoints(lat, lng);
      vps[1].latitude == lat && vps[3].latitude == lat &&
      vps[1].longitude > lng > vps[3].longitude &&
      vps[1].longitude - lng == lng - vps[3].longitude == OFFSET
  {
  }

  /** Each cardinal pose is one OFFSET step from the centre along exactly one axis. */
  lemma CardinalOneStep(lat: real, lng: real, i: nat)
    requires i < 4
    ensures var v := GenerateViewpoints(lat, lng)[i];
      var dLat := v.latitude - lat;
      var dLng := v.longitude - lng;
      dLat * dLng == 0.0 && (dLat == OFFSET || dLat == -OFFSET || dLng == OFFSET || dLng == -OFFSET)
  {
  }

  /** Nadir is straight above the centre, looking straight down with heading 0;
      its pitch is exactly minus one heading step. */
  lemma NadirAtCentre(lat: real, lng: real)
    ensures var n := GenerateViewpoints(lat, lng)[4];
      n.latitude == lat && n.longitude == lng && n.heading == 0.0 &&
      n.pitch == NADIR_PITCH == -QUARTER_TURN
  {
  }

  /** The cardinal headings are successive heading steps 0, 1, 2, 3 times
      QUARTER_TURN, so they strictly increase along the list; all four are
      tilted less steeply than Nadir. */
  lemma CardinalHeadings(lat: real, lng: real)
    ensures var vps := GenerateViewpoints(lat, lng);
      (forall i :: 0 <= i < 4 ==> vps[i].heading == i as real * QUARTER_TURN) &&
      (forall i, j :: 0 <= i < j < 4 ==> vps[i].heading < vps[j].heading) &&
      (forall i :: 0 <= i < 4 ==> NADIR_PITCH < vps[i].pitch < 0.0)
  {
    var vps := GenerateViewpoints(lat, lng);
    assert vps[0].heading == 0.0 && vps[1].heading == 1.57;
    assert vps[2].heading == 3.14 && vps[3].heading == 4.71;
  }

  /** Moving the centre moves every pose by the same amount and changes nothing
      else: the pattern depends on (lat, lng) only through a translation. */
  lemma TranslationInvariant(lat: real, lng: real, dLat: real, dLng: real)
    ensures var a := GenerateViewpoints(lat, lng);
      var b := GenerateViewpoints(lat + dLat, lng + dLng);
      forall i :: 0 <= i < 5 ==>
        b[i] == a[i].(latitude := a[i].latitude + dLat, longitude := a[i].longitude + dLng)
  {
  }
}
