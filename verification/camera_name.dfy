/**
  The human-readable camera name the cam tool prints when listing cameras
  (CamApp::cameraName). The name is built from the camera's optional
  Location and Model properties and always ends with the camera id in
  parentheses.
 */
module CameraNaming {
  import opened Wrappers

  /** Raw values of the libcamera Location property. */
  const LOCATION_FRONT: int := 0
  const LOCATION_BACK: int := 1
  const LOCATION_EXTERNAL: int := 2

  /** The Location property decoded; Other keeps any value the switch has no case for. */
  datatype Location = Front | Back | External | Other(code: int)

  /** The two camera properties the name depends on; either may be missing. */
  datatype Properties = Properties(location: Option<int>, model: Option<string>)

  function EncodeLocation(l: Location): int
  {
    match l
    case Front => LOCATION_FRONT
    case Back => LOCATION_BACK
    case External => LOCATION_EXTERNAL
    case Other(code) => code
  }

  /** Decodes a raw Location value; only values without a named case become Other. */
  function DecodeLocation(v: int): (l: Location)
    ensures l.Other? <==> v != LOCATION_FRONT && v != LOCATION_BACK && v != LOCATION_EXTERNAL
    ensures EncodeLocation(l) == v
  {
    if v == LOCATION_FRONT then Front
    else if v == LOCATION_BACK then Back
    else if v == LOCATION_EXTERNAL then External
    else Other(v)
  }

  /** The id part every name ends with. */
  function IdSuffix(id: string): string
  {
    "(" + id + ")"
  }

  predicate EndsWith(s: string, suffix: string)
  {
    |suffix| <= |s| && s[|s| - |suffix|..] == suffix
  }

  /** True when the Location property is present and names an internal (front or back) camera. */
  predicate IsInternal(props: Properties)
  {
    props.location == Some(LOCATION_FRONT) || props.location == Some(LOCATION_BACK)
  }

  /**
    The display name. The location switch sets a prefix and clears addModel
    for front and back cameras; a present Model then REPLACES the prefix
    (including "External camera "), and the id suffix is appended last.
   */
  function CameraName(props: Properties, id: string): (name: string)
    ensures EndsWith(name, IdSuffix(id))
    ensures props.location == Some(LOCATION_FRONT) ==>
              name == "Internal front camera " + IdSuffix(id)
    ensures props.location == Some(LOCATION_BACK) ==>
              name == "Internal back camera " + IdSuffix(id)
    ensures !IsInternal(props) && props.model.Some? ==>
              name == "'" + props.model.value + "' " + IdSuffix(id)
    ensures props.location == Some(LOCATION_EXTERNAL) && props.model.None? ==>
              name == "External camera " + IdSuffix(id)
    ensures props.location != Some(LOCATION_EXTERNAL) && !IsInternal(props) && props.model.None? ==>
              name == IdSuffix(id)
  {
    var (addModel, prefix) :=
      if props.location.None? then (true, "")
      else match DecodeLocation(props.location.value)
        case Front => (false, "Internal front camera ")
        case Back => (false, "Internal back camera ")
        case External => (true, "External camera ")
        case Other(_) => (true, "");
    var named := if addModel && props.model.Some? then "'" + props.model.value + "' " else prefix;
    named + IdSuffix(id)
  }

  /** Two cameras with the same properties get the same name only if they have the same id. */
  lemma NameDeterminesId(props: Properties, id1: string, id2: string)
    requires CameraName(props, id1) == CameraName(props, id2)
    ensures id1 == id2
  {
    var n := CameraName(props, id1);
    var k1 := |n| - |IdSuffix(id1)|;
    var k2 := |n| - |IdSuffix(id2)|;
    // Both names share the prefix chosen from props, so the suffixes start at the same index.
    assert n[..k1] == n[..k2];
    assert n[k1 + 1..|n| - 1] == id1;
    assert n[k2 + 1..|n| - 1] == id2;
  }
}
