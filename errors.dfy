/** The error variants every operation of the mesh library can report. */
module Errors {
  import opened Levels

  datatype JismeshError =
    | LatitudeOutOfBounds(lat: real)
    | LongitudeOutOfBounds(lon: real)
    | UnknownMeshLevelForCode(code: nat)
    | InvalidMeshcodeAtLevel(digits: nat, code: nat)
    | InvalidMeshLevel(value: nat)
    | InvalidMeshLevelForLowerLevel(from: MeshLevel, to: MeshLevel)
    | UnsupportedMeshLevelConversion(from: MeshLevel, to: MeshLevel)
    | MismatchedMeshLevels(sw: MeshLevel, ne: MeshLevel)
    | ParseError

  datatype Result<T> = Ok(value: T) | Err(error: JismeshError)
}

/** Conversions into a mesh level that can fail: from a discriminant and from a name. */
module LevelConversion {
  import opened Levels
  import opened Errors

  function TryFrom(value: nat): (r: Result<MeshLevel>)
    ensures r.Ok? ==> Discriminant(r.value) == value
    ensures r.Err? ==> r.error == InvalidMeshLevel(value)
  {
    match value
    case 1 => Ok(Lv1)
    case 40000 => Ok(X40)
    case 20000 => Ok(X20)
    case 16000 => Ok(X16)
    case 2 => Ok(Lv2)
    case 8000 => Ok(X8)
    case 5000 => Ok(X5)
    case 4000 => Ok(X4)
    case 2500 => Ok(X2_5)
    case 2000 => Ok(X2)
    case 3 => Ok(Lv3)
    case 4 => Ok(Lv4)
    case 5 => Ok(Lv5)
    case 6 => Ok(Lv6)
    case _ => Err(InvalidMeshLevel(value))
  }

  /** TryFrom inverts Discriminant and rejects every other number. */
  lemma TryFromDiscriminant(level: MeshLevel, value: nat)
    ensures TryFrom(Discriminant(level)) == Ok(level)
    ensures (forall l :: Discriminant(l) != value) ==> TryFrom(value) == Err(InvalidMeshLevel(value))
    ensures TryFrom(9999).Err?
  {
  }

  /** Parsing a level name, as the derived FromStr does. */
  function FromStr(s: string): (r: Result<MeshLevel>)
    ensures r.Ok? ==> Name(r.value) == s
    ensures r.Err? ==> r.error == ParseError
  {
    if s == "Lv1" then Ok(Lv1)
    else if s == "X40" then Ok(X40)
    else if s == "X20" then Ok(X20)
    else if s == "X16" then Ok(X16)
    else if s == "Lv2" then Ok(Lv2)
    else if s == "X8" then Ok(X8)
    else if s == "X5" then Ok(X5)
    else if s == "X4" then Ok(X4)
    else if s == "X2_5" then Ok(X2_5)
    else if s == "X2" then Ok(X2)
    else if s == "Lv3" then Ok(Lv3)
    else if s == "Lv4" then Ok(Lv4)
    else if s == "Lv5" then Ok(Lv5)
    else if s == "Lv6" then Ok(Lv6)
    else Err(ParseError)
  }

  /** Display and FromStr round-trip; text that names no level fails to parse. */
  lemma NameRoundTrip(level: MeshLevel, s: string)
    ensures FromStr(Name(level)) == Ok(level)
    ensures (forall l :: Name(l) != s) ==> FromStr(s) == Err(ParseError)
    ensures FromStr("Invalid").Err?
  {
  }
}
