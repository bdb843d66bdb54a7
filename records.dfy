/**
 * The `Location` and `State` records of the bot's persistence layer and
 * their dictionary form (the documents stored in MongoDB).
 */
module Records {
  import opened Wrappers

  /** A JSON/BSON-like value: what a Python dict read from the database holds. */
  datatype Value =
    | Num(num: real)
    | Str(str: string)
    | Bool(flag: bool)
    | Null
    | Obj(fields: map<string, Value>)
    | List(items: seq<Value>)

  type Dict = map<string, Value>

  /** A stored station; `default` is False unless set. */
  datatype Location = Location(lat: real, lon: real, name: string, default: bool)

  /** The conversation step a chat is in. */
  datatype StateType = Idle | Get | GetTenDays | GetRadar | Add | Rename | Remove | SetDefault

  /** The per-chat conversation record; `location` and `addLocations` are optional. */
  datatype State = State(kind: StateType, location: Option<Location>, addLocations: Option<seq<Location>>)

  /** A state carrying only its type, as `State('add')` builds it. */
  function Plain(kind: StateType): State
  {
    State(kind, None, None)
  }

  /** The string each state type is stored as. */
  function TypeName(t: StateType): string
  {
    match t
    case Idle => "idle"
    case Get => "get"
    case GetTenDays => "getTenDays"
    case GetRadar => "getRadar"
    case Add => "add"
    case Rename => "rename"
    case Remove => "remove"
    case SetDefault => "set_default"
  }

  /** Reads a stored type string back; other strings are not a state type. */
  function ParseType(s: string): (r: Option<StateType>)
    ensures r.Some? ==> TypeName(r.value) == s
  {
    if s == "idle" then Some(Idle)
    else if s == "get" then Some(Get)
    else if s == "getTenDays" then Some(GetTenDays)
    else if s == "getRadar" then Some(GetRadar)
    else if s == "add" then Some(Add)
    else if s == "rename" then Some(Rename)
    else if s == "remove" then Some(Remove)
    else if s == "set_default" then Some(SetDefault)
    else None
  }

  lemma ParseTypeName(t: StateType)
    ensures ParseType(TypeName(t)) == Some(t)
  {
  }

  /** `Location.toDict`: the dataclass as a dict with all four fields. */
  function LocationToDict(l: Location): (d: Dict)
    ensures d.Keys == {"lat", "lon", "name", "default"}
    ensures d["name"] == Str(l.name) && d["default"] == Bool(l.default)
  {
    map["lat" := Num(l.lat), "lon" := Num(l.lon), "name" := Str(l.name), "default" := Bool(l.default)]
  }

  /**
   * `Location.fromDict`: `lat`, `lon` and `name` are required; a missing
   * `default` reads as False.
   */
  function LocationFromDict(d: Dict): (r: Result<Location, string>)
    ensures r.Ok? <==>
              && "lat" in d && d["lat"].Num?
              && "lon" in d && d["lon"].Num?
              && "name" in d && d["name"].Str?
              && ("default" in d ==> d["default"].Bool?)
    ensures r.Ok? ==> r.value.lat == d["lat"].num && r.value.lon == d["lon"].num
                      && r.value.name == d["name"].str
    ensures r.Ok? && "default" !in d ==> !r.value.default
  {
    if "lat" !in d || !d["lat"].Num? then Err("lat")
    else if "lon" !in d || !d["lon"].Num? then Err("lon")
    else if "name" !in d || !d["name"].Str? then Err("name")
    else if "default" in d && !d["default"].Bool? then Err("default")
    else Ok(Location(d["lat"].num, d["lon"].num, d["name"].str,
                     if "default" in d then d["default"].flag else false))
  }

  /** Every location survives `toDict` followed by `fromDict` unchanged. */
  lemma LocationRoundTrip(l: Location)
    ensures LocationFromDict(LocationToDict(l)) == Ok(l)
  {
  }

  /** The list comprehension `[l.toDict() for l in ls]`. */
  function LocationsToValues(ls: seq<Location>): (vs: seq<Value>)
    ensures |vs| == |ls|
  {
    if ls == [] then [] else [Obj(LocationToDict(ls[0]))] + LocationsToValues(ls[1..])
  }

  /** The list comprehension `[Location.fromDict(l) for l in vs]`; one bad element fails all. */
  function LocationsFromValues(vs: seq<Value>): (r: Result<seq<Location>, string>)
    ensures r.Ok? <==> forall i :: 0 <= i < |vs| ==> vs[i].Obj? && LocationFromDict(vs[i].fields).Ok?
    ensures r.Ok? ==> |r.value| == |vs|
    ensures r.Ok? ==> forall i :: 0 <= i < |vs| ==> vs[i].Obj? && LocationFromDict(vs[i].fields) == Ok(r.value[i])
  {
    if vs == [] then Ok([])
    else if !vs[0].Obj? then Err("location")
    else match LocationFromDict(vs[0].fields)
      case Err(e) => Err(e)
      case Ok(l) =>
        match LocationsFromValues(vs[1..])
        case Err(e) => Err(e)
        case Ok(ls) => Ok([l] + ls)
  }

  lemma {:induction false} LocationsRoundTrip(ls: seq<Location>)
    ensures LocationsFromValues(LocationsToValues(ls)) == Ok(ls)
  {
    if ls != [] {
      LocationsRoundTrip(ls[1..]);
      LocationRoundTrip(ls[0]);
      assert LocationsToValues(ls)[1..] == LocationsToValues(ls[1..]);
      assert [ls[0]] + ls[1..] == ls;
    }
  }

  /** `State.toDict`: absent optional parts are written as None (`Null`). */
  function StateToDict(s: State): (d: Dict)
    ensures d.Keys == {"type", "location", "addLocations"}
    ensures d["type"] == Str(TypeName(s.kind))
    ensures s.location.None? <==> d["location"] == Null
    ensures s.addLocations.None? <==> d["addLocations"] == Null
  {
    map[
      "type" := Str(TypeName(s.kind)),
      "location" := (match s.location case None => Null case Some(l) => Obj(LocationToDict(l))),
      "addLocations" := (match s.addLocations case None => Null case Some(ls) => List(LocationsToValues(ls)))
    ]
  }

  /**
   * `State.fromDict`: a missing or None `location`/`addLocations` reads as
   * absent, a present one is decoded and must decode; `type` is required
   * and must name a state type.
   */
  function StateFromDict(d: Dict): (r: Result<State, string>)
    ensures r.Ok? <==>
              && "type" in d && d["type"].Str? && ParseType(d["type"].str).Some?
              && ("location" in d && d["location"] != Null ==>
                    d["location"].Obj? && LocationFromDict(d["location"].fields).Ok?)
              && ("addLocations" in d && d["addLocations"] != Null ==>
                    d["addLocations"].List? && LocationsFromValues(d["addLocations"].items).Ok?)
    ensures r.Ok? ==> ParseType(d["type"].str) == Some(r.value.kind)
    ensures r.Ok? ==>
              r.value.location ==
                (if "location" !in d || d["location"] == Null then None
                 else Some(LocationFromDict(d["location"].fields).value))
    ensures r.Ok? ==>
              r.value.addLocations ==
                (if "addLocations" !in d || d["addLocations"] == Null then None
                 else Some(LocationsFromValues(d["addLocations"].items).value))
  {
    var location :=
      if "location" !in d || d["location"] == Null then Ok(None)
      else if !d["location"].Obj? then Err("location")
      else match LocationFromDict(d["location"].fields)
        case Err(e) => Err(e)
        case Ok(l) => Ok(Some(l));
    var addLocations :=
      if "addLocations" !in d || d["addLocations"] == Null then Ok(None)
      else if !d["addLocations"].List? then Err("addLocations")
      else match LocationsFromValues(d["addLocations"].items)
        case Err(e) => Err(e)
        case Ok(ls) => Ok(Some(ls));
    if location.Err? then Err(location.error)
    else if addLocations.Err? then Err(addLocations.error)
    else if "type" !in d || !d["type"].Str? || ParseType(d["type"].str).None? then Err("type")
    else Ok(State(ParseType(d["type"].str).value, location.value, addLocations.value))
  }

  /** Every state survives `toDict` followed by `fromDict` unchanged. */
  lemma StateRoundTrip(s: State)
    ensures StateFromDict(StateToDict(s)) == Ok(s)
  {
    ParseTypeName(s.kind);
    if s.location.Some? {
      LocationRoundTrip(s.location.value);
    }
    if s.addLocations.Some? {
      LocationsRoundTrip(s.addLocations.value);
    }
  }

  /** What `getState` returns for a chat with no stored state: `State('idle')`. */
  function IdleState(): (s: State)
    ensures s.kind == Idle && s.location.None? && s.addLocations.None?
  {
    Plain(Idle)
  }
}
