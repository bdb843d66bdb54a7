/**
 * The bot's chat handlers: commands and messages read and rewrite the
 * chat's conversation state and its stored locations, and answer with
 * messages, keyboards, forecasts and radar animations. Geocoding results
 * and the weather station found near a place are inputs.
 */
module Conversation {
  import opened Wrappers
  import opened Lists
  import opened Records
  import opened Tables
  import opened BotBackend

  const NeedAdd: string := "You need to add a location with /add."
  const InvalidStation: string := "Invalid station name."
  const InvalidSelection: string := "Invalid location selected."
  const NothingFound: string := "I couldn't find a location."
  const FoundSome: string := "I have found these locations matching. Choose one:"
  const AskNewName: string := "Ok. What is the new name?"
  const AskLocation: string := "Ok, now send a location."

  /** A reply keyboard: rows of button labels and its two display flags. */
  datatype Keyboard = Keyboard(rows: seq<seq<string>>, resize: bool, oneTime: bool)

  /** What a handler sends to the chat. */
  datatype Reply =
    | Message(text: string)
    /** A message offering a reply keyboard. */
    | Choose(text: string, keyboard: Keyboard)
    /** `sendForecast`: ten days or the detailed short range, captioned with `name` when given. */
    | Forecast(lat: real, lon: real, tenDays: bool, name: Option<string>)
    /** `sendRadar`. */
    | Radar(lat: real, lon: real)
    /** A command argument the chat has not added; lists the added names. */
    | NotAdded(requested: string, added: seq<string>)
    /** No weather station near the location. */
    | NoStation
    | StationAdded(station: string, distance: real)
    | AlreadyAdded(station: string)
    | Renamed(from: string, to: string)
    | Removed(station: string)

  /** The locations' names, in order. */
  function Names(ls: seq<Location>): seq<string>
  {
    Map(ls, (l: Location) => l.name)
  }

  function NamedIs(name: string): Location -> bool
  {
    (l: Location) => l.name == name
  }

  /** The keyboard offered for a list of locations: their names, two per row, in order. */
  ghost predicate IsLocationKeyboard(kb: Keyboard, ls: seq<Location>)
  {
    && kb.resize && kb.oneTime
    && Flatten(kb.rows) == Names(ls)
    && PairedRows(kb.rows, |ls|)
  }

  /** `locationReplyKeyboard`. */
  method LocationReplyKeyboard(ls: seq<Location>) returns (kb: Keyboard)
    ensures IsLocationKeyboard(kb, ls)
  {
    var rows := PairUp(Names(ls));
    kb := Keyboard(rows, true, true);
  }

  /** A geocoded place as a stored location: name, coordinates, not the default. */
  function AsStored(lat: real, lon: real, name: string): Location
  {
    Location(lat, lon, name, false)
  }

  /** The locations after `addLocation`: the station's record is inserted unless the chat holds the coordinates. */
  function AfterAddStation(rows: seq<Row<Location>>, chat: ChatId, lat: real, lon: real,
                           station: Option<(string, real)>): seq<Row<Location>>
  {
    match station
    case None => rows
    case Some(info) =>
      if FirstMatch(rows, chat, Coords(lat, lon), LocationCoords).Some? then rows
      else rows + [Row(chat, AsStored(lat, lon, info.0))]
  }

  /**
   * The state `handleText` leaves: it stays `rename` with the target when
   * a rename target is picked, becomes `add` or `get` with the candidates
   * when a search in `add` state, or in a private chat's `idle` state,
   * finds some, and is idle in every other case.
   */
  function StateAfterText(s: State, locs: seq<Location>, text: string, private: bool, found: seq<Location>): State
  {
    if s.kind == Rename && s.location.None? && FirstWhere(locs, NamedIs(text)).Some? then
      State(Rename, FirstWhere(locs, NamedIs(text)), None)
    else if s.kind == Add && s.addLocations.None? && found != [] then
      State(Add, None, Some(found))
    else if s.kind == Idle && private && found != [] then
      State(Get, None, Some(found))
    else
      IdleState()
  }

  /**
   * The locations after `handleText`: a rename renames the target found by
   * its old name, a removal removes the location named by the text, and a
   * selection among add candidates stores that place's station.
   */
  function LocationsAfterText(rows: seq<Row<Location>>, chat: ChatId, s: State, text: string,
                              stationOf: (real, real) -> Option<(string, real)>): seq<Row<Location>>
  {
    var locs := OfChat(rows, chat);
    match s.kind
    case Rename =>
      if s.location.None? then rows
      else (match FirstWhere(locs, NamedIs(s.location.value.name))
            case None => rows
            case Some(l) => UpdateFirst(rows, chat, LocationCoords(l), LocationCoords, NameSetter(text)))
    case Remove =>
      (match FirstWhere(locs, NamedIs(text))
       case None => rows
       case Some(l) => DeleteFirst(rows, chat, LocationCoords(l), LocationCoords))
    case Add =>
      if s.addLocations.None? then rows
      else (match FirstWhere(s.addLocations.value, NamedIs(text))
            case None => rows
            case Some(l) => AfterAddStation(rows, chat, l.lat, l.lon, stationOf(l.lat, l.lon)))
    case _ => rows
  }

  /** `handleText` is idle afterwards unless one of its three hand-over cases applies. */
  lemma TextEndsIdle(s: State, locs: seq<Location>, text: string, private: bool, found: seq<Location>)
    ensures StateAfterText(s, locs, text, private, found) == IdleState() <==>
              && !(s.kind == Rename && s.location.None? && exists k :: 0 <= k < |locs| && locs[k].name == text)
              && !(s.kind == Add && s.addLocations.None? && found != [])
              && !(s.kind == Idle && private && found != [])
  {
    if exists k :: 0 <= k < |locs| && locs[k].name == text {
      var k :| 0 <= k < |locs| && locs[k].name == text;
      assert NamedIs(text)(locs[k]);
    }
  }

  /**
   * A text in `add` state that picks among candidates leaves the chat idle,
   * whether or not the store succeeds: the state is reset before the
   * dispatch, and the selection branch never sets another.
   */
  lemma AddSelectionEndsIdle(s: State, locs: seq<Location>, text: string, private: bool, found: seq<Location>)
    requires s.kind == Add && s.addLocations.Some?
    ensures StateAfterText(s, locs, text, private, found) == IdleState()
  {
  }

  /**
   * `addLocation` as written reads `self.weatherProvider`, which the bot
   * never assigns, so every call raises before anything is stored or sent.
   */
  const MissingProvider: string := "AttributeError"

  /**
   * The locations after `handleText` as written: a selection among add
   * candidates stores nothing, since `addLocation` raises; every other
   * case is as `LocationsAfterText` describes, whatever the station lookup.
   */
  function LocationsAfterTextAsWritten(rows: seq<Row<Location>>, chat: ChatId, s: State, text: string): (r: seq<Row<Location>>)
    ensures s.kind == Add ==> r == rows
    ensures forall stationOf: (real, real) -> Option<(string, real)> ::
              s.kind != Add ==> r == LocationsAfterText(rows, chat, s, text, stationOf)
  {
    if s.kind == Add then rows
    else LocationsAfterText(rows, chat, s, text, (lat: real, lon: real) => None)
  }

  /**
   * Picking a found place in `add` state: with a station near it and no
   * location stored yet, the intended handler stores that station, while
   * the handler as written stores nothing.
   */
  lemma AddSelectionAsWritten(chat: ChatId, l: Location, info: (string, real))
    ensures var s := State(Add, None, Some([l]));
            var stationOf := (lat: real, lon: real) => Some(info);
            && LocationsAfterText([], chat, s, l.name, stationOf) == [Row(chat, AsStored(l.lat, l.lon, info.0))]
            && LocationsAfterTextAsWritten([], chat, s, l.name) == []
  {
    assert NamedIs(l.name)(l);
    assert FirstWhere([l], NamedIs(l.name)) == Some(l);
    assert FirstMatch([], chat, Coords(l.lat, l.lon), LocationCoords).None?;
  }

  /**
   * The two-message rename: in `rename` state without a target, naming a
   * stored location makes it the target; the next text renames exactly that
   * location, keeping its coordinates, and no other chat sees a change.
   */
  lemma RenameConversation(rows: seq<Row<Location>>, chat: ChatId, oldName: string, newName: string,
                           private: bool, found: seq<Location>, stationOf: (real, real) -> Option<(string, real)>)
    requires UniquePerChat(rows, LocationCoords)
    requires FirstWhere(OfChat(rows, chat), NamedIs(oldName)).Some?
    ensures var l := FirstWhere(OfChat(rows, chat), NamedIs(oldName)).value;
            var s1 := StateAfterText(Plain(Rename), OfChat(rows, chat), oldName, private, found);
            var r := LocationsAfterText(rows, chat, s1, newName, stationOf);
            && s1 == State(Rename, Some(l), None)
            && l.(name := newName) in OfChat(r, chat)
            && |r| == |rows|
            && forall c :: c != chat ==> OfChat(r, c) == OfChat(rows, c)
  {
    var locs := OfChat(rows, chat);
    var l := FirstWhere(locs, NamedIs(oldName)).value;
    assert l in locs;
    OfChatMembership(rows, chat, l);
    var i :| 0 <= i < |rows| && rows[i] == Row(chat, l);
    assert Matches(rows[i], chat, LocationCoords(l), LocationCoords);
    assert FirstMatch(rows, chat, LocationCoords(l), LocationCoords).Some?;
    OnlyMatch(rows, chat, LocationCoords(l), LocationCoords);
    assert NamedIs(l.name) == NamedIs(oldName);
    var r := UpdateFirst(rows, chat, LocationCoords(l), LocationCoords, NameSetter(newName));
    UpdateFirstEffect(rows, chat, LocationCoords(l), LocationCoords, NameSetter(newName));
    assert r[i] == Row(chat, l.(name := newName));
    OfChatMembership(r, chat, l.(name := newName));
  }

  /** The bot's handlers over its store. */
  class MainBot {
    const db: Backend

    ghost predicate Valid()
      reads this, db
    {
      db.Valid()
    }

    constructor (db: Backend)
      requires db.Valid()
      ensures Valid() && this.db == db
    {
      this.db := db;
    }

    /** `/add`: the chat waits for a location. */
    method Add(chat: ChatId) returns (replies: seq<Reply>)
      requires Valid()
      modifies db
      ensures Valid()
      ensures db.StateOf(chat) == Plain(StateType.Add)
      ensures forall c :: c != chat ==> db.StateOf(c) == old(db.StateOf(c))
      ensures db.locations == old(db.locations)
      ensures replies == [Message(AskLocation)]
    {
      db.SetState(chat, Plain(StateType.Add));
      replies := [Message(AskLocation)];
    }

    /** `/delete` and `/remove`: ask which station to remove, unless the chat has none. */
    method Delete(chat: ChatId) returns (replies: seq<Reply>)
      requires Valid()
      modifies db
      ensures Valid()
      ensures db.locations == old(db.locations)
      ensures OfChat(db.locations, chat) == [] ==> db.states == old(db.states) && replies == [Message(NeedAdd)]
      ensures OfChat(db.locations, chat) != [] ==>
                && db.StateOf(chat) == Plain(Remove)
                && |replies| == 1 && replies[0].Choose?
                && replies[0].text == "Which station should be removed?"
                && IsLocationKeyboard(replies[0].keyboard, OfChat(db.locations, chat))
      ensures forall c :: c != chat ==> db.StateOf(c) == old(db.StateOf(c))
    {
      var locations := db.GetLocations(chat);
      if |locations| == 0 {
        return [Message(NeedAdd)];
      }
      db.SetState(chat, Plain(Remove));
      var kb := LocationReplyKeyboard(locations);
      replies := [Choose("Which station should be removed?", kb)];
    }

    /** `/rename`: the state becomes `rename` first, even when the chat has no locations. */
    method Rename(chat: ChatId) returns (replies: seq<Reply>)
      requires Valid()
      modifies db
      ensures Valid()
      ensures db.StateOf(chat) == Plain(StateType.Rename)
      ensures forall c :: c != chat ==> db.StateOf(c) == old(db.StateOf(c))
      ensures db.locations == old(db.locations)
      ensures OfChat(db.locations, chat) == [] ==> replies == [Message(NeedAdd)]
      ensures OfChat(db.locations, chat) != [] ==>
                && |replies| == 1 && replies[0].Choose?
                && replies[0].text == "Choose a station to rename."
                && IsLocationKeyboard(replies[0].keyboard, OfChat(db.locations, chat))
    {
      db.SetState(chat, Plain(StateType.Rename));
      var locations := db.GetLocations(chat);
      if |locations| == 0 {
        return [Message(NeedAdd)];
      }
      var kb := LocationReplyKeyboard(locations);
      replies := [Choose("Choose a station to rename.", kb)];
    }

    /**
     * `/get`, `/getDetailed` and `/radar` (`what` is their state type).
     * Without arguments the state becomes `what` and a keyboard is offered,
     * but only when the chat has locations; with a name, the first location
     * so named is forecast (or its radar sent). Arguments that are None
     * fail with a TypeError when indexed.
     */
    method GetWrapper(chat: ChatId, args: Option<seq<string>>, what: StateType) returns (replies: seq<Reply>, error: Option<string>)
      requires Valid()
      modifies db
      ensures Valid()
      ensures db.locations == old(db.locations)
      ensures forall c :: c != chat ==> db.StateOf(c) == old(db.StateOf(c))
      ensures var locs := OfChat(db.locations, chat);
              && (locs == [] ==> db.states == old(db.states) && replies == [Message(NeedAdd)] && error.None?)
              && (locs != [] && args == Some([]) ==>
                    && db.StateOf(chat) == Plain(what) && error.None?
                    && |replies| == 1 && replies[0].Choose? && replies[0].text == "Choose a station."
                    && IsLocationKeyboard(replies[0].keyboard, locs))
              && (locs != [] && args.None? ==> db.states == old(db.states) && replies == [] && error == Some("TypeError"))
              && (locs != [] && args.Some? && args.value != [] ==>
                    && db.states == old(db.states) && error.None?
                    && replies == match FirstWhere(locs, NamedIs(args.value[0]))
                                  case None => [NotAdded(args.value[0], Names(locs))]
                                  case Some(l) =>
                                    if what == GetRadar then [Radar(l.lat, l.lon)]
                                    else [Forecast(l.lat, l.lon, what == GetTenDays, Some(l.name))])
    {
      error := None;
      var locations := db.GetLocations(chat);
      if |locations| == 0 {
        return [Message(NeedAdd)], None;
      }
      var locationNames := Names(locations);
      if args.Some? && |args.value| == 0 {
        db.SetState(chat, Plain(what));
        var kb := LocationReplyKeyboard(locations);
        return [Choose("Choose a station.", kb)], None;
      }
      if args.None? {
        return [], Some("TypeError");
      }
      var name := args.value[0];
      if name !in locationNames {
        assert FirstWhere(locations, NamedIs(name)).None?;
        return [NotAdded(name, locationNames)], None;
      }
      var location := FirstWhere(locations, NamedIs(name)).value;
      if what == GetRadar {
        replies := [Radar(location.lat, location.lon)];
      } else {
        replies := [Forecast(location.lat, location.lon, what == GetTenDays, Some(location.name))];
      }
    }

    /**
     * `addLocation`: store the station found near the coordinates, unless
     * there is none or the chat already holds the coordinates; a new
     * station is then forecast.
     */
    method AddStation(chat: ChatId, lat: real, lon: real, station: Option<(string, real)>) returns (replies: seq<Reply>)
      requires Valid()
      modifies db
      ensures Valid()
      ensures db.locations == AfterAddStation(old(db.locations), chat, lat, lon, station)
      ensures db.states == old(db.states)
      ensures replies == match station
                         case None => [NoStation]
                         case Some(info) =>
                           if FirstMatch(old(db.locations), chat, Coords(lat, lon), LocationCoords).None?
                           then [StationAdded(info.0, info.1), Forecast(lat, lon, true, None)]
                           else [AlreadyAdded(info.0)]
    {
      if station.None? {
        return [NoStation];
      }
      var (name, dist) := station.value;
      var added := db.AddLocation(chat, AsStored(lat, lon, name));
      if added {
        replies := [StationAdded(name, dist), Forecast(lat, lon, true, None)];
      } else {
        replies := [AlreadyAdded(name)];
      }
    }

    /**
     * A received location: in `add` state it is stored (`station` is what
     * the weather service finds near it) and the state returns to idle;
     * otherwise its ten-day forecast is sent and nothing changes.
     */
    method HandleLocation(chat: ChatId, lat: real, lon: real, station: Option<(string, real)>) returns (replies: seq<Reply>)
      requires Valid()
      modifies db
      ensures Valid()
      ensures forall c :: c != chat ==> db.StateOf(c) == old(db.StateOf(c))
      ensures old(db.StateOf(chat)).kind == StateType.Add ==>
                && db.locations == AfterAddStation(old(db.locations), chat, lat, lon, station)
                && db.StateOf(chat) == IdleState()
      ensures old(db.StateOf(chat)).kind != StateType.Add ==>
                && db.locations == old(db.locations) && db.states == old(db.states)
                && replies == [Forecast(lat, lon, true, None)]
    {
      var state := db.GetState(chat);
      if state.kind == StateType.Add {
        replies := AddStation(chat, lat, lon, station);
        db.SetState(chat, IdleState());
      } else {
        replies := [Forecast(lat, lon, true, None)];
      }
    }

    /** `addLocation` as written: it raises, having stored and sent nothing. */
    method AddStationAsWritten(chat: ChatId, lat: real, lon: real) returns (replies: seq<Reply>, error: Option<string>)
      ensures replies == [] && error == Some(MissingProvider)
    {
      replies, error := [], Some(MissingProvider);
    }

    /**
     * A received location as `handleLocation` is written: in `add` state
     * `addLocation` raises before the state is reset, so nothing is sent or
     * stored and the chat stays in `add`; otherwise the ten-day forecast is
     * sent. No state changes either way.
     */
    method HandleLocationAsWritten(chat: ChatId, lat: real, lon: real) returns (replies: seq<Reply>, error: Option<string>)
      requires Valid()
      ensures db.StateOf(chat).kind == StateType.Add ==> replies == [] && error == Some(MissingProvider)
      ensures db.StateOf(chat).kind != StateType.Add ==> replies == [Forecast(lat, lon, true, None)] && error.None?
    {
      var state := db.GetState(chat);
      if state.kind == StateType.Add {
        replies, error := AddStationAsWritten(chat, lat, lon);
      } else {
        replies, error := [Forecast(lat, lon, true, None)], None;
      }
    }

    /** A search that found `found` offers the candidates and moves to `kind`, or says nothing was found. */
    method OfferCandidates(chat: ChatId, kind: StateType, found: seq<Location>) returns (replies: seq<Reply>)
      requires Valid()
      modifies db
      ensures Valid()
      ensures db.locations == old(db.locations)
      ensures found == [] ==> db.states == old(db.states) && replies == [Message(NothingFound)]
      ensures found != [] ==>
                && db.states == old(db.states)[chat := StateToDict(State(kind, None, Some(found)))]
                && |replies| == 1 && replies[0].Choose? && replies[0].text == FoundSome
                && IsLocationKeyboard(replies[0].keyboard, found)
    {
      if |found| > 0 {
        db.SetState(chat, State(kind, None, Some(found)));
        var kb := LocationReplyKeyboard(found);
        replies := [Choose(FoundSome, kb)];
      } else {
        replies := [Message(NothingFound)];
      }
    }

    /**
     * A text message, dispatched on the chat's state after resetting it to
     * idle. `private` says whether the chat is private, `found` is what
     * the geocoder returns for the text, `stationOf` the station found
     * near a place.
     */
    method HandleText(chat: ChatId, text: string, private: bool, found: seq<Location>,
                      stationOf: (real, real) -> Option<(string, real)>) returns (replies: seq<Reply>)
      requires Valid()
      modifies db
      ensures Valid()
      ensures db.StateOf(chat) == StateAfterText(old(db.StateOf(chat)), old(OfChat(db.locations, chat)), text, private, found)
      ensures forall c :: c != chat ==> db.StateOf(c) == old(db.StateOf(c))
      ensures db.locations == LocationsAfterText(old(db.locations), chat, old(db.StateOf(chat)), text, stationOf)
    {
      var state := db.GetState(chat);
      db.SetState(chat, IdleState());
      if state.kind == Get || state.kind == GetTenDays || state.kind == GetRadar {
        replies := TextToGet(chat, state, text, private, found, stationOf);
      } else if state.kind == StateType.Rename {
        replies := TextToRename(chat, state, text, private, found, stationOf);
      } else if state.kind == Remove {
        replies := TextToRemove(chat, state, text, private, found, stationOf);
      } else if state.kind == StateType.Add {
        replies := TextToAdd(chat, state, text, private, found, stationOf);
      } else {
        replies := TextWhenIdle(chat, state, text, private, found, stationOf);
      }
    }

    /**
     * A text in a get state: a selection among search candidates sends
     * radar and forecast, otherwise the stored location so named gets what
     * the state asks for. The state stays idle, nothing is stored.
     */
    method TextToGet(chat: ChatId, state: State, text: string, private: bool, found: seq<Location>,
                   stationOf: (real, real) -> Option<(string, real)>) returns (replies: seq<Reply>)
      requires Valid() && db.StateOf(chat) == IdleState()
      requires state.kind == Get || state.kind == GetTenDays || state.kind == GetRadar
      modifies db
      ensures Valid()
      ensures db.StateOf(chat) == StateAfterText(state, old(OfChat(db.locations, chat)), text, private, found)
      ensures forall c :: c != chat ==> db.StateOf(c) == old(db.StateOf(c))
      ensures db.locations == LocationsAfterText(old(db.locations), chat, state, text, stationOf)
      ensures state.addLocations.Some? ==>
                replies == match FirstWhere(state.addLocations.value, NamedIs(text))
                           case None => [Message(InvalidSelection)]
                           case Some(l) => [Radar(l.lat, l.lon), Forecast(l.lat, l.lon, true, None)]
      ensures state.addLocations.None? ==>
                replies == match FirstWhere(OfChat(db.locations, chat), NamedIs(text))
                           case None => [Message(InvalidStation)]
                           case Some(l) =>
                             if state.kind == GetRadar then [Radar(l.lat, l.lon)]
                             else [Forecast(l.lat, l.lon, state.kind == GetTenDays, None)]
    {
      if state.addLocations.Some? {
        var selected := FirstWhere(state.addLocations.value, NamedIs(text));
        if selected.Some? {
          var l := selected.value;
          replies := [Radar(l.lat, l.lon), Forecast(l.lat, l.lon, true, None)];
        } else {
          replies := [Message(InvalidSelection)];
        }
        db.SetState(chat, IdleState());
      } else {
        var locations := db.GetLocations(chat);
        var selected := FirstWhere(locations, NamedIs(text));
        if selected.Some? {
          var l := selected.value;
          if state.kind == GetRadar {
            replies := [Radar(l.lat, l.lon)];
          } else {
            replies := [Forecast(l.lat, l.lon, state.kind == GetTenDays, None)];
          }
        } else {
          replies := [Message(InvalidStation)];
        }
      }
    }

    /**
     * A text in `rename` state: with a target it is the new name of the
     * stored location named like the target; without one it picks the
     * target among the stored locations and keeps the chat in `rename`.
     */
    method TextToRename(chat: ChatId, state: State, text: string, private: bool, found: seq<Location>,
                   stationOf: (real, real) -> Option<(string, real)>) returns (replies: seq<Reply>)
      requires Valid() && db.StateOf(chat) == IdleState()
      requires state.kind == StateType.Rename
      modifies db
      ensures Valid()
      ensures db.StateOf(chat) == StateAfterText(state, old(OfChat(db.locations, chat)), text, private, found)
      ensures forall c :: c != chat ==> db.StateOf(c) == old(db.StateOf(c))
      ensures db.locations == LocationsAfterText(old(db.locations), chat, state, text, stationOf)
    {
      var locations := db.GetLocations(chat);
      if state.location.Some? {
        var target := FirstWhere(locations, NamedIs(state.location.value.name));
        if target.Some? {
          db.RenameLocation(chat, target.value, text);
          replies := [Renamed(state.location.value.name, text)];
        } else {
          replies := [Message(InvalidStation)];
        }
        return;
      }
      var target := FirstWhere(locations, NamedIs(text));
      if target.Some? {
        db.SetState(chat, State(StateType.Rename, target, None));
        replies := [Message(AskNewName)];
      } else {
        replies := [Message(InvalidStation)];
      }
    }

    /** A text in `remove` state: the stored location so named is removed. */
    method TextToRemove(chat: ChatId, state: State, text: string, private: bool, found: seq<Location>,
                   stationOf: (real, real) -> Option<(string, real)>) returns (replies: seq<Reply>)
      requires Valid() && db.StateOf(chat) == IdleState()
      requires state.kind == Remove
      modifies db
      ensures Valid() && db.states == old(db.states)
      ensures db.StateOf(chat) == StateAfterText(state, old(OfChat(db.locations, chat)), text, private, found)
      ensures forall c :: c != chat ==> db.StateOf(c) == old(db.StateOf(c))
      ensures db.locations == LocationsAfterText(old(db.locations), chat, state, text, stationOf)
      ensures replies == match FirstWhere(old(OfChat(db.locations, chat)), NamedIs(text))
                         case None => [Message(InvalidStation)]
                         case Some(l) => [Removed(l.name)]
    {
      var locations := db.GetLocations(chat);
      var target := FirstWhere(locations, NamedIs(text));
      if target.Some? {
        db.RemoveLocation(chat, target.value);
        replies := [Removed(target.value.name)];
      } else {
        replies := [Message(InvalidStation)];
      }
    }

    /**
     * A text in `add` state: with candidates it selects one, whose station
     * is stored, and the chat goes idle; without, it is a search whose
     * results are offered.
     */
    method TextToAdd(chat: ChatId, state: State, text: string, private: bool, found: seq<Location>,
                   stationOf: (real, real) -> Option<(string, real)>) returns (replies: seq<Reply>)
      requires Valid() && db.StateOf(chat) == IdleState()
      requires state.kind == StateType.Add
      modifies db
      ensures Valid()
      ensures db.StateOf(chat) == StateAfterText(state, old(OfChat(db.locations, chat)), text, private, found)
      ensures forall c :: c != chat ==> db.StateOf(c) == old(db.StateOf(c))
      ensures db.locations == LocationsAfterText(old(db.locations), chat, state, text, stationOf)
    {
      if state.addLocations.Some? {
        var selected := FirstWhere(state.addLocations.value, NamedIs(text));
        if selected.Some? {
          var l := selected.value;
          replies := AddStation(chat, l.lat, l.lon, stationOf(l.lat, l.lon));
        } else {
          replies := [Message(InvalidSelection)];
        }
        db.SetState(chat, IdleState());
      } else {
        replies := OfferCandidates(chat, StateType.Add, found);
        if found != [] {
          StateRoundTrip(State(StateType.Add, None, Some(found)));
        }
      }
    }

    /** A text in `idle` (or `set_default`) state: in a private chat it is a search whose results are offered. */
    method TextWhenIdle(chat: ChatId, state: State, text: string, private: bool, found: seq<Location>,
                   stationOf: (real, real) -> Option<(string, real)>) returns (replies: seq<Reply>)
      requires Valid() && db.StateOf(chat) == IdleState()
      requires state.kind == Idle || state.kind == SetDefault
      modifies db
      ensures Valid() && db.locations == old(db.locations)
      ensures db.StateOf(chat) == StateAfterText(state, old(OfChat(db.locations, chat)), text, private, found)
      ensures forall c :: c != chat ==> db.StateOf(c) == old(db.StateOf(c))
      ensures db.locations == LocationsAfterText(old(db.locations), chat, state, text, stationOf)
      ensures !(state.kind == Idle && private) ==> replies == []
    {
      if state.kind == Idle && private {
        replies := OfferCandidates(chat, Get, found);
        if found != [] {
          StateRoundTrip(State(Get, None, Some(found)));
        }
      } else {
        replies := [];
      }
    }

    /** `/getAll`: a ten-day forecast of every stored location, in order, or the prompt when there are none. */
    method GetAll(chat: ChatId) returns (replies: seq<Reply>)
      ensures var locs := OfChat(db.locations, chat);
              && (locs == [] ==> replies == [Message(NeedAdd)])
              && (locs != [] ==>
                    && |replies| == |locs|
                    && forall k :: 0 <= k < |locs| ==> replies[k] == Forecast(locs[k].lat, locs[k].lon, true, Some(locs[k].name)))
    {
      var locations := db.GetLocations(chat);
      if |locations| == 0 {
        return [Message(NeedAdd)];
      }
      replies := [];
      for i := 0 to |locations|
        invariant |replies| == i
        invariant forall k :: 0 <= k < i ==>
                    replies[k] == Forecast(locations[k].lat, locations[k].lon, true, Some(locations[k].name))
      {
        var l := locations[i];
        replies := replies + [Forecast(l.lat, l.lon, true, Some(l.name))];
      }
    }
  }
}
