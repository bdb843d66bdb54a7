/**
 * The first version of the bot: per-chat location lists kept as JSON in
 * Redis, a global list of chats that are adding locations, and `/get`,
 * `/getAll` and location handlers.
 */
module SrcBot {
  import opened Wrappers
  import opened Lists
  import opened Tables

  /** The forecast length, in days, every forecast of this version asks for. */
  const Duration: real := 14.0

  const NeedAdd: string := "You need to add a location with '/add'."

  /** An inline keyboard button: its label and the callback data it sends back. */
  datatype Button = Button(text: string, callbackData: string)

  /** What a handler sends to the chat. */
  datatype Reply =
    | Message(text: string)
    /** A message with an inline keyboard. */
    | Choose(text: string, keyboard: seq<seq<Button>>)
    /** `sendForecast` for the coordinates, captioned with `name` when given. */
    | Forecast(lat: real, lon: real, duration: real, name: Option<string>)
    /** `/get` with a name the chat has not added; lists the added names. */
    | NotAdded(requested: string, added: seq<string>)
    /** `addLocation`'s confirmation, with the station's name and distance. */
    | StationAdded(station: string, distance: real)

  /** The stored places' names, in order. */
  function Names(ps: seq<Place>): seq<string>
  {
    Map(ps, (p: Place) => p.name)
  }

  /** The button for a name: it sends the name itself back. */
  function ButtonFor(name: string): Button
  {
    Button(name, name)
  }

  function NamedIs(name: string): Place -> bool
  {
    (p: Place) => p.name == name
  }

  /** The button labels of a keyboard, row by row. */
  function Labels(rows: seq<seq<Button>>): (labels: seq<seq<string>>)
    ensures |labels| == |rows|
    ensures forall k :: 0 <= k < |rows| ==> |labels[k]| == |rows[k]|
  {
    seq(|rows|, k requires 0 <= k < |rows| => seq(|rows[k]|, j requires 0 <= j < |rows[k]| => rows[k][j].text))
  }

  /** The labels of a flattened keyboard are the flattened labels. */
  lemma {:induction false} FlattenLabels(rows: seq<seq<Button>>)
    ensures |Flatten(rows)| == |Flatten(Labels(rows))|
    ensures forall k :: 0 <= k < |Flatten(rows)| ==> Flatten(rows)[k].text == Flatten(Labels(rows))[k]
  {
    if rows != [] {
      var init := rows[..|rows| - 1];
      FlattenLabels(init);
      assert Labels(rows)[..|rows| - 1] == Labels(init);
    }
  }

  class Bot {
    /** Redis: each chat's stored locations (the decoded JSON list). */
    var redis: map<ChatId, seq<Place>>
    /** `chatIdsAddingLocations`. */
    var adding: seq<ChatId>

    ghost predicate Valid()
      reads this
    {
      forall i, j :: 0 <= i < j < |adding| ==> adding[i] != adding[j]
    }

    constructor ()
      ensures Valid() && redis == map[] && adding == []
    {
      redis := map[];
      adding := [];
    }

    /** `/add`: the chat is listed once, and stays listed; only a newly listed chat is prompted. */
    method Add(chat: ChatId) returns (replies: seq<Reply>)
      requires Valid()
      modifies this
      ensures Valid()
      ensures adding == if chat in old(adding) then old(adding) else old(adding) + [chat]
      ensures chat in adding && forall c :: c in old(adding) ==> c in adding
      ensures replies == if chat in old(adding) then [] else [Message("Ok, now send a location.")]
      ensures redis == old(redis)
    {
      if chat in adding {
        return [];
      }
      adding := adding + [chat];
      replies := [Message("Ok, now send a location.")];
    }

    /**
     * `addLocation`: the station found for the coordinates is appended to
     * the chat's list, whatever the list already holds; `station` is the
     * (name, distance) the weather service reports.
     */
    method AddLocation(chat: ChatId, lat: real, lon: real, station: (string, real)) returns (replies: seq<Reply>)
      modifies this
      ensures redis == old(redis)[chat := (if chat in old(redis) then old(redis)[chat] else []) + [Place(lat, lon, station.0)]]
      ensures adding == old(adding)
      ensures replies == [StationAdded(station.0, station.1)]
    {
      var locations: seq<Place> := [];
      if chat in redis {
        locations := redis[chat];
      }
      var (name, dist) := station;
      locations := locations + [Place(lat, lon, name)];
      redis := redis[chat := locations];
      replies := [StationAdded(name, dist)];
    }

    /** A received location: stored when the chat ever used `/add`, otherwise forecast. */
    method LocationHandle(chat: ChatId, lat: real, lon: real, station: (string, real)) returns (replies: seq<Reply>)
      modifies this
      ensures adding == old(adding)
      ensures chat in adding ==>
                && redis == old(redis)[chat := (if chat in old(redis) then old(redis)[chat] else []) + [Place(lat, lon, station.0)]]
                && replies == [StationAdded(station.0, station.1)]
      ensures chat !in adding ==> redis == old(redis) && replies == [Forecast(lat, lon, Duration, None)]
    {
      if chat in adding {
        replies := AddLocation(chat, lat, lon, station);
      } else {
        replies := [Forecast(lat, lon, Duration, None)];
      }
    }

    /** `/getAll`: one forecast per stored location, in order, or the prompt when there are none. */
    method GetAll(chat: ChatId) returns (replies: seq<Reply>)
      ensures chat !in redis || redis[chat] == [] ==> replies == [Message(NeedAdd)]
      ensures chat in redis && redis[chat] != [] ==>
                && |replies| == |redis[chat]|
                && forall k :: 0 <= k < |replies| ==>
                     replies[k] == Forecast(redis[chat][k].lat, redis[chat][k].lon, Duration, Some(redis[chat][k].name))
    {
      if chat !in redis {
        return [Message(NeedAdd)];
      }
      var locations := redis[chat];
      if |locations| == 0 {
        return [Message(NeedAdd)];
      }
      replies := [];
      for i := 0 to |locations|
        invariant |replies| == i
        invariant forall k :: 0 <= k < i ==>
                    replies[k] == Forecast(locations[k].lat, locations[k].lon, Duration, Some(locations[k].name))
      {
        var location := locations[i];
        replies := replies + [Forecast(location.lat, location.lon, Duration, Some(location.name))];
      }
    }

    /**
     * `/get`. Without arguments: a keyboard whose labels, row by row, are
     * the stored names in order, two per row, each button sending its own
     * label. With a name: the forecast of the first location so named, or
     * the list of added names when there is none.
     */
    method Get(chat: ChatId, args: seq<string>) returns (replies: seq<Reply>)
      ensures chat !in redis || redis[chat] == [] ==> replies == [Message(NeedAdd)]
      ensures chat in redis && redis[chat] != [] && args == [] ==>
                && |replies| == 1 && replies[0].Choose? && replies[0].text == "Choose a station:"
                && Flatten(Labels(replies[0].keyboard)) == Names(redis[chat])
                && PairedRows(replies[0].keyboard, |redis[chat]|)
                && forall b :: b in Flatten(replies[0].keyboard) ==> b.callbackData == b.text
      ensures chat in redis && redis[chat] != [] && args != [] ==>
                match FirstWhere(redis[chat], NamedIs(args[0]))
                case None => replies == [NotAdded(args[0], Names(redis[chat]))]
                case Some(p) => replies == [Forecast(p.lat, p.lon, Duration, Some(p.name))]
    {
      if chat !in redis {
        return [Message(NeedAdd)];
      }
      var locations := redis[chat];
      if |locations| == 0 {
        return [Message(NeedAdd)];
      }
      var locationNames := Names(locations);
      if |args| == 0 {
        var buttons := seq(|locationNames|, k requires 0 <= k < |locationNames| => ButtonFor(locationNames[k]));
        var keyboard := PairUp(buttons);
        FlattenLabels(keyboard);
        assert Flatten(Labels(keyboard)) == locationNames;
        return [Choose("Choose a station:", keyboard)];
      }
      if args[0] !in locationNames {
        assert FirstWhere(locations, NamedIs(args[0])).None?;
        return [NotAdded(args[0], locationNames)];
      }
      var location := FirstWhere(locations, NamedIs(args[0]));
      replies := [Forecast(location.value.lat, location.value.lon, Duration, Some(location.value.name))];
    }

    /**
     * A pressed inline button: the message is edited to the button's data,
     * then the first stored location named by it is forecast. A chat with
     * nothing stored fails in `json.loads` (TypeError), a name with no
     * stored location in `next` (StopIteration); the edit was sent before
     * either failure.
     */
    method InlineButtonCallback(chat: ChatId, data: string) returns (replies: seq<Reply>, error: Option<string>)
      ensures chat !in redis ==> replies == [Message(data)] && error == Some("TypeError")
      ensures chat in redis ==>
                match FirstWhere(redis[chat], NamedIs(data))
                case None => replies == [Message(data)] && error == Some("StopIteration")
                case Some(p) => replies == [Message(data), Forecast(p.lat, p.lon, Duration, Some(p.name))] && error.None?
    {
      replies := [Message(data)];
      if chat !in redis {
        return replies, Some("TypeError");
      }
      var location := FirstWhere(redis[chat], NamedIs(data));
      if location.None? {
        return replies, Some("StopIteration");
      }
      replies := replies + [Forecast(location.value.lat, location.value.lon, Duration, Some(location.value.name))];
      error := None;
    }
  }
}
