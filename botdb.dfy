/**
 * The dict-based store the bot's handlers call: locations are `{name, lat,
 * lon}` dicts under a unique (chat, lat, lon) index, states are whatever
 * dict the caller saves.
 */
module BotDb {
  import opened Wrappers
  import opened Records
  import opened Tables

  /** The dict `getState` returns for a chat with no stored state. */
  function IdleDict(): (d: Dict)
    ensures d.Keys == {"type"} && d["type"] == Str("idle")
  {
    map["type" := Str("idle")]
  }

  class Backend {
    var locations: seq<Row<Place>>
    var states: map<ChatId, Dict>

    ghost predicate Valid()
      reads this
    {
      UniquePerChat(locations, PlaceCoords)
    }

    constructor ()
      ensures Valid() && locations == [] && states == map[]
    {
      locations := [];
      states := map[];
    }

    /** Inserts unless the chat already holds these coordinates; reports whether it inserted. */
    method AddLocation(chat: ChatId, p: Place) returns (added: bool)
      requires Valid()
      modifies this
      ensures Valid()
      ensures added <==> FirstMatch(old(locations), chat, PlaceCoords(p), PlaceCoords).None?
      ensures locations == if added then old(locations) + [Row(chat, p)] else old(locations)
      ensures states == old(states)
    {
      if FirstMatch(locations, chat, PlaceCoords(p), PlaceCoords).Some? {
        return false;
      }
      InsertKeepsUniquePerChat(locations, chat, p, PlaceCoords);
      locations := locations + [Row(chat, p)];
      return true;
    }

    /** The chat's locations, in storage order, and no other chat's. */
    method GetLocations(chat: ChatId) returns (ps: seq<Place>)
      ensures ps == OfChat(locations, chat)
    {
      ps := FindByChat(locations, chat);
    }

    /** Sets the name of the chat's document at `p`'s coordinates; nothing else changes. */
    method RenameLocation(chat: ChatId, p: Place, newName: string)
      requires Valid()
      modifies this
      ensures Valid()
      ensures locations == UpdateFirst(old(locations), chat, PlaceCoords(p), PlaceCoords,
                                       (x: Place) => x.(name := newName))
      ensures states == old(states)
    {
      UpdateFirstEffect(locations, chat, PlaceCoords(p), PlaceCoords, (x: Place) => x.(name := newName));
      locations := UpdateFirst(locations, chat, PlaceCoords(p), PlaceCoords, (x: Place) => x.(name := newName));
    }

    /** Replaces the chat's state document, inserting it if there was none. */
    method SetState(chat: ChatId, state: Dict)
      modifies this
      ensures states == old(states)[chat := state]
      ensures locations == old(locations)
    {
      states := states[chat := state];
    }

    /** The stored state, or `{'type': 'idle'}` when the chat has none. */
    method GetState(chat: ChatId) returns (state: Dict)
      ensures chat in states ==> state == states[chat]
      ensures chat !in states ==> state == IdleDict()
    {
      if chat in states {
        return states[chat];
      }
      return IdleDict();
    }
  }
}
