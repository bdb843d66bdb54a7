/**
 * The first version of the store: the same operations as the bot's
 * dict-based store, with state types as a string enum. Its unique index
 * covers only (lat, lon), which `Insert` and the store keep;
 * `InsertPerChat` describes the add under a per-chat index instead.
 */
module SrcDb {
  import opened Wrappers
  import opened Records
  import opened Tables

  datatype StateType = IdleType | GetLocation | AddLocationType | RenameLocation

  /** The string value of each enum member. */
  function StateTypeText(t: StateType): string
  {
    match t
    case IdleType => "idle"
    case GetLocation => "get"
    case AddLocationType => "add"
    case RenameLocation => "rename"
  }

  /** Distinct enum members have distinct string values, so stored types read back unambiguously. */
  lemma StateTypeTextInjective(a: StateType, b: StateType)
    ensures StateTypeText(a) == StateTypeText(b) ==> a == b
  {
  }

  /** The dict `getState` returns for a chat with no stored state: `{'type': StateType.IDLE}`. */
  function IdleDict(): (d: Dict)
    ensures d.Keys == {"type"} && d["type"] == Str("idle")
  {
    map["type" := Str(StateTypeText(IdleType))]
  }

  /**
   * `addLocation` against the collection: `Ok(false)` when the pre-check
   * finds the chat already holds the coordinates, `Err` when the insert
   * violates the (lat, lon) index, otherwise `Ok(true)` and one document
   * appended.
   */
  function Insert(rows: seq<Row<Place>>, chat: ChatId, p: Place): (r: Result<(bool, seq<Row<Place>>), string>)
    ensures r.Ok? && r.value.0 ==> r.value.1 == rows + [Row(chat, p)]
    ensures r.Ok? && !r.value.0 ==>
              && r.value.1 == rows
              && exists j :: 0 <= j < |rows| && rows[j].chat == chat && PlaceCoords(rows[j].loc) == PlaceCoords(p)
    ensures r.Err? <==> FirstMatch(rows, chat, PlaceCoords(p), PlaceCoords).None?
                        && exists j :: 0 <= j < |rows| && PlaceCoords(rows[j].loc) == PlaceCoords(p)
    ensures UniqueCoords(rows, PlaceCoords) && r.Ok? ==> UniqueCoords(r.value.1, PlaceCoords)
  {
    if FirstMatch(rows, chat, PlaceCoords(p), PlaceCoords).Some? then
      Ok((false, rows))
    else if exists j :: 0 <= j < |rows| && PlaceCoords(rows[j].loc) == PlaceCoords(p) then
      Err("DuplicateKeyError")
    else
      Ok((true, rows + [Row(chat, p)]))
  }

  /** A chat cannot store coordinates another chat already stored, although its own pre-check passes. */
  lemma CrossChatAddFails(rows: seq<Row<Place>>, chat: ChatId, other: ChatId, p: Place)
    requires chat != other
    requires UniqueCoords(rows, PlaceCoords)
    requires Row(other, p) in rows
    ensures Insert(rows, chat, p).Err?
  {
    var j :| 0 <= j < |rows| && rows[j] == Row(other, p);
    assert PlaceCoords(rows[j].loc) == PlaceCoords(p);
  }

  /**
   * `addLocation` as intended, under an index on (chat, lat, lon) as the
   * bot's later store declares it: the pre-check alone decides, since the
   * insert can only clash where the pre-check already refused.
   */
  function InsertPerChat(rows: seq<Row<Place>>, chat: ChatId, p: Place): (bool, seq<Row<Place>>)
  {
    if FirstMatch(rows, chat, PlaceCoords(p), PlaceCoords).Some? then (false, rows)
    else (true, rows + [Row(chat, p)])
  }

  /**
   * Under the per-chat index every add whose pre-check passes is stored,
   * whatever other chats hold, and the index is never violated.
   */
  lemma PerChatInsertAccepted(rows: seq<Row<Place>>, chat: ChatId, p: Place)
    requires UniquePerChat(rows, PlaceCoords)
    ensures var r := InsertPerChat(rows, chat, p);
            && (r.0 <==> !exists j :: 0 <= j < |rows| && rows[j].chat == chat && PlaceCoords(rows[j].loc) == PlaceCoords(p))
            && r.1 == (if r.0 then rows + [Row(chat, p)] else rows)
            && UniquePerChat(r.1, PlaceCoords)
  {
    if FirstMatch(rows, chat, PlaceCoords(p), PlaceCoords).None? {
      InsertKeepsUniquePerChat(rows, chat, p, PlaceCoords);
    } else {
      var i := FirstMatch(rows, chat, PlaceCoords(p), PlaceCoords).value;
      assert rows[i].chat == chat && PlaceCoords(rows[i].loc) == PlaceCoords(p);
    }
  }

  class Backend {
    var locations: seq<Row<Place>>
    var states: map<ChatId, Dict>

    /** The unique index on (lat, lon) the constructor creates. */
    ghost predicate Valid()
      reads this
    {
      UniqueCoords(locations, PlaceCoords)
    }

    constructor ()
      ensures Valid() && locations == [] && states == map[]
    {
      locations := [];
      states := map[];
    }

    /**
     * `addLocation`: `Ok(false)` when the chat already holds the
     * coordinates; DuplicateKeyError, with nothing stored, when another
     * chat holds them; otherwise the document is appended and `Ok(true)`.
     */
    method AddLocation(chat: ChatId, p: Place) returns (r: Result<bool, string>)
      requires Valid()
      modifies this
      ensures Valid()
      ensures match Insert(old(locations), chat, p)
              case Ok(v) => r == Ok(v.0) && locations == v.1
              case Err(e) => r == Err(e) && locations == old(locations)
      ensures states == old(states)
    {
      if FirstMatch(locations, chat, PlaceCoords(p), PlaceCoords).Some? {
        return Ok(false);
      }
      if exists j :: 0 <= j < |locations| && PlaceCoords(locations[j].loc) == PlaceCoords(p) {
        return Err("DuplicateKeyError");
      }
      locations := locations + [Row(chat, p)];
      return Ok(true);
    }

    /** The chat's locations, in storage order, and no other chat's. */
    method GetLocations(chat: ChatId) returns (ps: seq<Place>)
      ensures ps == OfChat(locations, chat)
    {
      ps := FindByChat(locations, chat);
    }

    /** Sets the name of the chat's document at `p`'s coordinates; nothing else changes. */
    method RenameLocation(chat: ChatId, p: Place, newName: string)
      requires Valid()
      modifies this
      ensures Valid()
      ensures locations == UpdateFirst(old(locations), chat, PlaceCoords(p), PlaceCoords,
                                       (x: Place) => x.(name := newName))
      ensures states == old(states)
    {
      UpdateFirstEffect(locations, chat, PlaceCoords(p), PlaceCoords, (x: Place) => x.(name := newName));
      locations := UpdateFirst(locations, chat, PlaceCoords(p), PlaceCoords, (x: Place) => x.(name := newName));
    }

    /** Replaces the chat's state document, inserting it if there was none. */
    method SetState(chat: ChatId, state: Dict)
      modifies this
      ensures states == old(states)[chat := state]
      ensures locations == old(locations)
    {
      states := states[chat := state];
    }

    /** The stored state, or `{'type': StateType.IDLE}` when the chat has none. */
    method GetState(chat: ChatId) returns (state: Dict)
      ensures chat in states ==> state == states[chat]
      ensures chat !in states ==> state == IdleDict()
    {
      if chat in states {
        return states[chat];
      }
      return IdleDict();
    }
  }
}
