/**
 * The bot's persistence object: a `locations` collection of
 * `{chat, location}` documents with a unique index on (chat, lat, lon), and a
 * `states` collection holding one `{chat, state}` document per chat.
 */
module BotBackend {
  import opened Wrappers
  import opened Lists
  import opened Records
  import opened Tables

  /** The coordinates a location is filtered by. */
  function LocationCoords(l: Location): Coords
  {
    Coords(l.lat, l.lon)
  }

  predicate IsDefault(l: Location)
  {
    l.default
  }

  /** The `update_many` step of `setDefaultLocation`: every default of the chat is cleared. */
  function ClearDefaults(rows: seq<Row<Location>>, chat: ChatId): (r: seq<Row<Location>>)
    ensures |r| == |rows|
    ensures forall i :: 0 <= i < |r| ==> r[i].chat == rows[i].chat
    ensures forall i :: 0 <= i < |r| && r[i].chat == chat ==> r[i].loc == rows[i].loc.(default := false)
    ensures forall i :: 0 <= i < |r| && r[i].chat != chat ==> r[i] == rows[i]
  {
    seq(|rows|, i requires 0 <= i < |rows| =>
      if rows[i].chat == chat && rows[i].loc.default then Row(chat, rows[i].loc.(default := false)) else rows[i])
  }

  /** The `$set` of `renameLocation`: the location's name becomes `newName`. */
  function NameSetter(newName: string): Location -> Location
  {
    (x: Location) => x.(name := newName)
  }

  /** `setDefaultLocation`: clear the chat's defaults, then flag the first document at the given coordinates. */
  function WithDefault(rows: seq<Row<Location>>, chat: ChatId, at: Coords): seq<Row<Location>>
  {
    UpdateFirst(ClearDefaults(rows, chat), chat, at, LocationCoords, (l: Location) => l.(default := true))
  }

  /** Clearing defaults does not move the document an exact-match filter selects. */
  lemma {:induction false} ClearDefaultsKeepsMatch(rows: seq<Row<Location>>, chat: ChatId, c: ChatId, at: Coords)
    ensures FirstMatch(ClearDefaults(rows, chat), c, at, LocationCoords) == FirstMatch(rows, c, at, LocationCoords)
  {
    if rows != [] {
      ClearDefaultsKeepsMatch(rows[1..], chat, c, at);
      assert ClearDefaults(rows, chat)[1..] == ClearDefaults(rows[1..], chat);
    }
  }

  /**
   * `setDefaultLocation` changes no other chat's locations, and afterwards
   * the chat's only default document is the one its second filter selects,
   * now flagged.
   */
  lemma DefaultOnlyAtMatch(rows: seq<Row<Location>>, chat: ChatId, at: Coords)
    ensures var r := WithDefault(rows, chat, at);
            && |r| == |rows|
            && (forall c :: c != chat ==> OfChat(r, c) == OfChat(rows, c))
            && (forall j :: 0 <= j < |r| && r[j].chat == chat && r[j].loc.default ==>
                  FirstMatch(rows, chat, at, LocationCoords) == Some(j))
            && (FirstMatch(rows, chat, at, LocationCoords).Some? ==>
                  var i := FirstMatch(rows, chat, at, LocationCoords).value;
                  r[i] == Row(chat, rows[i].loc.(default := true)))
  {
    var cleared := ClearDefaults(rows, chat);
    var r := WithDefault(rows, chat, at);
    ClearDefaultsKeepsMatch(rows, chat, chat, at);
    UpdateFirstEffect(cleared, chat, at, LocationCoords, (l: Location) => l.(default := true));
    forall c | c != chat
      ensures OfChat(r, c) == OfChat(rows, c)
    {
      OfChatPointwise(cleared, rows, c);
    }
  }

  /**
   * After `setDefaultLocation(chat, at)`: the document count and every
   * other chat's locations are unchanged, at most one of the chat's
   * locations is the default, and `getDefaultLocation` returns the stored
   * location at those coordinates, now flagged, or None when there is none.
   */
  lemma SetDefaultEffect(rows: seq<Row<Location>>, chat: ChatId, at: Coords)
    ensures var r := WithDefault(rows, chat, at);
            && |r| == |rows|
            && (forall c :: c != chat ==> OfChat(r, c) == OfChat(rows, c))
            && (forall i, j ::
                  (0 <= i < |r| && 0 <= j < |r| && r[i].chat == chat && r[j].chat == chat
                   && r[i].loc.default && r[j].loc.default) ==> i == j)
            && FirstWhere(OfChat(r, chat), IsDefault)
               == (match FirstMatch(rows, chat, at, LocationCoords)
                   case None => None
                   case Some(i) => Some(rows[i].loc.(default := true)))
  {
    var r := WithDefault(rows, chat, at);
    DefaultOnlyAtMatch(rows, chat, at);
    match FirstMatch(rows, chat, at, LocationCoords)
    case None =>
      OfChatNoneWhere(r, chat, IsDefault);
    case Some(i) =>
      OfChatFirstWhere(r, chat, IsDefault, i);
  }

  class Backend {
    /** The `locations` collection, in insertion order. */
    var locations: seq<Row<Location>>
    /** The `states` collection: the stored `state.toDict()` per chat. */
    var states: map<ChatId, Dict>

    /** The unique index holds, and every stored state document decodes. */
    ghost predicate Valid()
      reads this
    {
      && UniquePerChat(locations, LocationCoords)
      && forall c :: c in states ==> StateFromDict(states[c]).Ok?
    }

    /** The state `getState` returns for `chat`. */
    ghost function StateOf(chat: ChatId): State
      reads this
      requires Valid()
    {
      if chat in states then StateFromDict(states[chat]).value else IdleState()
    }

    /** The locations `getLocations` yields for `chat`. */
    ghost function LocationsOf(chat: ChatId): seq<Location>
      reads this
    {
      OfChat(locations, chat)
    }

    constructor ()
      ensures Valid() && locations == [] && states == map[]
    {
      locations := [];
      states := map[];
    }

    /** Inserts unless the chat already holds these coordinates; reports whether it inserted. */
    method AddLocation(chat: ChatId, l: Location) returns (added: bool)
      requires Valid()
      modifies this
      ensures Valid()
      ensures added <==> FirstMatch(old(locations), chat, LocationCoords(l), LocationCoords).None?
      ensures locations == if added then old(locations) + [Row(chat, l)] else old(locations)
      ensures states == old(states)
    {
      if FirstMatch(locations, chat, LocationCoords(l), LocationCoords).Some? {
        return false;
      }
      InsertKeepsUniquePerChat(locations, chat, l, LocationCoords);
      locations := locations + [Row(chat, l)];
      return true;
    }

    /** Deletes the chat's document at the location's coordinates, if there is one. */
    method RemoveLocation(chat: ChatId, l: Location)
      requires Valid()
      modifies this
      ensures Valid()
      ensures locations == DeleteFirst(old(locations), chat, LocationCoords(l), LocationCoords)
      ensures FirstMatch(locations, chat, LocationCoords(l), LocationCoords).None?
      ensures states == old(states)
    {
      DeleteFirstEffect(locations, chat, LocationCoords(l), LocationCoords);
      locations := DeleteFirst(locations, chat, LocationCoords(l), LocationCoords);
    }

    /** The chat's locations, in storage order, and no other chat's. */
    method GetLocations(chat: ChatId) returns (ls: seq<Location>)
      ensures ls == OfChat(locations, chat)
    {
      ls := FindByChat(locations, chat);
    }

    /** The first of the chat's locations flagged default, or None. */
    method GetDefaultLocation(chat: ChatId) returns (r: Option<Location>)
      ensures r == FirstWhere(OfChat(locations, chat), IsDefault)
    {
      var ls := GetLocations(chat);
      var i := 0;
      while i < |ls|
        invariant 0 <= i <= |ls|
        invariant forall k :: 0 <= k < i ==> !ls[k].default
      {
        if ls[i].default {
          return Some(ls[i]);
        }
        i := i + 1;
      }
      return None;
    }

    /** Makes the stored location at `l`'s coordinates the chat's only default. */
    method SetDefaultLocation(chat: ChatId, l: Location)
      requires Valid()
      modifies this
      ensures Valid()
      ensures locations == WithDefault(old(locations), chat, LocationCoords(l))
      ensures states == old(states)
    {
      var cleared := ClearDefaults(locations, chat);
      assert UniquePerChat(cleared, LocationCoords);
      UpdateFirstEffect(cleared, chat, LocationCoords(l), LocationCoords, (x: Location) => x.(default := true));
      locations := WithDefault(locations, chat, LocationCoords(l));
    }

    /** Renames the chat's stored location at `l`'s coordinates; nothing else changes. */
    method RenameLocation(chat: ChatId, l: Location, newName: string)
      requires Valid()
      modifies this
      ensures Valid()
      ensures locations == UpdateFirst(old(locations), chat, LocationCoords(l), LocationCoords, NameSetter(newName))
      ensures states == old(states)
    {
      UpdateFirstEffect(locations, chat, LocationCoords(l), LocationCoords, NameSetter(newName));
      locations := UpdateFirst(locations, chat, LocationCoords(l), LocationCoords, NameSetter(newName));
    }

    /** Upserts the chat's state document; afterwards `getState` returns `s`. */
    method SetState(chat: ChatId, s: State)
      requires Valid()
      modifies this
      ensures Valid()
      ensures states == old(states)[chat := StateToDict(s)]
      ensures StateOf(chat) == s
      ensures locations == old(locations)
    {
      StateRoundTrip(s);
      states := states[chat := StateToDict(s)];
    }

    /** The stored state decoded, or `State('idle')` when the chat has none. */
    method GetState(chat: ChatId) returns (s: State)
      requires Valid()
      ensures chat !in states ==> s == IdleState()
      ensures chat in states ==> StateFromDict(states[chat]) == Ok(s)
    {
      if chat !in states {
        return IdleState();
      }
      s := StateFromDict(states[chat]).value;
    }
  }
}
