/**
 * A MongoDB `locations` collection as an in-memory sequence of documents
 * `{chat, location}` in insertion (natural) order. The operations mirror the
 * driver calls the stores make: exact-match filters on chat and
 * coordinates, insert, delete-one and update-one.
 */
module Tables {
  import opened Wrappers
  import opened Lists

  type ChatId = int

  /** Latitude and longitude, compared only for equality. */
  datatype Coords = Coords(lat: real, lon: real)

  /** The `{name, lat, lon}` dict the dict-based stores keep as a location. */
  datatype Place = Place(lat: real, lon: real, name: string)

  function PlaceCoords(p: Place): Coords
  {
    Coords(p.lat, p.lon)
  }

  /** One document of the collection. */
  datatype Row<L> = Row(chat: ChatId, loc: L)

  /** The filter `{'chat': chat, 'location.lat': at.lat, 'location.lon': at.lon}`. */
  predicate Matches<L>(r: Row<L>, chat: ChatId, at: Coords, key: L -> Coords)
  {
    r.chat == chat && key(r.loc) == at
  }

  /** The first document the filter selects, as `find_one`/`delete_one`/`update_one` do. */
  function FirstMatch<L>(rows: seq<Row<L>>, chat: ChatId, at: Coords, key: L -> Coords): (r: Option<nat>)
    ensures r.Some? ==> r.value < |rows| && Matches(rows[r.value], chat, at, key)
                        && forall j :: 0 <= j < r.value ==> !Matches(rows[j], chat, at, key)
    ensures r.None? ==> forall j :: 0 <= j < |rows| ==> !Matches(rows[j], chat, at, key)
  {
    if rows == [] then None
    else if Matches(rows[0], chat, at, key) then Some(0)
    else match FirstMatch(rows[1..], chat, at, key)
      case None => None
      case Some(k) => Some(k + 1)
  }

  /** The unique index on (chat, lat, lon): no two documents share all three. */
  ghost predicate UniquePerChat<L>(rows: seq<Row<L>>, key: L -> Coords)
  {
    forall i, j :: 0 <= i < j < |rows| ==> !Matches(rows[j], rows[i].chat, key(rows[i].loc), key)
  }

  /** The unique index on (lat, lon) alone: no two documents share coordinates, whatever their chat. */
  ghost predicate UniqueCoords<L>(rows: seq<Row<L>>, key: L -> Coords)
  {
    forall i, j :: 0 <= i < j < |rows| ==> key(rows[i].loc) != key(rows[j].loc)
  }

  /** The locations a `find({'chat': chat})` cursor yields, in storage order. */
  function OfChat<L>(rows: seq<Row<L>>, chat: ChatId): (r: seq<L>)
    ensures |r| <= |rows|
  {
    if rows == [] then []
    else OfChat(rows[..|rows| - 1], chat)
         + (if rows[|rows| - 1].chat == chat then [rows[|rows| - 1].loc] else [])
  }

  /** A location is yielded for `chat` exactly when a document of that chat holds it. */
  lemma {:induction false} OfChatMembership<L>(rows: seq<Row<L>>, chat: ChatId, l: L)
    ensures l in OfChat(rows, chat) <==> exists i :: 0 <= i < |rows| && rows[i] == Row(chat, l)
  {
    if rows != [] {
      var init := rows[..|rows| - 1];
      OfChatMembership(init, chat, l);
      if exists i :: 0 <= i < |init| && init[i] == Row(chat, l) {
        var i :| 0 <= i < |init| && init[i] == Row(chat, l);
        assert rows[i] == Row(chat, l);
      }
      if exists i :: 0 <= i < |rows| && rows[i] == Row(chat, l) {
        var i :| 0 <= i < |rows| && rows[i] == Row(chat, l);
        if i < |init| {
          assert init[i] == Row(chat, l);
        }
      }
    }
  }

  /** Writing a document at index i without changing its chat leaves every other chat's view as it was. */
  lemma {:induction false} OfChatOtherChat<L>(rows: seq<Row<L>>, i: nat, r: Row<L>, chat: ChatId)
    requires i < |rows| && r.chat == rows[i].chat && chat != r.chat
    ensures OfChat(rows[i := r], chat) == OfChat(rows, chat)
  {
    var last := |rows| - 1;
    if i < last {
      OfChatOtherChat(rows[..last], i, r, chat);
      assert rows[i := r][..last] == rows[..last][i := r];
    } else {
      assert rows[i := r][..last] == rows[..last];
    }
  }

  /** Deleting one document leaves every other chat's view as it was. */
  lemma {:induction false} OfChatDeleteOther<L>(rows: seq<Row<L>>, i: nat, chat: ChatId)
    requires i < |rows| && rows[i].chat != chat
    ensures OfChat(rows[..i] + rows[i + 1..], chat) == OfChat(rows, chat)
  {
    var last := |rows| - 1;
    if i < last {
      OfChatDeleteOther(rows[..last], i, chat);
      var d := rows[..i] + rows[i + 1..];
      assert d[..|d| - 1] == rows[..last][..i] + rows[..last][i + 1..];
      assert d[|d| - 1] == rows[last];
    } else {
      assert rows[..i] + rows[i + 1..] == rows[..last];
    }
  }

  /** Appending a document adds its location to its own chat's view only. */
  lemma OfChatAppend<L>(rows: seq<Row<L>>, r: Row<L>, chat: ChatId)
    ensures OfChat(rows + [r], chat) == OfChat(rows, chat) + (if r.chat == chat then [r.loc] else [])
  {
    assert (rows + [r])[..|rows|] == rows;
  }

  /** An insert guarded by the per-chat pre-check keeps the per-chat index unique. */
  lemma InsertKeepsUniquePerChat<L>(rows: seq<Row<L>>, chat: ChatId, l: L, key: L -> Coords)
    requires UniquePerChat(rows, key)
    requires FirstMatch(rows, chat, key(l), key).None?
    ensures UniquePerChat(rows + [Row(chat, l)], key)
  {
  }

  /**
   * Replacing the location of one document by one with the same coordinates
   * keeps both indexes unique.
   */
  lemma ReplaceKeepsUnique<L>(rows: seq<Row<L>>, i: nat, l: L, key: L -> Coords)
    requires i < |rows| && key(l) == key(rows[i].loc)
    ensures UniquePerChat(rows, key) ==> UniquePerChat(rows[i := Row(rows[i].chat, l)], key)
    ensures UniqueCoords(rows, key) ==> UniqueCoords(rows[i := Row(rows[i].chat, l)], key)
  {
  }

  /** Deleting one document keeps the per-chat index unique, and removes the key it held. */
  lemma DeleteKeepsUnique<L>(rows: seq<Row<L>>, i: nat, key: L -> Coords)
    requires i < |rows| && UniquePerChat(rows, key)
    ensures UniquePerChat(rows[..i] + rows[i + 1..], key)
    ensures FirstMatch(rows[..i] + rows[i + 1..], rows[i].chat, key(rows[i].loc), key).None?
  {
    var d := rows[..i] + rows[i + 1..];
    forall a, b | 0 <= a < b < |d|
      ensures !Matches(d[b], d[a].chat, key(d[a].loc), key)
    {
      var a' := if a < i then a else a + 1;
      var b' := if b < i then b else b + 1;
      assert d[a] == rows[a'] && d[b] == rows[b'];
    }
    forall j | 0 <= j < |d|
      ensures !Matches(d[j], rows[i].chat, key(rows[i].loc), key)
    {
      if j < i {
        assert d[j] == rows[j];
      } else {
        assert d[j] == rows[j + 1];
      }
    }
  }

  /** Under the per-chat index, the first match is the only match. */
  lemma OnlyMatch<L>(rows: seq<Row<L>>, chat: ChatId, at: Coords, key: L -> Coords)
    requires UniquePerChat(rows, key)
    requires FirstMatch(rows, chat, at, key).Some?
    ensures forall j :: 0 <= j < |rows| && Matches(rows[j], chat, at, key) ==> j == FirstMatch(rows, chat, at, key).value
  {
  }

  /** Two collections that agree on every document of `chat` and on every document's chat give `chat` the same view. */
  lemma {:induction false} OfChatPointwise<L>(a: seq<Row<L>>, b: seq<Row<L>>, chat: ChatId)
    requires |a| == |b|
    requires forall i :: 0 <= i < |a| ==> a[i].chat == b[i].chat && (a[i].chat == chat ==> a[i] == b[i])
    ensures OfChat(a, chat) == OfChat(b, chat)
  {
    if a != [] {
      OfChatPointwise(a[..|a| - 1], b[..|b| - 1], chat);
    }
  }

  /** When exactly one document of `chat` satisfies `p`, the first of the chat's locations satisfying `p` is that one. */
  lemma OfChatFirstWhere<L>(rows: seq<Row<L>>, chat: ChatId, p: L -> bool, i: nat)
    requires i < |rows| && rows[i].chat == chat && p(rows[i].loc)
    requires forall j :: 0 <= j < |rows| && j != i && rows[j].chat == chat ==> !p(rows[j].loc)
    ensures FirstWhere(OfChat(rows, chat), p) == Some(rows[i].loc)
  {
    var view := OfChat(rows, chat);
    OfChatMembership(rows, chat, rows[i].loc);
    assert rows[i].loc in view;
    var r := FirstWhere(view, p);
    assert r.Some?;
    OfChatMembership(rows, chat, r.value);
    var j :| 0 <= j < |rows| && rows[j] == Row(chat, r.value);
    assert j == i;
  }

  /** When no document of `chat` satisfies `p`, none of the chat's locations does. */
  lemma OfChatNoneWhere<L>(rows: seq<Row<L>>, chat: ChatId, p: L -> bool)
    requires forall j :: 0 <= j < |rows| && rows[j].chat == chat ==> !p(rows[j].loc)
    ensures FirstWhere(OfChat(rows, chat), p).None?
  {
    var view := OfChat(rows, chat);
    forall k | 0 <= k < |view|
      ensures !p(view[k])
    {
      OfChatMembership(rows, chat, view[k]);
    }
  }

  /** `update_one`/`find_one_and_update`: apply `f` to the first matching document's location. */
  function UpdateFirst<L>(rows: seq<Row<L>>, chat: ChatId, at: Coords, key: L -> Coords, f: L -> L): seq<Row<L>>
  {
    match FirstMatch(rows, chat, at, key)
    case None => rows
    case Some(i) => rows[i := Row(rows[i].chat, f(rows[i].loc))]
  }

  /**
   * Only the first matching document changes, and only through `f`; with no
   * match nothing changes. If `f` keeps coordinates, both indexes stay
   * unique, and no other chat sees a difference.
   */
  lemma UpdateFirstEffect<L>(rows: seq<Row<L>>, chat: ChatId, at: Coords, key: L -> Coords, f: L -> L)
    requires forall l :: key(f(l)) == key(l)
    ensures var r := UpdateFirst(rows, chat, at, key, f);
            && |r| == |rows|
            && (forall j :: 0 <= j < |rows| && Some(j) != FirstMatch(rows, chat, at, key) ==> r[j] == rows[j])
            && (FirstMatch(rows, chat, at, key).Some? ==>
                  var i := FirstMatch(rows, chat, at, key).value;
                  r[i] == Row(chat, f(rows[i].loc)))
            && (UniquePerChat(rows, key) ==> UniquePerChat(r, key))
            && (UniqueCoords(rows, key) ==> UniqueCoords(r, key))
            && (forall c :: c != chat ==> OfChat(r, c) == OfChat(rows, c))
  {
    match FirstMatch(rows, chat, at, key)
    case None =>
    case Some(i) =>
      ReplaceKeepsUnique(rows, i, f(rows[i].loc), key);
      forall c | c != chat
        ensures OfChat(UpdateFirst(rows, chat, at, key, f), c) == OfChat(rows, c)
      {
        OfChatOtherChat(rows, i, Row(rows[i].chat, f(rows[i].loc)), c);
      }
  }

  /** `delete_one`: remove the first matching document. */
  function DeleteFirst<L>(rows: seq<Row<L>>, chat: ChatId, at: Coords, key: L -> Coords): seq<Row<L>>
  {
    match FirstMatch(rows, chat, at, key)
    case None => rows
    case Some(i) => rows[..i] + rows[i + 1..]
  }

  /**
   * At most one document goes, the matching one; the rest keep their order.
   * Under the per-chat index no document with that key remains, and no
   * other chat sees a difference.
   */
  lemma DeleteFirstEffect<L>(rows: seq<Row<L>>, chat: ChatId, at: Coords, key: L -> Coords)
    ensures var r := DeleteFirst(rows, chat, at, key);
            && |r| == |rows| - (if FirstMatch(rows, chat, at, key).Some? then 1 else 0)
            && (FirstMatch(rows, chat, at, key).None? ==> r == rows)
            && (FirstMatch(rows, chat, at, key).Some? ==>
                  var i := FirstMatch(rows, chat, at, key).value;
                  r == rows[..i] + rows[i + 1..])
            && (UniquePerChat(rows, key) ==> UniquePerChat(r, key) && FirstMatch(r, chat, at, key).None?)
            && (forall c :: c != chat ==> OfChat(r, c) == OfChat(rows, c))
  {
    match FirstMatch(rows, chat, at, key)
    case None =>
    case Some(i) =>
      if UniquePerChat(rows, key) {
        DeleteKeepsUnique(rows, i, key);
      }
      forall c | c != chat
        ensures OfChat(DeleteFirst(rows, chat, at, key), c) == OfChat(rows, c)
      {
        OfChatDeleteOther(rows, i, c);
      }
  }

  /** The cursor loop of `getLocations`: walk the collection, keeping the chat's locations. */
  method FindByChat<L>(rows: seq<Row<L>>, chat: ChatId) returns (locs: seq<L>)
    ensures locs == OfChat(rows, chat)
  {
    locs := [];
    var i := 0;
    while i < |rows|
      invariant 0 <= i <= |rows|
      invariant locs == OfChat(rows[..i], chat)
    {
      OfChatAppend(rows[..i], rows[i], chat);
      assert rows[..i + 1] == rows[..i] + [rows[i]];
      if rows[i].chat == chat {
        locs := locs + [rows[i].loc];
      }
      i := i + 1;
    }
    assert rows[..i] == rows;
  }
}
