# Telegram weather bot — a Dafny model of its core

The bot answers Telegram chats with weather forecasts and radar animations
for stored or searched places. This project models the parts of it that
decide things, and proves what they promise:

- **Conversation** (bot/main.py): the chat handlers `/add`, `/delete`,
  `/rename`, `/get`, `/getDetailed`, `/radar`, `/getAll`, received locations
  and text messages. They move each chat's state record (type, optional
  rename target, optional search candidates) between idle, add, rename,
  remove and the three get types, and change the stored locations. The reply
  keyboard pairs location names two per row.
- **Inline-query stream** (bot/main.py): a queued artifact becomes an inline
  result. A page is drained from the query's queue up to the `None`
  sentinel. The paging offset `"<firstQueryId>-<counter+1>"` ties later pages
  to the first query's queue.
- **Image memo** (bot/main.py): `getImage` and `getRadarAnimation` are
  wrapped in `functools.lru_cache` with 128 entries, and `clearImageCache`
  wipes both.
- **Persistence** (bot/backend.py, bot/db.py, src/db.py): `Location` and
  `State` records and their dict form. The `locations` collection is a
  sequence of `{chat, location}` documents in insertion order. The `states`
  collection is a map from chat to state document.
- **First bot version** (src/main.py): per-chat location lists in Redis, the
  `chatIdsAddingLocations` list, `/get` with its inline keyboard, `/getAll`
  and the inline-button callback.
- **Image host** (image-host/main.py): the upload routes' decision order and
  the 64 KiB hashing loop. The id is the first ten hex digits of the SHA-256
  digest (FIPS 180-4). Also file names, links, status codes, and the two-day
  retention sweep.
- **Radar** (bot/radar.py): which RainViewer entries become frames, the tile
  URL format, one rendered frame per URL, and the marker position.

Everything outside the program is a parameter of the model:
- geocoding results and the weather station found near a place;
- the weather plot and the uploads;
- the SHA-256 function and the image decoder;
- the remote address and `BASE_URL`;
- the directory listing and the clock.

Replies are values of a `Reply` datatype instead of Telegram calls.

bot/main.py hands plain dicts to a store (bot/backend.py) whose methods
expect `Location` and `State` objects. It also reads the `State` object the
store returns as if it were a dict. The model reads every handler as acting
on the typed records: `state['type']` is the state's type, and
`'addLocations' in state` means the candidates are present.

The inline-query handler in bot/main.py works as follows:
- the first `get()` blocks with no timeout;
- nothing is deduplicated;
- there is no per-user eviction;
- a malformed offset raises `ValueError`;
- a page for a vanished queue is empty but still carries a next offset.

`MainBot` never assigns `self.weatherProvider`, so `addLocation` raises
AttributeError on every call. The conversation model describes the handlers
with the station lookup in place, and the add paths as written are modelled
beside them (see Findings).

Also, the cache is not only cleared wholesale: `lru_cache` evicts
individual least-recently-used entries.

## Model

| member | source | states |
|---|---|---|
| Lists.PairUp | bot/main.py:272-283 | the rows concatenate to exactly the input items in order; every row has two items except a final one-item row when the count is odd; no items give no rows |
| Lists.Map | bot/main.py:273 | `list(map(f, s))`: one result per element, `f` of that element, in order |
| Lists.FirstIndex | bot/main.py:304 | the index found is the first whose element satisfies the filter; None means no element does |
| Lists.FirstWhere | bot/main.py:304 | `next(filter(p, s), None)`: None exactly when no element satisfies `p`, otherwise the element at the first satisfying index |
| Conversation.LocationReplyKeyboard | bot/main.py:272-283 | the keyboard's rows flatten to the locations' names in order, paired two per row with a final single when odd, and it is resized and one-time |
| Conversation.TextEndsIdle | bot/main.py:347-447 | a text message leaves the chat idle if and only if none of the three hand-over cases applies: a rename target picked, candidates found in add state, candidates found in a private idle chat |
| Conversation.AddSelectionEndsIdle | bot/main.py:349-350 | a selection among add candidates leaves the chat idle, since the state is reset before the dispatch and that branch sets no other |
| Conversation.LocationsAfterTextAsWritten | bot/main.py:412-419 | as written, a selection among add candidates stores nothing, since `addLocation` raises; every other text changes the locations as `LocationsAfterText` says, whatever the station lookup |
| Conversation.AddSelectionAsWritten | bot/main.py:243-258 | picking a found place with a station near it in add state: the intended handler stores that station, the handler as written stores nothing |
| Conversation.RenameConversation | bot/main.py:376-399 | naming a stored location in rename state makes it the target; the next text renames exactly that location, keeping its coordinates, without changing the number of documents or any other chat's locations |
| Conversation.MainBot.constructor | bot/main.py:193-194 | the bot works over the given store |
| Conversation.MainBot.Add | bot/main.py:342-345 | `/add` sets the chat's state to add and asks for a location; no other chat's state and no location changes |
| Conversation.MainBot.Delete | bot/main.py:320-330 | with no stored locations the state is untouched and the chat is told to add one; otherwise the state becomes remove and the locations keyboard is offered |
| Conversation.MainBot.Rename | bot/main.py:449-460 | the state becomes rename even when the chat has no locations; the keyboard is offered only when it has some |
| Conversation.MainBot.GetWrapper | bot/main.py:285-309 | no locations: prompt and no state change; empty arguments: state becomes the command's type and the keyboard is offered; None arguments: TypeError; a name: radar or forecast of the first location so named, or the list of added names when none is |
| Conversation.MainBot.AddStationAsWritten | bot/main.py:243-244 | as written, `addLocation` raises AttributeError before it sends or stores anything |
| Conversation.MainBot.HandleLocationAsWritten | bot/main.py:332-340 | as written, a location in add state raises before the state is reset, so nothing is sent or stored and the chat stays in add; in any other state the ten-day forecast is sent |
| Conversation.MainBot.AddStation | bot/main.py:243-258 | with the station lookup in place: no station nearby: nothing stored; a station the chat already holds at those coordinates: reported as already added; otherwise stored once and forecast |
| Conversation.MainBot.HandleLocation | bot/main.py:332-340 | with the station lookup in place: in add state the location's station is stored and the state returns to idle; in any other state the ten-day forecast is sent and nothing changes |
| Conversation.MainBot.OfferCandidates | bot/main.py:421-433 | candidates found: they become the state's candidates and are offered as a keyboard; none found: the state stays as it was and the chat is told so |
| Conversation.MainBot.HandleText | bot/main.py:347-447 | the new state and the new locations are exactly those of the state machine `StateAfterText`/`LocationsAfterText` applied to the old state and locations; other chats' states do not change |
| Conversation.MainBot.TextToGet | bot/main.py:354-374 | a selection among candidates sends radar and ten-day forecast; otherwise the stored location so named gets radar or forecast as the state asks; an unknown name is reported; the state stays idle |
| Conversation.MainBot.TextToRename | bot/main.py:376-399 | with a target, the stored location named like it is renamed to the text; without one, naming a stored location makes it the target |
| Conversation.MainBot.TextToRemove | bot/main.py:401-410 | the first stored location named by the text is removed and reported; otherwise an unknown name is reported and nothing changes |
| Conversation.MainBot.TextToAdd | bot/main.py:412-433 | a selection among candidates stores that place's station and the chat goes idle; without candidates the text is a search whose results are offered |
| Conversation.MainBot.TextWhenIdle | bot/main.py:434-447 | only in a private chat is an idle text a search; elsewhere nothing is sent, no location changes and the chat stays idle |
| Conversation.MainBot.GetAll | bot/main.py:260-270 | one ten-day forecast per stored location, in storage order, named after it; only the prompt when there are none |
| InlineQuery.ToResult | bot/main.py:490-512 | a photo element gives a photo result and any other an MPEG4-GIF result; description and caption are both the element's text |
| InlineQuery.ToResultInvertible | bot/main.py:490-512 | id, urls, size, title, text and kind are all carried over: the element can be read back from its result |
| InlineQuery.Results | bot/main.py:536 | one result per element, in order |
| InlineQuery.Pending | bot/main.py:533-540 | a drain never returns more elements than the snapshot holds |
| InlineQuery.PendingIsPrefix | bot/main.py:533-540 | the drained elements are the snapshot's leading entries in arrival order, and the entry after them, if any, is the `None` sentinel, which is never returned |
| InlineQuery.Consumed | bot/main.py:533-540 | a drain takes the returned elements plus the sentinel if it reached one, and never more than the snapshot |
| InlineQuery.PagesContinue | bot/main.py:533-540 | two drains, the first ended by an empty wait, return the same elements in the same order as one drain of everything |
| InlineQuery.PendingCons | bot/main.py:535-536 | an element at the front is returned first, before the rest of the drain |
| InlineQuery.Drain | bot/main.py:533-540 | the drain loop returns the results of exactly the leading elements before the sentinel and consumes them plus the sentinel |
| InlineQuery.SplitOffset | bot/main.py:529 | unpacking succeeds exactly when the offset splits on `'-'` into two pieces, and then gives those pieces |
| InlineQuery.OffsetRoundTrip | bot/main.py:529-542 | an offset the bot issued splits back into the first query's id and a counter that parses to the old counter plus one, provided the id has no `'-'` |
| InlineQuery.FirstOffset | bot/main.py:519-542 | the first page starts from counter 0, so its next offset is the query's id followed by `-1` |
| InlineQuery.InlineQueues.constructor | bot/main.py:474 | no queue is registered at start |
| InlineQuery.InlineQueues.Put | bot/main.py:485 | an entry joins the end of a registered query's queue |
| InlineQuery.InlineQueues.Delete | bot/main.py:488 | the finished query's queue is unregistered and no other |
| InlineQuery.InlineQueues.HandleInlineQuery | bot/main.py:515-542 | a malformed offset fails before draining; an empty offset registers a fresh queue; a registered queue is drained and loses what was consumed; an unknown one gives an empty page; the next offset carries the counter plus one; a counter that is not a number fails after draining |
| Text.DigitChar | bot/main.py:542 | every digit value is printed as a decimal digit character |
| Text.DigitValue | bot/main.py:542 | reading a digit character gives the value that prints as it |
| Text.NatToString | bot/main.py:542 | `str(n)` is a non-empty string of decimal digits |
| Text.ParseNat | bot/main.py:542 | `int(s)` succeeds exactly on non-empty strings of decimal digits |
| Text.ParseNatToString | bot/main.py:542 | printing a counter and reading it back gives the counter |
| Text.Split | bot/main.py:529 | `split` always returns at least one piece |
| Text.JoinSplit | bot/main.py:529 | joining the pieces of a split with the separator gives back the original string |
| Text.SplitNoSep | bot/main.py:529 | a string without the separator splits into itself alone |
| Text.SplitAtFirst | bot/main.py:529 | a piece without the separator before the first separator comes off whole |
| ImageCache.IndexOf | bot/main.py:82-83 | the arguments are found exactly when some entry is stored for them, and at that entry |
| ImageCache.AccessWellFormed | bot/main.py:82-83 | a call keeps at most 128 entries with one per argument tuple, makes its arguments the most recent entry, and hits exactly when they were stored |
| ImageCache.HitReturnsStored | bot/main.py:82-105 | a call with stored arguments returns the stored value without calling the function |
| ImageCache.RepeatHits | bot/main.py:82-105 | calling again with the same arguments returns the first call's value without recomputing, whatever the function would return now |
| ImageCache.MissEvictsLeastRecent | bot/main.py:82-83 | a miss on a full cache evicts exactly the least recently used entry and keeps every other one |
| ImageCache.DistinctWithout | bot/main.py:82-83 | taking one entry out keeps the others distinct and in order |
| ImageCache.OtherCallKeepsEntry | bot/main.py:82-83 | a call with other arguments moves an entry back by at most one place and evicts it only when it was the least recent of a full cache |
| ImageCache.SurvivesOtherCalls | bot/main.py:82-83 | an entry r places from the most recent survives any 127 − r calls with other arguments |
| ImageCache.RecentResultSurvives | bot/main.py:82-116 | a result is returned from the cache for the next 127 calls with other arguments |
| ImageCache.ClearedMisses | bot/main.py:119-123 | after `clearImageCache` the next call recomputes |
| ImageCache.ImageFor | bot/main.py:83-105 | no station gives None (which is memoised too); otherwise the uploaded image's id, links and size merged with the plot's station, station distance, current temperature and conditions, and duration for 10 or 1.5 days |
| ImageCache.LruCache.constructor | bot/main.py:82 | a memo starts empty |
| ImageCache.LruCache.Call | bot/main.py:82-83 | one memoised call: the new entries, the value and whether the function ran are those of the LRU step |
| ImageCache.LruCache.Clear | bot/main.py:122-123 | `cache_clear` empties the memo |
| ImageCache.ImageCaches.constructor | bot/main.py:82-116 | both memos start empty |
| ImageCache.ImageCaches.GetImage | bot/main.py:82-105 | the image memo is consulted under (lat, lon, tenDays) and the radar memo is untouched |
| ImageCache.ImageCaches.GetRadarAnimation | bot/main.py:108-116 | the radar memo is consulted under (lat, lon) and the image memo is untouched |
| ImageCache.ImageCaches.ClearImageCache | bot/main.py:119-123 | both memos are emptied |
| Records.ParseType | bot/backend.py:24 | a string read back as a state type is that type's stored name |
| Records.ParseTypeName | bot/backend.py:24 | every state type's stored name reads back as that type |
| Records.LocationToDict | bot/backend.py:20-21 | the dict has exactly the four fields, with the name and the default flag |
| Records.LocationFromDict | bot/backend.py:16-18 | decoding succeeds exactly when lat, lon and name are present; lat, lon and name are taken over; a missing `default` reads as False |
| Records.LocationRoundTrip | bot/backend.py:16-21 | `Location.fromDict(l.toDict())` is `l` |
| Records.LocationsToValues | bot/backend.py:42 | one dict per location |
| Records.LocationsFromValues | bot/backend.py:37 | the decode succeeds exactly when every element is a dict that decodes, and then its i-th location is the i-th dict decoded |
| Records.LocationsRoundTrip | bot/backend.py:37-42 | a list of locations survives encoding and decoding |
| Records.StateToDict | bot/backend.py:40-47 | the dict has exactly type, location and addLocations; an absent part is written as None |
| Records.StateFromDict | bot/backend.py:32-38 | the decode succeeds exactly when the type names a state type and every present location decodes; the state then has that type, the decoded location and candidates, and a missing or None part reads as absent |
| Records.StateRoundTrip | bot/backend.py:32-47 | `State.fromDict(s.toDict())` is `s` |
| Records.IdleState | bot/backend.py:117-118 | the default state is idle with no location and no candidates |
| Tables.FirstMatch | bot/backend.py:64-68 | the document found is the first matching chat and coordinates; None means no document matches |
| Tables.OfChat | bot/backend.py:80-83 | a chat's view is never longer than the collection |
| Tables.OfChatMembership | bot/backend.py:80-83 | a location is yielded for a chat exactly when a document of that chat holds it |
| Tables.OfChatOtherChat | bot/backend.py:102-107 | changing another chat's document does not change this chat's view |
| Tables.OfChatDeleteOther | bot/backend.py:73-78 | deleting another chat's document does not change this chat's view |
| Tables.OfChatAppend | bot/backend.py:70 | an inserted document is yielded last, and only for its own chat |
| Tables.InsertKeepsUniquePerChat | bot/backend.py:60-71 | inserting after a pre-check that found nothing keeps (chat, lat, lon) unique |
| Tables.ReplaceKeepsUnique | bot/backend.py:102-107 | replacing a location by one with the same coordinates keeps both unique indexes |
| Tables.DeleteKeepsUnique | bot/backend.py:73-78 | deleting a document keeps the index and leaves no document at its key |
| Tables.OnlyMatch | bot/backend.py:60-61 | under the unique index the first match is the only match |
| Tables.OfChatPointwise | bot/backend.py:91-95 | a change confined to other chats' documents leaves a chat's view as it was |
| Tables.OfChatFirstWhere | bot/backend.py:85-89 | the only document of the chat satisfying a test is the first location of its view to satisfy it |
| Tables.OfChatNoneWhere | bot/backend.py:85-89 | when no document of the chat satisfies a test, no location of its view does |
| Tables.UpdateFirstEffect | bot/backend.py:102-107 | an update changes only the first matching document, only through the update; both indexes and other chats' views are kept |
| Tables.DeleteFirstEffect | bot/backend.py:73-78 | a delete removes at most the first matching document, keeps the rest in order and other chats' views, and under the index leaves no match |
| Tables.FindByChat | bot/backend.py:80-83 | the cursor loop yields exactly the chat's locations in storage order |
| BotBackend.ClearDefaults | bot/backend.py:92-95 | every location of the chat loses its default flag and keeps its coordinates and name; chats and other chats' documents are unchanged |
| BotBackend.ClearDefaultsKeepsMatch | bot/backend.py:91-100 | clearing defaults does not move the document the second filter selects |
| BotBackend.DefaultOnlyAtMatch | bot/backend.py:91-100 | other chats' locations are unchanged, and afterwards the chat's only default document is the one the second filter selects, now flagged |
| BotBackend.SetDefaultEffect | bot/backend.py:85-100 | after setting a default, at most one of the chat's locations is default, other chats are unchanged, and the default read back is the stored location at those coordinates, now flagged, or None |
| BotBackend.Backend.constructor | bot/backend.py:58-61 | both collections start empty and the index holds |
| BotBackend.Backend.AddLocation | bot/backend.py:63-71 | false and no change when the chat already holds the coordinates; otherwise one document appended and true; (chat, lat, lon) stays unique |
| BotBackend.Backend.RemoveLocation | bot/backend.py:73-78 | at most the chat's document at the coordinates is deleted, none remains there, states are untouched |
| BotBackend.Backend.GetLocations | bot/backend.py:80-83 | exactly the chat's locations, in storage order |
| BotBackend.Backend.GetDefaultLocation | bot/backend.py:85-89 | the first of the chat's locations flagged default, or None |
| BotBackend.Backend.SetDefaultLocation | bot/backend.py:91-100 | the chat's defaults are cleared, then the document at the coordinates is flagged, keeping the index |
| BotBackend.Backend.RenameLocation | bot/backend.py:102-107 | only the name of the chat's document at the coordinates changes |
| BotBackend.Backend.SetState | bot/backend.py:109-113 | the chat's state document is replaced or inserted, and reading it back gives the state just written |
| BotBackend.Backend.GetState | bot/backend.py:115-119 | the idle state when none is stored, otherwise the stored document decoded |
| BotDb.IdleDict | bot/db.py:55-56 | the default state dict is `{'type': 'idle'}` |
| BotDb.Backend.constructor | bot/db.py:20-23 | both collections start empty and the index holds |
| BotDb.Backend.AddLocation | bot/db.py:22-33 | false without inserting when (chat, lat, lon) exists, otherwise one insert and true; the triple stays unique |
| BotDb.Backend.GetLocations | bot/db.py:35-38 | exactly the chat's locations and none of other chats |
| BotDb.Backend.RenameLocation | bot/db.py:40-45 | only the name of the matching document changes |
| BotDb.Backend.SetState | bot/db.py:47-51 | upsert: the chat's state is replaced, one per chat |
| BotDb.Backend.GetState | bot/db.py:53-57 | the stored state, or `{'type': 'idle'}` when there is none |
| SrcDb.StateTypeTextInjective | src/db.py:13-17 | distinct enum members are stored as distinct strings |
| SrcDb.IdleDict | src/db.py:63-64 | the default state dict has the type `'idle'` |
| SrcDb.Insert | src/db.py:30-41 | as written: no insert when the chat holds the coordinates; DuplicateKeyError exactly when another chat holds them; otherwise one document appended, keeping (lat, lon) unique |
| SrcDb.CrossChatAddFails | src/db.py:30-41 | as written, adding coordinates another chat stored fails at insert although the pre-check passes |
| SrcDb.PerChatInsertAccepted | src/db.py:33-41 | with the per-chat index, an add is refused exactly when the chat holds the coordinates, and otherwise is stored, whatever other chats hold, without breaking the index |
| SrcDb.Backend.constructor | src/db.py:28-31 | both collections start empty, and the (lat, lon) index holds |
| SrcDb.Backend.AddLocation | src/db.py:30-41 | as written: `Ok(false)` when the chat holds the coordinates, DuplicateKeyError with nothing stored when another chat holds them, otherwise one document appended and `Ok(true)`; the (lat, lon) index is kept |
| SrcDb.Backend.GetLocations | src/db.py:43-46 | only the calling chat's locations |
| SrcDb.Backend.RenameLocation | src/db.py:48-53 | only the matching document's name changes |
| SrcDb.Backend.SetState | src/db.py:55-59 | the chat's state is replaced (upsert) |
| SrcDb.Backend.GetState | src/db.py:61-65 | the state last written, or `{'type': StateType.IDLE}` |
| SrcBot.Labels | src/main.py:165-180 | the labels keep the keyboard's shape |
| SrcBot.FlattenLabels | src/main.py:165-180 | the labels of the flattened keyboard are the flattened labels |
| SrcBot.Bot.constructor | src/main.py:31-32 | no chat is adding locations at start |
| SrcBot.Bot.Add | src/main.py:206-211 | a chat is listed at most once and stays listed; only a newly listed chat is prompted |
| SrcBot.Bot.AddLocation | src/main.py:118-130 | exactly one record is appended at the end of the chat's list, earlier entries kept, without a duplicate check |
| SrcBot.Bot.LocationHandle | src/main.py:196-203 | a listed chat's location is stored, any other chat's is forecast; the list of adding chats never shrinks |
| SrcBot.Bot.GetAll | src/main.py:133-147 | no list or an empty list gives only the prompt; otherwise one forecast per stored location in order |
| SrcBot.Bot.Get | src/main.py:150-193 | without arguments the keyboard's labels flatten to the stored names in order, two per row, each button sending its label; with a name, the first location so named is forecast, or the added names are listed |
| SrcBot.Bot.InlineButtonCallback | src/main.py:214-222 | the button's data is echoed in every case, then the first location so named is forecast; no stored list is a TypeError, an unknown name a StopIteration, both after the echo |
| ImageHost.Hasher.constructor | image-host/main.py:43 | a fresh hash has absorbed nothing |
| ImageHost.Hasher.Update | image-host/main.py:46 | the hash absorbs the chunk after what it had |
| ImageHost.UploadFile.constructor | image-host/main.py:41 | an upload is read from its start |
| ImageHost.UploadFile.Read | image-host/main.py:44-47 | a read returns up to n bytes from the position and advances past them |
| ImageHost.HashChunks | image-host/main.py:74-78 | the loop feeds the whole content to the hash: the chunks are non-empty, at most 64 KiB, all full but the last, and concatenate to the content |
| ImageHost.ContentId | image-host/main.py:79 | the id is ten characters long and a prefix of the content's hex digest |
| ImageHost.NamesDistinct | image-host/main.py:81-82 | image, thumbnail and animation names never collide, and each name determines its id |
| ImageHost.LinkInjective | image-host/main.py:92-93 | a link (base URL, printed as `None` when unset, then the route, then the file name) determines the file name it points to |
| ImageHost.ImageLinksDistinct | image-host/main.py:92-93 | the image link and the thumbnail link of one upload always differ |
| ImageHost.PostImage | image-host/main.py:64-103 | 405 for any caller but the bot, before the body is examined; 400 without an image field, with an empty file name, or for content the decoder rejects; otherwise 201 with the id, both links and the original's size, saving the image and its thumbnail |
| ImageHost.PostAnimation | image-host/main.py:34-60 | 405 for any caller but the bot; 400 without an animation field or with an empty file name; otherwise 201 with the id and the `.mp4` link |
| ImageHost.RFind | image-host/main.py:116 | the last occurrence of the character, or -1 |
| ImageHost.SuffixIsEnding | image-host/main.py:116 | a name has suffix `.jpg` or `.mp4` exactly when it ends with it after a non-empty stem |
| ImageHost.ExpiredNamesExact | image-host/main.py:116-122 | a name is removed exactly when it is a .jpg or .mp4 regular file modified more than two days before now |
| ImageHost.DeleteOldImages | image-host/main.py:112-125 | one sweep removes exactly the expired entries, in listing order |
| Radar.LastThree | bot/radar.py:57 | `s[-3:]`: the last min(3, n) items in order |
| Radar.SelectedShape | bot/radar.py:57 | the frames are the last (up to) three past entries followed by every nowcast entry, min(3, past) + nowcast of them |
| Radar.FrameUrlLiteral | bot/radar.py:59-65 | each URL is host + path + `/512/8/` + lat + `/` + lon + `/2/1_1.png` |
| Radar.FrameUrlDeterminesPath | bot/radar.py:65 | for one host and place, different paths give different URLs |
| Radar.RainViewerUrls | bot/radar.py:54-68 | one (url, time) pair per selected entry, in order, with the entry's own time |
| Radar.Trunc | bot/radar.py:82-83 | `int(x)` truncates toward zero |
| Radar.MarkerOnMap | bot/radar.py:80-84 | on the 512×512 map the marker is pasted at (244, 222) |
| Radar.MarkerBottomAtCentre | bot/radar.py:80-84 | on an even-height map the marker's bottom edge sits on the vertical centre line |
| Radar.CreateRadarAnimation | bot/radar.py:96-110 | exactly one rendered frame per URL, in URL order, each with its own overlay, time and the marker; the counter ends at the frame count |

## Left out

- Concurrency of the inline path is not modelled: the `Pool`/`Thread` fan-out, `queueImage`, `queueRadar`, `createResults`, `inlineInit`, `provideImagesForQuery`, the 5 s sleep and the `threading.Timer` rescheduling. What producers put while a request runs is the `arrivals` input, and the drain works on the resulting snapshot.
- InlineQuery.InlineQueues.HandleInlineQuery: the first blocking `get()` on an empty queue is the outcome `Waiting`. The 0.5 s wait is "the snapshot is exhausted"; real timing is not modelled.
- ImageCache: `lru_cache` in each pool worker process is a separate memo; the model has one memo.
- ImageCache: exceptions from the wrapped function are not stored by `lru_cache`, and the wrapped calls do not fail in the model.
- ImageCache: keys are compared as reals; `typed=False` equality of `1`, `1.0` and `True` is not modelled.
- Telegram API calls are not modelled: `send_message`, `send_photo`, `send_animation`, `answer`, `reply_text` and `edit_message_text`. Neither are `sendRadar`, `sendForecast`, `start`, `handleError`, `getStuff` and the waiting-message deletion. Replies are `Reply` values, and formatted texts are constructors carrying their data.
- Nominatim, Brightsky and RainViewer requests and `requests_cache` are not modelled: `getLocationName`, `queryLocations`, `osmToLocation`, `getLocationInfo` and `fetchAndPlot`. Their results are inputs.
- The weather providers' plotting and float arithmetic are not part of this model.
- Rendering is not modelled: PIL, staticmaps and imageio drawing, the time label, mp4 encoding and thumbnailing. A rendered frame records its overlay, time and marker position.
- Radar.RainViewerUrls: latitude and longitude are taken as the text Python prints for them; the time-zone conversion of each timestamp is not modelled.
- The handleText `ValueError` for a state without a type cannot arise: every modelled state has a type.
- The dict stores (bot/db.py, src/db.py) keep the dict their caller passes. The bot's handlers are modelled against the typed store of bot/backend.py.
- MongoDB and Redis are modelled as in-memory collections in insertion order. Driver behaviour beyond exact-match filters, insert, delete-one, `$set` updates and upsert-replace is not modelled. Redis JSON encoding is not modelled.
- Records.StateFromDict: the dataclass accepts any `type` value, since `Literal` is only a type hint. The model rejects a type that is not one of the eight state names, or is not a string; such a state would match no branch of `handleText`.
- Records.LocationFromDict: Python does not check field types. The model fails on a field of the wrong type, where Python would build a `Location` holding it.
- Text.ParseNat: `int()` also accepts surrounding whitespace, a sign, underscores and non-ASCII digits. The model accepts ASCII digits only.
- ImageHost.PostImage: an `IOError` while reading the upload also gives "Cannot parse as image"; the model gives that answer only for content the decoder rejects. Writing the files is the `saved` list of names.
- ImageHost.PostAnimation: `file.seek(0)` and saving the file are the `saved` list.
- ImageHost.DeleteOldImages: the sweep takes the directory listing and the clock as inputs. The hourly loop, the swallowed exceptions and local-time or daylight-saving effects of comparing naive datetimes are not modelled.
- The Flask GET routes, the error handlers and `socket.gethostbyname` are not modelled; the bot host's address is an input.
- Conversation.MainBot.HandleText: the contract states the new state and locations, not the replies. The replies of the get and remove branches are stated by Conversation.MainBot.TextToGet and Conversation.MainBot.TextToRemove.
- Conversation.MainBot.TextToRename: the replies are not stated in the contract, only the new state and locations.
- Conversation.MainBot.TextToAdd: the replies are not stated in the contract, only the new state and locations.
- Conversation.MainBot.HandleLocation: in add state the replies are those of Conversation.MainBot.AddStation and are not restated. It models the handler with the station lookup in place; as written, `addLocation` raises (Conversation.MainBot.HandleLocationAsWritten, Findings).
- Conversation.MainBot.AddStation: models `addLocation` with the station lookup in place, its answer being the `station` input. As written, the lookup raises AttributeError (Conversation.MainBot.AddStationAsWritten, Findings).
- Conversation.MainBot.HandleText: a selection among add candidates stores the station, as intended. As written it stores nothing (Conversation.LocationsAfterTextAsWritten, Findings). The state after the text is idle either way.
- Conversation.MainBot.TextToAdd: a selection stores the station through Conversation.MainBot.AddStation. As written, `addLocation` raises and nothing is stored (Findings).

## Findings

| source | as written | input that shows it | evidently intended | confidence | as-written member | corrected member |
|---|---|---|---|---|---|---|
| src/db.py:30-41 | the unique index covers only (lat, lon), while `addLocation`'s pre-check looks only at the calling chat's documents | chat 2 adds coordinates that chat 1 already stored: the pre-check finds nothing for chat 2, then `insert_one` raises DuplicateKeyError | an index on (chat, lat, lon), as bot/db.py:22-23 declares, so every chat can store any place once | high; not executed | SrcDb.CrossChatAddFails | SrcDb.PerChatInsertAccepted |
| bot/main.py:188-194, 243-244 | `MainBot` declares `weatherProvider` only as a class annotation and `__init__` never assigns it, so `addLocation` raises AttributeError on its first line | a chat in add state sends a location: `handleLocation` raises inside `addLocation`, stores nothing, and never resets the state to idle; a pick among add candidates in `handleText` stores nothing either | `self.weatherProvider` assigned in `__init__`, so the station found near the place is stored and reported | high; not executed | Conversation.MainBot.HandleLocationAsWritten | Conversation.MainBot.AddStation |
