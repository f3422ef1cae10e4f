# Radius marketplace client: a Dafny model of its data logic

Radius is a React Native marketplace app. Sellers list items with a location. Buyers browse a feed near them, save items and chat with sellers. Everything runs against a Supabase (PostgREST) backend. This project models the client-side logic between the backend's answers and the screens:

- **Location codec.** `parseEWKB` decodes the hex text of a PostGIS point (the extended Well-Known Binary form with an SRID). It is written as a method that fills a 16-byte buffer in two loops. The pair-to-byte step is `parseInt(pair, 16)` followed by the ToUint8 conversion of `DataView.setUint8`. `calculateDistance` renders a distance label.
- **Feed.** The feed query is an ordered list of query-builder calls (`Op`) built from a filters record. After the backend answers, the client applies location decoding, the radius filter, the inclusive bounding-box filter and the closest-first re-sort. Also modelled: `fetchItemsByIds` and `deleteItem`'s owner check.
- **Pagination.** The infinite-scroll rule of the feed hook.
- **Write payloads.** The `POINT(lon lat)` Well-Known Text location of `createItem` and `updateItem`. A missing location is `null` on insert and omitted on update.
- **Stores.** Five Zustand stores, each a `class` whose methods update its fields:
  - saved items, with an optimistic toggle and a revert on failure;
  - notifications, with the unread counter and the realtime INSERT/UPDATE handlers;
  - settings;
  - toast;
  - feed loading.
- **Response mappers.** Notifications (title by type, message from content), chat rooms (other participant, latest message, read flag), the room and message writes, and the block list and its "row not found" tolerance.
- **Class-name joiners.** `cn` and the card's `clsx`.

Inputs the client does not compute are parameters of the model:
- the backend's answers;
- the IEEE-754 reading of eight bytes (`Float64LE`);
- the haversine distance;
- Number-to-string conversion;
- date parsing.

JavaScript built-ins the code relies on are modelled in their own modules: `trim`, `join`, `split`, `parseInt(·, 16)`, `Math.round`, `toFixed(1)`, `filter` and `sort`. `sort` is modelled as a stable insertion sort. The comparator "`cmp(a, b) > 0`" is read as "a goes after b". NaN and 0 count as "equal".

Each store method is proved against a pure function of the old state, for example `State() == Apply(old(State()), action)`. The lemmas about those functions state what the source promises: involutions, reverts, recounts and frame conditions.

Facts about the code that the model states and that a reader may not expect:
- `fetchItems` ignores the `page` and `limit` the hook passes and always asks for at most 100 rows. So every page of the infinite feed is the same page; `FullFeedRepeats` states the consequence.
- A malformed hex pair in `parseEWKB` never makes the result null. Its byte is not always 0 either:
  - a pair starting with white space or `+` gives the value of its second digit (`" f"` gives 15);
  - `-` gives the negated value modulo 256 (`"-1"` gives 255);
  - a hex digit followed by a non-digit gives that digit;
  - `"0x"` gives 0.
- `deleteItem`'s "Item not found" branch cannot be reached through `fetchItemById`: that function returns an object or throws. The model keeps the branch, with the lookup's outcome as a parameter.

## Model

| member | source | states |
|---|---|---|
| LocationUtils.ParseEWKB | src/features/location/utils.ts:29-61 | The two-loop buffer fill returns the function `DecodedPoint`: null below 50 characters; otherwise longitude is `Float64LE` of the eight bytes from hex characters 18..33 and latitude that of characters 34..49 |
| LocationUtils.DecodedPoint | src/features/location/utils.ts:37-61 | Null exactly when the text is shorter than 50 characters; otherwise longitude is `Float64LE` of the eight bytes after the 18-character header and latitude that of the next eight |
| LocationUtils.DecodeNullIffShort | src/features/location/utils.ts:37 | The result is null exactly when the text (the empty one included) is shorter than 50 characters |
| LocationUtils.HeaderIgnored | src/features/location/utils.ts:39-41 | Two texts that differ only in their first 18 characters (endian flag, type word, SRID) decode to the same point |
| LocationUtils.TailIgnored | src/features/location/utils.ts:48-59 | Characters from index 50 on never affect the result |
| LocationUtils.DecodeHexOf | src/features/location/utils.ts:41-59 | Decoding the lower-case hex text of any 25-byte record gives longitude from bytes 9..16 and latitude from bytes 17..24: the decoder inverts hex encoding |
| JsString.ByteOfIsParseInt | src/features/location/utils.ts:49-50 | The byte stored for a two-character pair equals ToUint8 of `parseInt(pair, 16)` for every pair: two hex digits give their value, a leading space or `+` the second digit, `-` its negation modulo 256, `0x` and non-hex input 0 |
| JsString.ByteOfHexPair | src/features/location/utils.ts:49 | Parsing the two hex digits of a byte gives back that byte |
| JsString.ToUint8 | src/features/location/utils.ts:50 | NaN is stored as 0 and any other integer modulo 256 |
| JsString.HexRun | src/features/location/utils.ts:49 | `parseInt` reads the longest prefix of hex digits: all before it are hex digits, the one after it is not |
| LocationUtils.FormatDistance | src/features/location/utils.ts:19-22 | Below 1 km the label is digits followed by " m" (for a non-negative distance); from 1 km on it is digits, a point, one digit and " km" |
| LocationUtils.CalculateDistance | src/features/location/utils.ts:1-23 | The label is in metres exactly when the haversine distance is below 1 km, and for a non-negative distance it reads back within half a metre or within 0.05 km |
| LocationUtils.FormatDistanceReadsBack | src/features/location/utils.ts:19-22 | Below 1 km the label ends in " m" and reads back within half a metre; from 1 km on it ends in " km" and reads back within 0.05 km |
| LocationUtils.FormatDistanceExamples | src/features/location/utils.ts:19-22 | 0.5 km is "500 m", 1 km is "1.0 km", and 0.9996 km rounds to "1000 m" (metres are chosen before rounding) |
| JsNumber.Round | src/features/location/utils.ts:20 | `Math.round` gives the integer within half of its argument, halves rounding up |
| JsNumber.DecimalValueOfDigits | src/features/location/utils.ts:20-22 | The rendered decimal digits of a number read back as that number |
| JsNumber.NatDigits | src/features/location/utils.ts:20 | A whole number renders as decimal digits with no leading zero |
| FeedApi.BaseQuery | src/features/feed/api.ts:45-63 | The query starts with `select("*")` and `eq("status","active")`, and before the filters holds only orderings and `limit(100)` |
| FeedApi.FilterOps | src/features/feed/api.ts:65-83 | An optional call is present exactly when requested: the blocked-owner exclusion for a non-empty block list, the title search for a truthy query, the category for one other than "All", each price bound whenever it is given (0 included) |
| FeedApi.FeedQuery | src/features/feed/api.ts:45 | Every feed query selects all columns of active items first |
| FeedApi.FeedQueryCalls | src/features/feed/api.ts:45-83 | The row cap is always `limit(100)` and the only limit; each optional call appears iff its condition holds and with the filter's value; no `in` and no delete is ever sent |
| FeedApi.FeedQueryMembers | src/features/feed/api.ts:45-83 | A call is in the feed query exactly when it is in the base query (select, status, ordering, row cap) or is one of the requested filters |
| FeedApi.FeedQueryOrdering | src/features/feed/api.ts:48-60 | The orderings by mode: price ascending, price descending, `created_at` descending, and for "closest" or no mode `is_boosted` then `created_at`, both descending |
| FeedApi.ChainFeedQuery | src/features/feed/api.ts:45-83 | Chaining the calls one by one under their conditions builds exactly `FeedQuery` |
| FeedApi.MapRow | src/features/feed/api.ts:91-97 | A text location is replaced by its EWKB decoding, a point and a missing location pass through, and every other field is kept |
| FeedApi.MapRows | src/features/feed/api.ts:91-97 | One mapped item per row, in order |
| FeedApi.MapRowOfHex | src/features/feed/api.ts:91-97 | A row whose location is the hex text of a 25-byte point record carries the two doubles it encodes |
| JsArray.Filter | src/features/feed/api.ts:103-128 | `filter` keeps every element satisfying the predicate, as often as it occurs, and nothing else, in the original order |
| JsArray.FilterMembers | src/features/feed/api.ts:103-128 | An element is kept iff it occurs in the input and satisfies the predicate |
| FeedApi.Narrow | src/features/feed/api.ts:99-149 | The result holds exactly the items passing the radius filter (only with a non-zero radius, a user location and no map bounds: located and at distance ≤ radius) and the inclusive bounds filter (located and inside all four edges); order is kept unless the closest sort runs; when either filter runs every item is located; the closest sort orders by ascending distance when every item is located |
| JsArray.Sort | src/features/feed/api.ts:133-148 | `sort` returns a permutation of its input |
| JsArray.SortSorted | src/features/feed/api.ts:133-148 | With a key on every element, the comparator `key(a) - key(b)` sorts by ascending key |
| JsArray.SortHead | src/features/chat/api.ts:58-61 | With a key on every element, the first element after sorting is the first one with the least key, so ties go to the earliest in input order |
| FeedApi.FeedResult | src/features/feed/api.ts:30-151 | Fails exactly when the backend answers the feed query with an error, with that error's message; otherwise holds exactly the kept mapped rows, each as often as it came back, in the backend's order unless the closest sort runs |
| FeedApi.FetchItems | src/features/feed/api.ts:30-151 | The query sent is `FeedQuery` with the block list; a backend error is thrown as `new Error(message)`; otherwise the result is the narrowed mapped rows |
| FeedApi.FetchItemsByIds | src/features/feed/api.ts:210-227 | No query and an empty result for no ids; otherwise one `in("id", ids)` query, its error rethrown as is, one mapped item per row |
| FeedApi.DeleteItem | src/features/feed/api.ts:229-240 | The delete is sent exactly when the item was found and is owned by the caller; a lookup error, "Item not found" and "Unauthorized to delete this item" are thrown before any delete; the delete's error is rethrown |
| FeedHooks.GetNextPageParam | src/features/feed/hooks.ts:12-16 | No next page iff the last page holds fewer than 20 items; otherwise the next page is the number of pages loaded |
| FeedHooks.PageRequest | src/features/feed/hooks.ts:8-9 | A page request is the caller's filters with `page` set to the page parameter and `limit` to 20, and nothing else changed |
| FeedHooks.LoadPages | src/features/feed/hooks.ts:11-16 | Loading keeps the pages so far and appends page i as the fetch of page i; every page from the last given one to the last but one loaded is full, and the last is short unless the request budget ran out |
| FeedHooks.LoadFeed | src/features/feed/hooks.ts:8-16 | Starting from page 0, page i is the fetch of page i; every page but the last holds at least 20 items, and the last is short unless loading was cut off |
| FeedHooks.EveryPageSameResult | src/features/feed/hooks.ts:9 | Page and limit never reach the query: every page request sends the same query and gets the same result |
| FeedHooks.FeedPages | src/features/feed/hooks.ts:8-10 | Whatever page is asked for, the page's items are those of page 0 |
| FeedHooks.FullFeedRepeats | src/features/feed/hooks.ts:12-15 | When the first page is full, the infinite feed repeats that page as many times as it is allowed to load |
| CreateApi.PointWkt | src/features/create/api.ts:54 | The WKT text is never empty |
| CreateApi.PointWktRoundTrip | src/features/create/api.ts:53-55 | Reading the text back as `POINT(x y)` gives longitude from `x` and latitude from `y`: longitude comes first |
| CreateApi.InsertLocation | src/features/create/api.ts:51-59 | The insert always sends the location key: null exactly when there is no location, otherwise the point's non-empty WKT |
| CreateApi.UpdateLocation | src/features/create/api.ts:70-79 | The update never sends null: the key is left out exactly when there is no location, otherwise it is the point's non-empty WKT |
| CreateApi.InsertUpdateLocations | src/features/create/api.ts:49-80 | Without a location the insert sends null and the update omits the key; with one both send the same non-empty WKT |
| CreateApi.CreateItem | src/features/create/api.ts:46-64 | The insert payload is the non-location fields unchanged plus the insert location; the answer is returned as is |
| CreateApi.UpdateItem | src/features/create/api.ts:66-90 | The update payload is the non-location fields unchanged plus the location key only when a location was given; the answer is returned as is |
| SavedStore.Flip | src/features/saved/store.ts:36-44 | The optimistic update flips the item's membership and leaves every other id alone |
| SavedStore.Restore | src/features/saved/store.ts:55-63 | The revert sets the item's membership to what it was before the toggle and leaves every other id alone |
| SavedStore.FlipTwice | src/features/saved/store.ts:36-43 | Two flips of the same id give back the original set |
| SavedStore.RevertUndoesFlip | src/features/saved/store.ts:52-63 | Reverting straight after the optimistic flip gives back the original set |
| SavedStore.SavedStore.constructor | src/features/saved/store.ts:15-17 | Nothing saved, not loading, not loaded |
| SavedStore.SavedStore.IsSaved | src/features/saved/store.ts:68 | `isSaved(id)` iff `id` is in the saved set |
| SavedStore.SavedStore.FetchSavedIds | src/features/saved/store.ts:19-30 | No change once loaded; on success the saved set is exactly the fetched ids and the store is loaded; on failure both are unchanged; loading is off afterwards |
| SavedStore.SavedStore.BeginToggle | src/features/saved/store.ts:33-44 | Returns the membership before the toggle and flips it |
| SavedStore.SavedStore.SettleToggle | src/features/saved/store.ts:46-65 | On failure the item's membership is set back to its value before the toggle and the error rethrown; on success nothing changes |
| SavedStore.SavedStore.ToggleSave | src/features/saved/store.ts:32-66 | `unsaveItem` for a saved item, `saveItem` otherwise; success leaves the item flipped, failure leaves the set exactly as it was and rethrows |
| SavedStore.SavedStore.Reset | src/features/saved/store.ts:70 | Empties the saved set and clears the loaded mark |
| NotificationsApi.TitleFor | src/features/notifications/api.ts:26-28 | "message", "price_drop" and "sold" each map to their own title, and every other type to "Notification" |
| NotificationsApi.MapRow | src/features/notifications/api.ts:23-29 | The message is the row's content, the title comes from the type, and every other field is copied |
| NotificationsApi.FetchNotifications | src/features/notifications/api.ts:14-30 | A query error is thrown as is; otherwise one notification per row, in order, equal to `MapRow` of that row (every field of the row copied, content as message, title from type) |
| NotificationsApi.MarkAsRead | src/features/notifications/api.ts:32-39 | Succeeds iff the update reports no error, which is otherwise thrown as is |
| NotificationsStore.FilterUnreadCount | src/features/notifications/store.ts:34 | `filter((n) => !n.is_read).length` is the number of unread notifications |
| NotificationsStore.MarkRead | src/features/notifications/store.ts:46-48 | The entries with the id are marked read; the others, the length and the order are unchanged |
| NotificationsStore.MarkReadCount | src/features/notifications/store.ts:46-50 | Marking read lowers the unread count by exactly the unread entries with that id, leaves none of them unread, and is idempotent |
| NotificationsStore.ReplaceById | src/features/notifications/store.ts:76-78 | The entries with the update's id are replaced by it; the others, the length and the order are unchanged |
| NotificationsStore.ReplaceByIdIdempotent | src/features/notifications/store.ts:73-81 | Applying the same realtime UPDATE twice is applying it once |
| NotificationsStore.InsertCount | src/features/notifications/store.ts:67-72 | The INSERT handler's `+ 1` agrees with a recount exactly when the inserted notification is unread |
| NotificationsStore.NotificationsStore.constructor | src/features/notifications/store.ts:20-24 | No notifications, nothing unread, not loading, no push token |
| NotificationsStore.NotificationsStore.SetExpoPushToken | src/features/notifications/store.ts:26 | Only the token changes |
| NotificationsStore.NotificationsStore.IncrementUnreadCount | src/features/notifications/store.ts:28 | The counter goes up by one and nothing else changes |
| NotificationsStore.NotificationsStore.FetchNotifications | src/features/notifications/store.ts:30-41 | On success the list is replaced and the counter equals its unread count; on failure both are unchanged; loading is off afterwards |
| NotificationsStore.NotificationsStore.MarkNotificationAsRead | src/features/notifications/store.ts:43-54 | Once the backend accepts, the list is marked read for that id and the counter recounted; on failure nothing changes |
| NotificationsStore.NotificationsStore.OnRealtime | src/features/notifications/store.ts:66-83 | INSERT prepends the row and adds one whatever the row says (keeping the counter right iff the row is unread); UPDATE replaces by id and recounts; other events change nothing |
| ChatApi.MapRoom | src/features/chat/api.ts:53-70 | The other user is the seller for the buyer and the buyer otherwise; the messages are a permutation of those returned; the last message is absent iff there are none, is one of them, and is read iff its `read_at` is set |
| ChatApi.LastMessageIsLatest | src/features/chat/api.ts:58-61 | When every date is valid, the last message has the greatest time, and among ties it is the first in the returned order |
| ChatApi.FetchRooms | src/features/chat/api.ts:30-72 | A query error is thrown as is; otherwise one mapped room per row, in order |
| ChatApi.CreateRoom | src/features/chat/api.ts:74-98 | An existing room is returned with no write; otherwise the room is inserted and the insert's answer returned, its error thrown |
| ChatApi.SendMessage | src/features/chat/api.ts:111-127 | The message is inserted first; an insert error is thrown before the room is touched; otherwise the room's `updated_at` is set and that update's outcome ignored |
| ModerationApi.FetchBlockedUsers | src/features/moderation/api.ts:40-48 | A query error is thrown as is; otherwise the blocked id of each row, in order |
| ModerationApi.FlattenProfile | src/features/moderation/api.ts:80-83 | The id is the row's blocked id, overriding the profile's; every other profile field is copied; a missing profile leaves only the id |
| ModerationApi.FetchBlockedProfiles | src/features/moderation/api.ts:62-84 | A query error is thrown as is; otherwise one flattened profile per row, in order, whose id is the row's blocked id |
| ModerationApi.BlockedProfilesMatchIds | src/features/moderation/api.ts:40-84 | The blocked ids and the blocked profiles of the same answer list the same users in the same order |
| ModerationApi.CheckIfBlocked | src/features/moderation/api.ts:50-60 | Throws iff there is an error whose code is not PGRST116; otherwise the answer is whether a row came back |
| SettingsStore.Toggle | src/features/settings/store.ts:32-38 | One channel is negated and the other kept |
| SettingsStore.Apply | src/features/settings/store.ts:26-42 | Each action changes only its own preference: the theme is the one last set, a toggled channel and the biometric lock are negated |
| SettingsStore.ToggleTwice | src/features/settings/store.ts:32-42 | Either toggle applied twice is the identity |
| SettingsStore.SetThemeLast | src/features/settings/store.ts:26-27 | Only the last of two theme changes counts |
| SettingsStore.ActionsCommute | src/features/settings/store.ts:26-42 | Actions on different preferences can be applied in either order |
| SettingsStore.SettingsStore.constructor | src/features/settings/store.ts:20-25 | Theme "system", push and e-mail on, biometrics off |
| SettingsStore.SettingsStore.SetTheme | src/features/settings/store.ts:26-27 | The new state is `Apply` of the theme action to the old one |
| SettingsStore.SettingsStore.ToggleNotifications | src/features/settings/store.ts:32-38 | The new state is `Apply` of the channel toggle to the old one |
| SettingsStore.SettingsStore.ToggleBiometrics | src/features/settings/store.ts:39-42 | The new state is `Apply` of the biometrics toggle to the old one |
| UiStore.Show | src/features/ui/store.ts:17 | A shown toast is visible with the given message and the given kind, `info` when none is given |
| UiStore.Hide | src/features/ui/store.ts:18 | A hidden toast keeps its message and kind |
| UiStore.ShowForgetsPast | src/features/ui/store.ts:17 | What a shown toast displays does not depend on the earlier state |
| UiStore.HideShowRoundTrip | src/features/ui/store.ts:17-18 | Showing again what was hidden restores the toast; hiding twice is hiding once |
| UiStore.UiStore.constructor | src/features/ui/store.ts:14-16 | Hidden, empty message, kind `info` |
| UiStore.UiStore.ShowToast | src/features/ui/store.ts:17 | The new state is `Show` of the old one |
| UiStore.UiStore.HideToast | src/features/ui/store.ts:18 | The new state is `Hide` of the old one |
| FeedStore.NoFiltersQuery | src/features/feed/store.ts:20 | The store's request is the unfiltered feed query: active items, boosted then newest, at most 100, blocked owners excluded when there are any |
| FeedStore.NoFiltersKeepsAll | src/features/feed/store.ts:20 | Without filters every returned row is kept, in the backend's order |
| FeedStore.FeedStore.constructor | src/features/feed/store.ts:13-15 | No items, not loading, no error |
| FeedStore.FeedStore.FetchItems | src/features/feed/store.ts:16-34 | The request is the unfiltered feed whatever the user id; success replaces the items and leaves no error; failure keeps the items and records the thrown message; loading is off afterwards |
| LibUtils.Flat | src/lib/utils.ts:12 | Every argument that is not an array and every element of an array argument is kept, and nothing else appears |
| LibUtils.Strings | src/lib/utils.ts:13 | A value is a kept string exactly when it is a string among the values |
| LibUtils.StringsAreFiltered | src/lib/utils.ts:13 | The kept strings are the filtered values string for string: every string, as often as it occurs and in order |
| LibUtils.ClassNames | src/lib/utils.ts:12-13 | A class name is kept exactly when it is a string argument or a string at the top level of an array argument |
| LibUtils.Cn | src/lib/utils.ts:10-16 | The result is the joined class names with only white space cut from either end: it starts and ends with non-white space, and everything cut before and after it is white space |
| LibUtils.NonStringIgnored | src/lib/utils.ts:11-13 | A number, boolean, null, undefined, object or array without a top-level string leaves the result unchanged wherever it is placed |
| LibUtils.CnSplits | src/lib/utils.ts:14-15 | For non-empty class names without white space, splitting the result on spaces gives back the names, each one and in order |
| LibUtils.ClassNamesOfStrings | src/lib/utils.ts:12-13 | With only string arguments, the class names are exactly those strings, in order, empty ones included |
| LibUtils.CnKeepsEmptyStrings | src/lib/utils.ts:13-15 | `cn(a, "", b)` is `a`, two spaces, `b` for names with no white space at their ends: empty strings are not dropped |
| JsString.Trim | src/lib/utils.ts:15 | `trim` removes exactly the white space at both ends |
| JsString.SplitJoin | src/lib/utils.ts:14 | Splitting a join on its one-character separator gives the parts back when no part contains it |
| GlassCard.Classes | src/components/ui/GlassCard.tsx:6 | A string is kept exactly when it is a non-empty string argument: undefined, null, false and "" are dropped |
| GlassCard.ClassesAreFiltered | src/components/ui/GlassCard.tsx:6 | The kept names are the truthy arguments name for name: every one, as often as it occurs and in order |
| GlassCard.Clsx | src/components/ui/GlassCard.tsx:6 | The result is empty exactly when no argument is truthy; otherwise it starts with the first kept name and ends with the last, untrimmed |
| GlassCard.ClsxAllFalsy | src/components/ui/GlassCard.tsx:6 | With no truthy argument the result is "" |
| GlassCard.ClsxSplits | src/components/ui/GlassCard.tsx:6 | Splitting the result on spaces gives back exactly the truthy arguments, in order, with no empty part |
| GlassCard.ClsxAgreesWithCn | src/components/ui/GlassCard.tsx:6 | On class names with no white space at their ends, `clsx` and `cn` agree: they differ only on empty strings and on surrounding white space, which `clsx` does not trim |

## Left out

- Floating point: the IEEE-754 reading of the eight bytes and the haversine distance are parameters; every number is a real. So the model does not capture rounding in `d * 1000`, distances of 1e21 km or more (which `toFixed` prints in exponent form) or NaN from a broken point.
- Number-to-string conversion of coordinates in the WKT text is the parameter `show`.
- Date parsing (`new Date(...).getTime()`) is the parameter `epochMs`. A sort whose comparator meets an invalid date is left as the insertion sort computes it. JavaScript leaves such an ordering to the engine.
- FeedApi.Narrow: the closest sort's comparator gives 0 when either item has no location. Over a mix of located and unlocated items it is inconsistent, and JavaScript leaves the order to the engine. The model keeps the order its insertion sort produces, and no contract states that order.
- Strings are sequences of characters, not UTF-16 code units.
- The Supabase client, the session lookup and the query execution are parameters: the backend's answer to the query the model builds. Exceptions other than the ones the code throws itself (network failures) are not modelled.
- Concurrency: each async operation is one sequential step. The one exception is `toggleSave`, split at its await point into `BeginToggle` and `SettleToggle`. Stale responses from overlapping calls are not modelled.
- FeedStore.FeedStore.FetchItems: the await between clearing the error and storing the answer is not modelled; the store changes in one step.
- The realtime channel of the notifications store (`subscribeToNotifications`, subscribe and unsubscribe) is not modelled. Only its INSERT and UPDATE handlers are.
- The realtime payload is stored as it arrives; its `content` is not re-mapped to a message. The model receives an already shaped notification.
- ChatApi.MapRoom: `room.messages.sort` sorts the returned array in place. The model returns a sorted copy in the mapped room; the row has no other holder, so nothing else could observe the in-place change.
- Feed sorting in place (`items.sort`) is modelled on values for the same reason.
- GeoJSON and other object-shaped locations are treated like an already parsed point (`Point`).
- `uploadImage` (image compression and storage upload), `fetchItemById`, `updateItemStatus`, `boostItem`, the `deleteItem` of the create module, `fetchMessages`, `createReport`, `blockUser` and `unblockUser` are not modelled. They are single backend calls without client-side logic, or depend on the file system and the clock.
- The `fetchItemById` lookup inside `deleteItem` is the parameter `lookup`.
- Persistence of the settings store to device storage is not modelled.
- FeedHooks.FeedPages: a page whose request fails counts as an empty page. In the app the infinite query goes into its error state instead.
- FeedHooks.LoadFeed: the model loads at most `fuel` follow-up pages. In the app, scrolling a feed whose pages are all full never stops loading.
- `Array.prototype.flat` also drops holes of sparse arrays. Sequences have no holes.
