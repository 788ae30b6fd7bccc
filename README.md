# Nearby friends and the friends map, in Dafny

A model of the two dashboard pages of a location-sharing social app that
compute something from the backing store's rows:

- the **nearby friends** page (`app/dashboard/nearby/page.tsx`) loads the
  viewer's profile, stops early when the viewer's own position is unknown,
  turns the viewer's accepted connections into friend ids, loads those
  friends' profiles, keeps the ones that share a position, attaches to each
  its distance from the viewer, and sorts them nearest first;
- the **friends map** page (`app/dashboard/map/page.tsx`) loads the viewer's
  profile and the same friend profiles, shows a "You are here" pin when the
  viewer's position is known, a pin for every friend who shares a position,
  and a sidebar card for every friend with a "Location shared" or
  "Location not shared" line.

Both pages decide "position known" with JavaScript truthiness,
`latitude && longitude`. The model keeps that test as it is written: a
coordinate that is `null` **or exactly 0** counts as not shared
(`Profiles.Truthy`). A friend standing on the equator or on the Greenwich
meridian is therefore left off the map and out of the nearby list.

Files, one module each:

- `wrappers.dfy` (`Wrappers`): `Option`, for nullable columns and for query
  results whose `data` is null.
- `sequences.dfy` (`Sequences`): `Map` over a sequence and the fact that
  mapping a permutation gives a permutation.
- `profiles.dfy` (`Profiles`): the `Profile` and `Connection` rows of
  `lib/supabase.ts`, the truthiness test, the friend-id extraction, the
  "located" filter shared by both pages, and the avatar fallback letter.
- `nearby.dfy` (`Nearby`): the ranking (filter, attach distance, stable sort)
  with its properties, and the page state of the nearby page as a class.
- `map_view.dfy` (`MapView`): pins, sidebar cards and labels, the lemmas that
  tie them together and to the nearby ranking, and the map page state as a
  class.

The distance function `calculateDistance` is haversine arithmetic on
floating-point numbers. The model does not compute it: every ranking
function takes it as a parameter `dist: Distance`, so every property proved
holds for any distance function whatsoever, the haversine one included.

Every call into the backing store is a parameter too: `user` is the
authenticated user, if any; `profileOf(id)` is the answer to the
`.eq('id', id).single()` query; `acceptedConnectionsOf(id)` is the answer to
the `connections` query for that user with status `accepted`; and
`profilesIn(ids)` is the answer to `.in('id', ids)`. An answer of `None` is a
query whose `data` came back null. The page methods run the source's steps
on these answers and say exactly what the page state is afterwards.

Behaviours of the source that are easy to miss, and that the model keeps:

- with no usable viewer position the nearby page does not fail; it clears
  `loading` and keeps its empty list, so it shows "No friends nearby at the
  moment" (app/dashboard/nearby/page.tsx:39-42, 105-107). The model does the
  same (`Nearby.NearbyFriendsPage.FetchNearbyFriends`, `Nearby.Mount`);
- a friend coordinate of exactly 0 is excluded as well as `null`
  (app/dashboard/nearby/page.tsx:60);
- both pages compute an avatar letter with `username[0].toUpperCase()`. For
  an empty username `username[0]` is `undefined` and the call throws while
  the page renders, so the whole page fails to render. The model has an
  explicit `Crashed` outcome for that (`Nearby.ShowNearby`,
  `MapView.RenderMap`).

## Model

| member | source | states |
|---|---|---|
| `Profiles.FriendIds` | app/dashboard/nearby/page.tsx:52 | one id per connection, same length, and the id at position i is the `friend_id` of connection i (the map page's line 59 does the same) |
| `Profiles.Located` | app/dashboard/nearby/page.tsx:60 | every friend the filter keeps has a truthy latitude and a truthy longitude (neither null nor 0) |
| `Profiles.LocatedCount` | app/dashboard/nearby/page.tsx:60 | the filter keeps each located friend exactly as often as it occurs in the input and drops every friend whose latitude or longitude is null or 0 |
| `Profiles.LocatedAppend` | app/dashboard/nearby/page.tsx:60 | the filter keeps input order: filtering a concatenation is concatenating the filtered parts |
| `Profiles.AvatarFallback` | app/dashboard/map/page.tsx:147 | `username[0].toUpperCase()` exists exactly when the username is non-empty (otherwise the indexing yields undefined and the call throws); it is one character, never a lower-case ASCII letter, the upper-case form of a lower-case first letter and the first character itself otherwise |
| `Nearby.WithDistances` | app/dashboard/nearby/page.tsx:61-69 | the map step keeps every friend's profile, all fields unchanged and in order, and gives entry i the distance from the viewer to friend i |
| `Nearby.Insert` | app/dashboard/nearby/page.tsx:70 | inserting into the sorted list adds exactly one entry and loses none |
| `Nearby.InsertSorted` | app/dashboard/nearby/page.tsx:70 | inserting into a list sorted by distance leaves it sorted |
| `Nearby.SortByDistance` | app/dashboard/nearby/page.tsx:70 | the sort with comparator `a.distance - b.distance` returns its input rearranged (same multiset) in non-decreasing order of distance |
| `Nearby.InsertAtDistance` | app/dashboard/nearby/page.tsx:70 | an inserted entry lands ahead of every entry it ties with and changes no other tie group |
| `Nearby.SortIsStable` | app/dashboard/nearby/page.tsx:70 | the sort is stable: for every distance d, the entries at distance d come out in the order they went in |
| `Nearby.StableSortUnique` | app/dashboard/nearby/page.tsx:70 | two lists that are both sorted by distance and have the same entries in the same order at every distance are equal, so a stable sort's result is fully determined by its input |
| `Nearby.Rank` | app/dashboard/nearby/page.tsx:59-70 | the ranking is sorted by non-decreasing distance, every entry has a known position, every entry's distance is the distance from the viewer to that friend, and its profiles are a permutation of the located friends: each appears as often as in the input, friends without a usable position never |
| `Nearby.RankIsStable` | app/dashboard/nearby/page.tsx:70 | friends at equal distance keep their roster order in the ranking |
| `Nearby.RankIsTheStableSort` | app/dashboard/nearby/page.tsx:59-70 | any list that is sorted by distance and keeps tied friends in roster order is the ranking, so identical input always gives identical output, ties included |
| `Nearby.RankSkipsUnlocated` | app/dashboard/nearby/page.tsx:59-70 | friends A (located), B (no position) and C (located, farther than A) rank as exactly A then C |
| `Nearby.ShowNearby` | app/dashboard/nearby/page.tsx:81-115 | the page shows the spinner exactly while loading, the "No friends nearby at the moment" card exactly when loaded with an empty list, fails to render exactly when loaded with a listed friend whose username is empty, and otherwise the list itself, every entry with its avatar letter |
| `Nearby.NearbyFriendsPage.constructor` | app/dashboard/nearby/page.tsx:24-25 | the page starts with an empty list and the spinner up |
| `Nearby.NearbyFriendsPage.FetchNearbyFriends` | app/dashboard/nearby/page.tsx:28-77 | with no authenticated user nothing changes and `loading` stays as it was; a viewer with no profile or a null or 0 coordinate clears `loading` and leaves the list as it was; otherwise `loading` is cleared and the list becomes the ranking of the friend profiles fetched for the viewer's accepted connections, or stays as it was when either query returned null |
| `Nearby.Mount` | app/dashboard/nearby/page.tsx:27-125 | after the mount effect the spinner is up exactly when no user is authenticated; with no user or an unlocated viewer the list is empty; the list shown is always sorted and located; for a located viewer it is the ranking of the fetched friend profiles, or empty when either query returned null; the screen is what the page renders from that state |
| `MapView.ViewerMarker` | app/dashboard/map/page.tsx:99-105 | the "You are here" pin exists exactly when the viewer's profile is loaded and both of its coordinates are non-null and non-zero, and then it stands at those coordinates |
| `MapView.FriendMarkers` | app/dashboard/map/page.tsx:106-128 | the friend pins are exactly the located friends, one each, in roster order, each at that friend's coordinates with that friend's id, name and avatar letter |
| `MapView.LocationLabel` | app/dashboard/map/page.tsx:152-159 | the label is "Location shared" exactly when both coordinates are truthy, and "Location not shared" otherwise |
| `MapView.Sidebar` | app/dashboard/map/page.tsx:142-169 | one card per friend, whatever the friend's location state, in roster order; card i is friend i's card, with that friend's id, name, avatar letter and a "Location shared" line exactly for the located friends, "Location not shared" otherwise |
| `MapView.MarkerKeysAreLocatedIds` | app/dashboard/map/page.tsx:106-110 | the pins carry the ids of the located friends, in roster order |
| `MapView.SharedKeysAreLocatedIds` | app/dashboard/map/page.tsx:152-158 | the cards that say "Location shared" are those of the located friends, in roster order |
| `MapView.LabelsAgreeWithMarkers` | app/dashboard/map/page.tsx:152-158 | the friends whose card says "Location shared" are exactly the friends that get a pin, in the same order |
| `MapView.NearbyRanksThePinnedFriends` | app/dashboard/map/page.tsx:107 | for the same roster, the nearby page ranks exactly the friends that the map pins, each as often |
| `MapView.RenderMap` | app/dashboard/map/page.tsx:88-169 | the loaded map page never shows the spinner: it fails to render exactly when some friend's username is empty (the sidebar evaluates every friend's avatar letter), and otherwise shows the viewer pin, exactly the friend pins and exactly the sidebar cards of that roster, each with its avatar letter |
| `MapView.NearbyCrashesOnlyWithMap` | app/dashboard/nearby/page.tsx:115 | for the same roster, if the nearby list fails to render on an empty username, so does the map page |
| `MapView.MapPage.constructor` | app/dashboard/map/page.tsx:31-33 | the map page starts with no friends, no viewer profile and the spinner up |
| `MapView.MapPage.FetchData` | app/dashboard/map/page.tsx:36-71 | with no authenticated user nothing changes and `loading` stays as it was; otherwise the viewer profile is replaced when its query returned a row, the friends are replaced when both the connections and the profiles query returned data, and `loading` is cleared |
| `MapView.MapPage.Render` | app/dashboard/map/page.tsx:78-173 | the page shows the spinner exactly while loading, and otherwise what `RenderMap` gives for its viewer profile and friends |
| `MapView.Mount` | app/dashboard/map/page.tsx:35-173 | after the mount effect and a render, the spinner is up exactly when no user is authenticated; otherwise the page crashes exactly when some fetched friend has an empty username, and else shows the viewer pin of the fetched profile, exactly the pins of the fetched friends, exactly their sidebar cards, and the "Location shared" cards and the pins name the same friends in the same order |

## Left out

- `calculateDistance` (app/dashboard/nearby/page.tsx:11-21): the haversine arithmetic (`Math.sin`, `Math.cos`, `Math.atan2`, `Math.sqrt`, radius 6371 km) is floating-point numerics; the model takes the distance function as a parameter and proves everything for an arbitrary one.
- Floating point: coordinates and distances are reals. `NaN` coordinates (also falsy in JavaScript) and `NaN` distances, for which the sort's comparator is inconsistent, are not modelled.
- The backing-store client (`createClient` in lib/supabase.ts:6, `auth.getUser`, `.from(...).select/eq/in/single`): network I/O through a library that is not shown. Its answers are parameters; the filters the store applies (`user_id`, `status = 'accepted'`, `id in ids`) and the order in which it returns rows are not modelled.
- Asynchrony: the `await`s, the effect running after first render, a page unmounted while a fetch is in flight, and React's batching of state updates. Each fetch is modelled as one uninterrupted run.
- MapView.FriendMarkers and MapView.ViewerMarker: when a coordinate is exactly 0, the source's `latitude && longitude && <Marker/>` evaluates to the number 0, which React renders as a text node "0" instead of nothing; the model only captures that no pin is drawn.
- Rendering, beyond which screen each page shows (`Nearby.ShowNearby`, `MapView.RenderMap`): the JSX markup, the spinner markup, Leaflet's `MapContainer`, `TileLayer`, `Popup`, the `dynamic` imports, the `typeof window === 'undefined'` guard (app/dashboard/map/page.tsx:76), the "km away" text with `toFixed(1)`, the `avatar_url || undefined` image source and the links to the chat page.
- Profiles.AvatarFallback: models `toUpperCase` for the ASCII letters only; other characters are returned unchanged, whereas JavaScript also upper-cases non-ASCII letters and may return more than one character (for example for "ß"). It also takes the first Unicode scalar of the username, whereas JavaScript's `username[0]` is the first UTF-16 code unit: for a username starting with a character outside the Basic Multilingual Plane, such as an emoji, JavaScript yields a lone surrogate and the model yields the whole character.
- The chat page (app/dashboard/chat/[friendId]/page.tsx), message sending, live subscriptions, merging of pushed rows and teardown: the chat page is not part of this model.
- app/page.tsx: a static landing page with no logic.
