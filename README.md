# Trip planner sidebar: preferences, itinerary list and directions, in Dafny

This project models three browser components of the trip planner:

- **The user preference store** (`CAC.User.Preferences`). It is a page-lifetime dictionary from preference names to the text `JSON.stringify` makes of each value.
  - `getPreference` parses the stored text. It may replace a falsy value with the built-in default and write that default back.
  - `setLocation` and `clearLocation` write a location together with its `…Text` twin.
- **The itinerary list control** (`CAC.Control.ItineraryList`).
  - `setItineraries` keeps the backend's itineraries with duplicates dropped, using `_.findWhere`.
  - `getItineraryById` indexes the kept list.
  - `showItineraries` calls `show(flag)` on each itinerary.
  - `show`, `hide` and `toggle` set the container's visibility.
- **The sidebar directions control** (`CAC.Control.SidebarDirections`).
  - It holds the origin and the destination, and marks missing ones as errors.
  - `planTrip` turns the form into a trip-planning request and records the user's choices as preferences.
  - The typeahead and map-drag handlers update the origin or the destination.
  - `setFromUserPreferences` restores the sidebar from the saved preferences on the first load.

Files:

- `json.dfy` (module `Json`): JavaScript values.
  - Truthiness, and property reads that throw on `undefined` and `null`.
  - `JSON.stringify` and `JSON.parse` over a token-level JSON text, with the round trip proved: parsing the text of `v` gives `v` with nested `undefined` normalised away.
- `user_preferences.dfy` (module `UserPreferences`): the store.
  - A `Store` class over a `map` field.
  - The functions `ReadPreference` and `SetAll` that specify its methods.
  - The defaults table.
- `itinerary_list.dfy` (module `ItineraryList`): itineraries as objects with a mutable `shown` flag, and the list `Control` class.
- `sidebar_directions.dfy` (module `SidebarDirections`):
  - the pure decision `Plan` behind `planTrip`;
  - the read sequence `ReadAll` behind `setFromUserPreferences`;
  - the `Control` class, which holds a `Store` and an itinerary list `Control` and updates them through their methods.
- `wrappers.dfy`: `Option` and `Result`.

Each method is specified against a function on the old state. The properties the code relies on are proved about those functions as lemmas. These include:

- the JSON round trip;
- reading back what was set;
- defaults;
- idempotent reads;
- the frames of `setLocation` and `clearLocation`;
- deduplication;
- which preferences `planTrip` saves, and what they read back as.

## Model

| member | source | states |
|---|---|---|
| Json.Prop | src/app/scripts/cac/control/cac-control-sidebar-directions.js:315 | A property read throws exactly when the object is `undefined` or `null`. |
| Json.Lookup | src/app/scripts/cac/control/cac-control-sidebar-directions.js:461-462 | A defined property value is the value of a member with that key; with no member of that key the property is `undefined`. |
| Json.LookupLastWins | src/app/scripts/cac/control/cac-control-sidebar-directions.js:461-462 | Of several members with the same key, as `JSON.parse` may produce, the last one gives the property's value. |
| Json.Stringify | src/app/scripts/cac/user/cac-user-preferences.js:97-99 | `JSON.stringify` has no text exactly for `undefined`; every other value gets a non-empty (hence truthy) text. |
| Json.Write | src/app/scripts/cac/user/cac-user-preferences.js:98 | Every written text is non-empty and starts with a token that can begin a value. |
| Json.Parse | src/app/scripts/cac/user/cac-user-preferences.js:77 | `JSON.parse` rejects the empty text, and a value it accepts holds no `undefined` at any depth. |
| Json.ParseValue | src/app/scripts/cac/user/cac-user-preferences.js:77 | Parsing a value consumes a non-empty prefix of the text and returns the rest. |
| Json.ParseItems | src/app/scripts/cac/user/cac-user-preferences.js:77 | Parsing array elements consumes a non-empty prefix, through the closing bracket. |
| Json.ParseMembers | src/app/scripts/cac/user/cac-user-preferences.js:77 | Parsing object members consumes a non-empty prefix, through the closing brace. |
| Json.ParseValueClean | src/app/scripts/cac/user/cac-user-preferences.js:77 | A parsed value holds no `undefined`, at any depth. |
| Json.ParseItemsClean | src/app/scripts/cac/user/cac-user-preferences.js:77 | Parsed array elements hold no `undefined`. |
| Json.ParseMembersClean | src/app/scripts/cac/user/cac-user-preferences.js:77 | Parsed object members hold no `undefined`. |
| Json.Normalize | src/app/scripts/cac/user/cac-user-preferences.js:77 | What parsing gives back has no `undefined` in it. It is the value itself when that had none. It keeps the value's truthiness (`Truthy`, the test `if (v)` makes) and whether it is the empty string. |
| Json.NormalizeItems | src/app/scripts/cac/user/cac-user-preferences.js:77 | Array elements keep their number and position; each is normalised, so an `undefined` element becomes `null`. |
| Json.NormalizeMembers | src/app/scripts/cac/user/cac-user-preferences.js:77 | Object members never grow in number; the members kept hold no `undefined`, and with none to drop the members are unchanged. |
| Json.NormalizeMembersKept | src/app/scripts/cac/user/cac-user-preferences.js:77 | The members kept are exactly those not holding `undefined`, each with its value normalised, in their original order. |
| Json.ParseWrite | src/app/scripts/cac/user/cac-user-preferences.js:77 | Parsing the text of any value, followed by any text, yields the normalised value and leaves the following text unread. |
| Json.ParseWriteArray | src/app/scripts/cac/user/cac-user-preferences.js:77 | Parsing the text of an array yields the array of its normalised elements. |
| Json.ParseWriteObject | src/app/scripts/cac/user/cac-user-preferences.js:77 | Parsing the text of an object yields the object of its kept, normalised members. |
| Json.ParseWriteItems | src/app/scripts/cac/user/cac-user-preferences.js:77 | The same for the elements of an array up to its closing bracket. |
| Json.ParseWriteMembers | src/app/scripts/cac/user/cac-user-preferences.js:77 | The same for the members of an object up to its closing brace, whose text `WriteMembers` writes without the members holding `undefined`. |
| Json.ParseStringify | src/app/scripts/cac/user/cac-user-preferences.js:77-98 | `JSON.parse(JSON.stringify(v))` succeeds and yields the normalised `v` for every value other than `undefined`. |
| Json.StringifyRoundTrip | src/app/scripts/cac/user/cac-user-preferences.js:77-98 | On values without `undefined`, parsing undoes stringifying exactly. |
| Json.StringifyInjective | src/app/scripts/cac/user/cac-user-preferences.js:98 | Two values without `undefined` that have the same text are equal. |
| UserPreferences.Put | src/app/scripts/cac/user/cac-user-preferences.js:97-99 | `setPreference` stores the value's text under its name and changes no other entry. Every stored text stays parseable. |
| UserPreferences.PutTwice | src/app/scripts/cac/user/cac-user-preferences.js:97-99 | A second `setPreference` of the same name replaces the first. |
| UserPreferences.SetAll | src/app/scripts/cac/user/cac-user-preferences.js:17 | After a run of `setPreference` calls, the last call's name holds that call's text; no calls leave the table as it was. |
| UserPreferences.SetAllFrame | src/app/scripts/cac/user/cac-user-preferences.js:17 | A run of `setPreference` calls changes only the entries it names, and keeps every stored text parseable. |
| UserPreferences.SetAllShort | src/app/scripts/cac/user/cac-user-preferences.js:107-120 | One or two calls in a row, as `setLocation` and `clearLocation` make them, update the table in order. |
| UserPreferences.CityHallIsClean | src/app/scripts/cac/user/cac-user-preferences.js:22-42 | The City Hall default location holds no `undefined`, so it survives a JSON round trip unchanged. |
| UserPreferences.Default | src/app/scripts/cac/user/cac-user-preferences.js:44-57 | Every default other than `undefined` survives a JSON round trip unchanged. |
| UserPreferences.DefaultListed | src/app/scripts/cac/user/cac-user-preferences.js:44-57 | The defaults table gives a value exactly for its eleven listed names other than `destination`; every other name has `undefined`. |
| UserPreferences.Stored | src/app/scripts/cac/user/cac-user-preferences.js:75-78 | A missing entry, or one holding `undefined` (`Get` gives `None` for both), starts the read as `undefined`. |
| UserPreferences.TakesDefaultCases | src/app/scripts/cac/user/cac-user-preferences.js:81-84 | The guard case by case: with `setDefault` omitted or truthy the default is taken for every falsy value; with it falsy, only for the empty string. |
| UserPreferences.ReadPreference | src/app/scripts/cac/user/cac-user-preferences.js:74-89 | Reading keeps every stored text parseable. |
| UserPreferences.Store.constructor | src/app/scripts/cac/user/cac-user-preferences.js:15-19 | The store starts empty. |
| UserPreferences.Store.SetPreference | src/app/scripts/cac/user/cac-user-preferences.js:97-99 | The entry becomes `JSON.stringify(val)`, or `undefined` for `undefined`. Nothing else changes, and the store stays well formed. |
| UserPreferences.Store.GetPreference | src/app/scripts/cac/user/cac-user-preferences.js:74-89 | The value returned and the table afterwards are those of `ReadPreference`, with `setDefault` defaulting to true and the guard grouped as `(setDefault && !val) \|\| val === ''`. |
| UserPreferences.Store.SetLocation | src/app/scripts/cac/user/cac-user-preferences.js:107-114 | It writes the location, then its text: the `text` argument, or `location.name` when that is omitted. It throws after the first write when the location is `undefined` or `null` and no text is given. |
| UserPreferences.Store.ClearLocation | src/app/scripts/cac/user/cac-user-preferences.js:117-120 | It assigns `undefined` to the location and its text, in that order. |
| UserPreferences.LocationSettings | src/app/scripts/cac/user/cac-user-preferences.js:107-114 | `setLocation` writes the location first, then the twin with the text or else `location.name`; it stops after one write exactly when no text is given and the location is nullish. |
| UserPreferences.ClearSettings | src/app/scripts/cac/user/cac-user-preferences.js:117-120 | `clearLocation` writes `undefined` to exactly the location and its `…Text` twin. |
| UserPreferences.TextTwinDiffers | src/app/scripts/cac/user/cac-user-preferences.js:110-112 | A location name and its `…Text` twin are always different entries. |
| UserPreferences.ReadAfterSet | src/app/scripts/cac/user/cac-user-preferences.js:74-99 | After setting a truthy value, a read returns its normalised form and writes nothing. For a value without `undefined`, it returns the value itself. |
| UserPreferences.UnsetReadsDefault | src/app/scripts/cac/user/cac-user-preferences.js:80-87 | With the default wanted, an unset entry reads as its default, and the default's text is written back. |
| UserPreferences.UnsetWithoutDefault | src/app/scripts/cac/user/cac-user-preferences.js:71-88 | With `setDefault === false`, an unset entry reads as `undefined` and the table is unchanged. |
| UserPreferences.EmptyStringReplaced | src/app/scripts/cac/user/cac-user-preferences.js:83-87 | A stored empty string reads as the default and is overwritten by it, whatever `setDefault` says. |
| UserPreferences.FalsyReadsAsDefault | src/app/scripts/cac/user/cac-user-preferences.js:84-87 | Falsy values (`false`, `0`, `''`, `null`) do not round-trip: with the default wanted they read as the default. |
| UserPreferences.MaxWalkZeroReadsTwo | src/app/scripts/cac/user/cac-user-preferences.js:48 | A saved walking cap of 0 reads back as the default of 2 miles. |
| UserPreferences.ReadTwice | src/app/scripts/cac/user/cac-user-preferences.js:74-89 | Reading is idempotent: a second read returns the same value and changes nothing. |
| UserPreferences.SetLocationWrites | src/app/scripts/cac/user/cac-user-preferences.js:107-114 | It describes what `setLocation` leaves behind. The location's entry is its text. The twin holds the text given, or else the location's name. It throws exactly when no text is given and the location is nullish. Every other entry is untouched. |
| UserPreferences.ClearThenRead | src/app/scripts/cac/user/cac-user-preferences.js:117-120 | After `clearLocation(key)`, reads of `key` and of `key + 'Text'` return their defaults. |
| ItineraryList.Itinerary.constructor | src/app/scripts/cac/control/cac-control-itinerary-list.js:151-155 | An itinerary has fixed properties and a mutable shown flag. |
| ItineraryList.FindWhere | src/app/scripts/cac/control/cac-control-itinerary-list.js:65 | `_.findWhere` returns a listed entry that has all the candidate's properties with equal values. It returns "not found" exactly when no listed entry does. |
| ItineraryList.MatchesProperties | src/app/scripts/cac/control/cac-control-itinerary-list.js:65 | A match needs every property of the candidate; itineraries with the same properties match, and a candidate without properties matches every itinerary. |
| ItineraryList.MatchesItself | src/app/scripts/cac/control/cac-control-itinerary-list.js:65 | Every itinerary matches itself, so it is never appended to a list that holds it. |
| ItineraryList.ScanGrows | src/app/scripts/cac/control/cac-control-itinerary-list.js:64-68 | Each loop step keeps the list built so far and at most appends the visited item. |
| ItineraryList.Deduplicated | src/app/scripts/cac/control/cac-control-itinerary-list.js:54-68 | The stored list is empty exactly for empty input, is otherwise led by the first input, and is no longer than the input. |
| ItineraryList.ScanShape | src/app/scripts/cac/control/cac-control-itinerary-list.js:59-68 | After each loop step, the list is led by the first input. Its entries come from strictly increasing input positions, and none matches a later one. |
| ItineraryList.ScanOrigins | src/app/scripts/cac/control/cac-control-itinerary-list.js:59-68 | Each kept entry is the input item at its recorded position. The positions increase and lie below the number of items visited. |
| ItineraryList.ScanDistinct | src/app/scripts/cac/control/cac-control-itinerary-list.js:64-68 | No kept entry matches a later kept entry. |
| ItineraryList.ScanCovers | src/app/scripts/cac/control/cac-control-itinerary-list.js:64-68 | Every visited input item is matched by some kept entry. |
| ItineraryList.DeduplicatedProperties | src/app/scripts/cac/control/cac-control-itinerary-list.js:54-68 | The stored list is empty exactly for empty input, and otherwise starts with the first input. It is an order-preserving subsequence of the input and no longer than it. No entry matches a later one, and every input item is matched. |
| ItineraryList.OrderedIndicesBound | src/app/scripts/cac/control/cac-control-itinerary-list.js:64-68 | Strictly increasing positions below n are at most n many, which bounds the stored list's length. |
| ItineraryList.Control.constructor | src/app/scripts/cac/control/cac-control-itinerary-list.js:28-35 | A new control has no itineraries and the given visibility. |
| ItineraryList.Control.SetItineraries | src/app/scripts/cac/control/cac-control-itinerary-list.js:54-68 | The previous list is discarded. The new list is the deduplicated input, built by the priming push and the loop. Visibility is unchanged. |
| ItineraryList.Control.GetItineraryById | src/app/scripts/cac/control/cac-control-itinerary-list.js:120-122 | It returns the entry at `id` exactly when `id` is a position of the list, and otherwise `undefined`. |
| ItineraryList.Control.ShowItineraries | src/app/scripts/cac/control/cac-control-itinerary-list.js:151-155 | Every listed itinerary ends with its shown flag equal to `flag`. |
| ItineraryList.Control.Show | src/app/scripts/cac/control/cac-control-itinerary-list.js:142-144 | The container is visible; the list is unchanged. |
| ItineraryList.Control.Hide | src/app/scripts/cac/control/cac-control-itinerary-list.js:157-159 | The container is hidden; the list is unchanged. |
| ItineraryList.Control.Toggle | src/app/scripts/cac/control/cac-control-itinerary-list.js:161-167 | Visibility flips; the list is unchanged. |
| ItineraryList.FindWhereAsWritten | src/app/scripts/cac/control/cac-control-itinerary-list.js:65 | As lodash evaluates it, `_.findWhere` yields the matching object or, exactly when nothing matches, `undefined`. |
| ItineraryList.ScanAsWrittenKeepsFirst | src/app/scripts/cac/control/cac-control-itinerary-list.js:59-68 | As written (`ScanAsWritten`), `=== null` never holds (`IsNull` is false for an object and for `undefined`), so the loop keeps only the priming item. |
| ItineraryList.AsWrittenDropsDistinct | src/app/scripts/cac/control/cac-control-itinerary-list.js:59-68 | Two itineraries that do not match: as written the second is dropped, while the intended deduplication keeps both. |
| SidebarDirections.PrefKey | src/app/scripts/cac/control/cac-control-sidebar-directions.js:296 | A direction key is saved under `from` or `to`. |
| SidebarDirections.PrefNamesDisjoint | src/app/scripts/cac/control/cac-control-sidebar-directions.js:296-298 | Origin and destination are saved under four distinct preference names, so clearing one never touches the other. |
| SidebarDirections.IndexOf | src/app/scripts/cac/control/cac-control-sidebar-directions.js:162 | `indexOf` is -1 exactly when the pattern occurs nowhere. Otherwise it is the first position where the pattern occurs. |
| SidebarDirections.IndexFrom | src/app/scripts/cac/control/cac-control-sidebar-directions.js:162 | The same search, started at a given position. |
| SidebarDirections.BicycleModes | src/app/scripts/cac/control/cac-control-sidebar-directions.js:162 | "BICYCLE" and "TRANSIT,BICYCLE" take the bike branch. "WALK" and "TRANSIT,WALK" do not. |
| SidebarDirections.CoordsOf | src/app/scripts/cac/control/cac-control-sidebar-directions.js:315 | `[geometry.y, geometry.x]` is a truthy pair. Reading it throws exactly when the location, its `feature` or the feature's `geometry` is `undefined` or `null`. |
| SidebarDirections.CoordsOfGeocoded | src/app/scripts/cac/control/cac-control-sidebar-directions.js:313-315 | A geocoder result's coordinates come out as `[y, x]`, and its name is the text saved. |
| SidebarDirections.SavedCoords | src/app/scripts/cac/control/cac-control-sidebar-directions.js:461-469 | Saved coordinates are loaded exactly when `v && v.feature && v.feature.geometry` holds. They then equal the coordinates the typeahead would compute. |
| SidebarDirections.BikeOptions | src/app/scripts/cac/control/cac-control-sidebar-directions.js:162-170 | The bike branch keeps mode, `arriveBy` and the absent wheelchair flag, sets triangle optimisation and a walking cap, and saves only `bikeTriangle`. |
| SidebarDirections.WalkOptions | src/app/scripts/cac/control/cac-control-sidebar-directions.js:171-184 | The other branch keeps mode, `arriveBy` and the optimisation, sends a walking cap when the input is non-empty, and saves `maxWalk` and `wheelchair`. |
| SidebarDirections.ModeOptions | src/app/scripts/cac/control/cac-control-sidebar-directions.js:162-184 | The options keep mode and `arriveBy`, and request an optimisation exactly for modes naming BICYCLE. |
| SidebarDirections.CommonSettings | src/app/scripts/cac/control/cac-control-sidebar-directions.js:187-189 | Every request saves `method`, `mode` and `arriveBy`, three calls. |
| SidebarDirections.Plan | src/app/scripts/cac/control/cac-control-sidebar-directions.js:124-189 | A request is made exactly outside the initial load, with the directions tab showing and both endpoints truthy; without a request nothing is saved. |
| SidebarDirections.PlanInert | src/app/scripts/cac/control/cac-control-sidebar-directions.js:125-127 | During the initial load, or with another tab showing, nothing is requested or saved. |
| SidebarDirections.PlanNeedsEndpoints | src/app/scripts/cac/control/cac-control-sidebar-directions.js:129-133 | A request is made exactly when both endpoints are truthy. Otherwise nothing is saved. |
| SidebarDirections.PlanRequestBase | src/app/scripts/cac/control/cac-control-sidebar-directions.js:140-160 | A request goes from the held origin to the held destination, with the selected mode. `arriveBy` is set exactly when "arriveBy" is selected. The date is the picker's, or the current time. The last three preferences saved are method "directions", mode and arriveBy. |
| SidebarDirections.PlanBicycle | src/app/scripts/cac/control/cac-control-sidebar-directions.js:162-170 | Bike modes request triangle optimisation with the chosen weights and a 482802-meter walking cap. They send no wheelchair flag and save only the triangle before the common settings. |
| SidebarDirections.PlanWalking | src/app/scripts/cac/control/cac-control-sidebar-directions.js:171-184 | Other modes send a walking cap exactly when the input is non-empty. They always send and save the wheelchair flag. They save the input, or clear the saved cap when the input is empty. |
| SidebarDirections.PlanWalkingSavesMaxWalk | src/app/scripts/cac/control/cac-control-sidebar-directions.js:172-178 | After a walking request, a read of `maxWalk` returns the input's text. After an empty input it returns the default of 2. |
| SidebarDirections.LastWriteSurvives | src/app/scripts/cac/control/cac-control-sidebar-directions.js:174-189 | An entry that no later save names keeps the value of the save that wrote it. |
| SidebarDirections.ReadSameEntry | src/app/scripts/cac/user/cac-user-preferences.js:74-89 | A read depends only on the entry it reads. |
| SidebarDirections.SetAllAppend | src/app/scripts/cac/control/cac-control-sidebar-directions.js:162-189 | Saving two runs of preferences leaves the table the second run leaves after the first. |
| SidebarDirections.SelectedPlacesArePlanned | src/app/scripts/cac/control/cac-control-sidebar-directions.js:313-317 | After geocoded places are selected for both inputs, the next trip plan requests a trip between their coordinates. |
| SidebarDirections.ReadAll | src/app/scripts/cac/control/cac-control-sidebar-directions.js:434-443 | Reading a list of names gives one value per name, and every stored text stays parseable. |
| SidebarDirections.ReadAllFrame | src/app/scripts/cac/control/cac-control-sidebar-directions.js:434-443 | Reads leave every entry whose name is not read as it was. |
| SidebarDirections.FreshLoad | src/app/scripts/cac/control/cac-control-sidebar-directions.js:434-480 | On an empty table, `method` reads as "explore" and `from` and `to` read as `undefined`. So nothing is loaded into the directions, and the directions tab is not opened. |
| SidebarDirections.LoadNamesFirstReads | src/app/scripts/cac/control/cac-control-sidebar-directions.js:434-439 | `method`, `from` and `to` are read before any repeat of their names. |
| SidebarDirections.ReadAllFirstRead | src/app/scripts/cac/control/cac-control-sidebar-directions.js:434-443 | A name read for the first time reads what the original table holds. |
| SidebarDirections.ReadAllAppend | src/app/scripts/cac/control/cac-control-sidebar-directions.js:434-443 | Reading two runs of names reads the second run from the table the first run leaves. |
| SidebarDirections.ReadAllPrefix | src/app/scripts/cac/control/cac-control-sidebar-directions.js:434-443 | Reading more names keeps the values read for the earlier ones. |
| SidebarDirections.Control.constructor | src/app/scripts/cac/control/cac-control-sidebar-directions.js:44-56 | A new control has `null` origin and destination and is in its initial load. It is the module's initial state; the source constructor then calls `setFromUserPreferences()` (line 107), so this constructor followed by `Control.SetFromUserPreferences` stands for `new SidebarDirectionsControl(...)`. |
| SidebarDirections.Control.Entry | src/app/scripts/cac/control/cac-control-sidebar-directions.js:423 | `directions[key]` is `undefined` for a key other than `origin` and `destination`. |
| SidebarDirections.Control.SetDirectionsError | src/app/scripts/cac/control/cac-control-sidebar-directions.js:415-428 | The origin input is marked for "origin", and the destination input for any other key. The mark is set exactly when the entry is falsy. |
| SidebarDirections.Control.ClearItineraries | src/app/scripts/cac/control/cac-control-sidebar-directions.js:240-245 | The itinerary list is hidden and its contents kept. |
| SidebarDirections.Control.SetDirections | src/app/scripts/cac/control/cac-control-sidebar-directions.js:405-413 | The results are hidden. The entry and its error mark are set for "origin" or "destination". Any other key changes no direction. |
| SidebarDirections.Control.PlanTrip | src/app/scripts/cac/control/cac-control-sidebar-directions.js:124-189 | The outcome and the preferences saved, in order, are those of `Plan`. Missing endpoints mark both inputs. A request hides the itinerary list. The directions are unchanged. |
| SidebarDirections.Control.SaveBikeOptions | src/app/scripts/cac/control/cac-control-sidebar-directions.js:162-170 | The bike branch's options and saves are those of `BikeOptions`. |
| SidebarDirections.Control.SaveWalkOptions | src/app/scripts/cac/control/cac-control-sidebar-directions.js:171-184 | The other branch's options and saves are those of `WalkOptions`. |
| SidebarDirections.Control.SaveCommon | src/app/scripts/cac/control/cac-control-sidebar-directions.js:187-189 | It saves method, mode and arriveBy, in that order. |
| SidebarDirections.Control.SavePair | src/app/scripts/cac/control/cac-control-sidebar-directions.js:297-298 | It saves a location and then its text. |
| SidebarDirections.Control.OnTypeaheadCleared | src/app/scripts/cac/control/cac-control-sidebar-directions.js:291-300 | For one of the two keys, the results are hidden, the entry becomes `null`, and the saved location and its text are cleared. Any other key changes nothing. |
| SidebarDirections.Control.OnTypeaheadSelected | src/app/scripts/cac/control/cac-control-sidebar-directions.js:302-319 | A falsy location clears only the saved location and sets the entry to `null`. Otherwise it saves the location and its name, sets the entry to `[y, x]`, and reports that `planTrip` is called. It throws, after the saves, exactly when the coordinates cannot be read; then the directions, error marks and list visibility are unchanged. Whenever the entry is set, its input is marked exactly when the new entry is falsy. An unknown key changes nothing. |
| SidebarDirections.Control.MoveOriginDestination | src/app/scripts/cac/control/cac-control-sidebar-directions.js:327-338 | A key other than the two is rejected before anything changes. Otherwise the itinerary list is hidden. |
| SidebarDirections.Control.OnReverseGeocoded | src/app/scripts/cac/control/cac-control-sidebar-directions.js:340-364 | With an address, it saves the location and the full address, sets the entry to `[lat, lng]`, and reports that `planTrip` is called. Without one, it clears both saved entries, sets the entry to `null` and shows the list. Either way the entry's input is marked exactly when the new entry is falsy, and the other input's mark is kept. |
| SidebarDirections.Control.Load | src/app/scripts/cac/control/cac-control-sidebar-directions.js:434 | One more read extends the read sequence by one name and one value. |
| SidebarDirections.Control.ReadPair | src/app/scripts/cac/control/cac-control-sidebar-directions.js:434-435 | Two reads in a row give the values and table of `ReadAll` on the two names. |
| SidebarDirections.Control.ReadPreferences | src/app/scripts/cac/control/cac-control-sidebar-directions.js:434-443 | The ten reads, in source order, give the values and table of `ReadAll` on those names. |
| SidebarDirections.Control.SetFromUserPreferences | src/app/scripts/cac/control/cac-control-sidebar-directions.js:433-483 | The destination and origin are loaded from saved locations that have a geometry. The tab is switched exactly when the saved method is "directions". A trip is planned exactly when both saved locations are also truthy; otherwise the list is hidden. The initial load then ends. |

## Left out

- DOM and templating are not modelled. This covers `getTemplate`, `setItinerariesError`, the click and hover bindings, input values, the spinner and the results class. Form reads become fields of `Form`, and an input's error class becomes a boolean.
- `setFromUserPreferences` also reads `mode`, `arriveBy`, `bikeTriangle`, `fromText`, `toText`, `maxWalk` and `wheelchair`. Those values only populate form widgets. The reads themselves, including any default they write back, are modelled.
- Tab switching, the map control's marker and itinerary calls, and the routing backend are outside this model.
  - `planTrip` returns the `Request` it would send.
  - The asynchronous response handler (`setItineraries`, then `show`) is not modelled.
  - `SetFromUserPreferences` reports through `Loaded` whether it switches tab and calls `planTrip`. It does not run the call.
- The `_.throttle` timing of `planTrip` is not modelled. `PlanTrip` is one call the throttle lets through.
- `SetDirections` does not model the `console.error` on an unknown key. `MoveOriginDestination` does not model it either.
- The `Geocoder.reverse` call is not modelled. Its result `data` is a parameter of `OnReverseGeocoded`. The location `convertReverseGeocodeToFeature` builds from it is also a parameter, because that utility is not part of this model.
- Other handlers are not part of this model: `setDestination`, `changeMode`, the itinerary click and hover handlers, and `currentItinerary` highlighting.
- `WalkOptions` does not compute the walking cap in meters. It keeps the max-walk input text (`InputMiles`), because JavaScript's string-to-number coercion and `NaN` are not modelled.
- `Num` carries an exact `real`. IEEE rounding, `NaN`, `-0` and the spelling of numbers and strings in JSON text are not modelled.
- BikeOptions: keeps the triangle weights the bike mode options give in a separate `triangle` field. The source merges them key by key into the options object (`$.extend`, lines 165-166 of the sidebar directions control), so a weight named like another option would override it there. That merge is not modelled.
- FindWhere: compares property values with exact equality (`Matches`). The page uses lodash (`_.forIn`, line 201 of the sidebar directions control), and `_.findWhere` exists only in lodash 3 and earlier. There, nested arrays and objects match partially: a nested candidate value matches a kept value that contains it. Object identity and prototype properties are not modelled either.
- FindWhere: returns `None` for "not found", the value the comparison at line 65 of the itinerary list expects according to the comment at line 61. Lodash returns `undefined` there, so the comparison never holds as written; see "## Findings". `Control.SetItineraries` models the evidently intended deduplication.
- `ItineraryList.Control` and `SidebarDirections.Control` give each instance its own state. The source keeps `$container` and `itineraries` (lines 28-29 of the itinerary list control), and `directions` and `initialLoad` (lines 44-56 of the sidebar directions control), at module level, shared by every instance. So "a new control has no itineraries" and "a new control has `null` directions" hold in the source only for the first instance; the page creates one of each.
- `Value.Obj` keeps members in the order given. JavaScript lists integer-like keys first, which matters only for the order of `JSON.stringify` output and is not modelled.
- `GetItineraryById` takes an integer. The attribute string that the click handler passes is not modelled.
- Properties inherited through the prototype chain are not modelled. An example is `defaults['toString']`.
- OnTypeaheadSelected, OnReverseGeocoded: report the `planTrip()` call (lines 317 and 350 of the sidebar directions control) through `plan` and do not run it. `planTrip` is wrapped in `_.throttle`, so whether the call runs at once, later or merged with another depends on timing, which is not modelled. What the call does when it runs is `Control.PlanTrip`; `SelectedPlacesArePlanned` relates the two.
- `SetFromUserPreferences` models `clearDirections` only by its `clearItineraries` call. The marker reset is a map call.
- When the saved method is "directions", `setFromUserPreferences` calls `planTrip` while `initialLoad` is still true. As written, that call returns at once. The model reports the call (`Loaded.planTrip`) and ends the initial load afterwards, as the source does.

## Findings

| source | as written | input that shows it | evidently intended | confidence | as-written member | corrected member |
|---|---|---|---|---|---|---|
| src/app/scripts/cac/control/cac-control-itinerary-list.js:65 | `_.findWhere(itineraries, itinerary) === null` appends an itinerary only when the lookup yields `null`. Lodash's `_.findWhere` yields `undefined` when nothing matches, so the comparison never holds and only `newItineraries[0]` is kept. | Two itineraries `a`, `b` where `b` has a property `a` lacks or holds differently: the list becomes `[a]` | Append every itinerary no kept entry matches (the comment at lines 55-58): the list becomes `[a, b]` | not executed; medium: rests on the page loading lodash 3 or earlier (its `_.forIn` is used at line 201 of the sidebar directions control), whose build is not part of this model | ItineraryList.AsWrittenDropsDistinct | ItineraryList.DeduplicatedProperties |
