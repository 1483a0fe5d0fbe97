# HandsUpSOS core, modelled in Dafny

HandsUpSOS is an iOS safety app for campers. It keeps a list of campsites, emergency contacts and emergency warnings, and sends an SOS text message. This project models the app's logic:

- **Campsite record**: the `Campsite` record and its initialiser, which clamps the rating (`CampsiteModel`).
- **Campsite store**: the `CampsiteManager` store and its queries (`CampsiteStore`).
- **Campsite utilities**: the validator, formatters and aggregations (`CampsiteDataUtilities`).
- **List pipeline**: search, then category, then sort, plus the amenity icons of a row (`CampsiteListView`).
- **Nearby selection**: campsites near the user, best rated first (`NearbyResources`).
- **Warning service**: warning severities and the warning service (`EmergencyWarnings`).
- **Emergency contacts**: the emergency contact list (`EmergencyContacts`).
- **State mappings**: the selected Australian state and what it maps to (`StateSelection`).
- **Message builder**: the SOS message text (`EmergencyMessages`).

Three helper modules support these:

- `Options`: an optional value.
- `Sequences`: order-preserving filtering, unions, selecting by flags, removal at offsets and insertion sort.
- `Text`: ASCII case folding, trimming, splitting, joining and lexicographic order.

How the Swift code maps to Dafny:

- **Objects changed in place become classes.** `CampsiteManager`, `ContactHelper`, `EmergencyWarningService` and `StateManager` are classes. Their arrays are `seq` fields that the methods reassign.
- **Step-by-step code becomes methods with loops.** This covers the local `var` appends, the loops that build sets and the sort. Each method is proved against a function that specifies it.
- **Expressions become functions.** Filters, switches and string assembly are functions with lemmas about them.
- **Things the code gets from outside become parameters.** Distance is an uninterpreted `dist` function; the current time, identifiers and the formatted time are plain values.

## Model

| member | source | states |
|---|---|---|
| CampsiteModel.ClampRating | HandsUpSOS/HandsUpSOS/CampsiteModel.swift:20 | the stored rating lies in 1..5; a rating already in 1..5 is kept, above 5 becomes 5, below 1 becomes 1 |
| CampsiteModel.NewCampsite | HandsUpSOS/HandsUpSOS/CampsiteModel.swift:15-23 | name, location, notes and category are stored as given; id and date are the supplied ones; the rating is in 1..5 and unchanged when already valid; photos start empty |
| CampsiteModel.NewCampsiteDefaults | HandsUpSOS/HandsUpSOS/CampsiteModel.swift:15 | omitted arguments give notes "", category bush camping and rating 3 |
| CampsiteModel.NewCampsiteClampsRating | HandsUpSOS/HandsUpSOS/CampsiteModel.swift:20 | the initialiser stores 5 for ratings above 5 and 1 for ratings below 1 |
| CampsiteModel.CategoriesAreSixWithDistinctLabels | HandsUpSOS/HandsUpSOS/CampsiteModel.swift:26-32 | `allCases` lists six distinct categories, every category is among them, and two categories with the same raw value are the same |
| CampsiteStore.NarrowBy | HandsUpSOS/HandsUpSOS/CampsiteManager.swift:76-78 | one `if let` step leaves `matches` true exactly when it was true and the flag agrees with the criterion (or there is none) |
| CampsiteStore.MatchAmenities | HandsUpSOS/HandsUpSOS/CampsiteManager.swift:73-99 | the closure's seven narrowing steps return true exactly when every given criterion equals the campsite's flag |
| CampsiteStore.AmenityFilterSpec | HandsUpSOS/HandsUpSOS/CampsiteManager.swift:72-100 | the amenity filter is an order-preserving subsequence holding exactly the matching campsites; with all criteria nil it returns the whole list |
| CampsiteStore.FirstIndexWithId | HandsUpSOS/HandsUpSOS/CampsiteManager.swift:27 | `firstIndex(where:)` is none exactly when no element has the id, and otherwise the smallest position holding it |
| CampsiteStore.CampsiteManager.constructor | HandsUpSOS/HandsUpSOS/CampsiteManager.swift:10-17 | the list is the loaded one, or empty when nothing was stored (sample data stays disabled) |
| CampsiteStore.CampsiteManager.AddCampsite | HandsUpSOS/HandsUpSOS/CampsiteManager.swift:21-24 | the new list is the old list with the campsite appended |
| CampsiteStore.CampsiteManager.UpdateCampsite | HandsUpSOS/HandsUpSOS/CampsiteManager.swift:26-31 | only the first element with the same id is replaced; length and every other position are kept; no id match means no change |
| CampsiteStore.CampsiteManager.DeleteCampsite | HandsUpSOS/HandsUpSOS/CampsiteManager.swift:33-36 | no element with the id remains, all others remain in their original order, and an absent id changes nothing |
| CampsiteStore.CampsiteManager.DeleteCampsites | HandsUpSOS/HandsUpSOS/CampsiteManager.swift:38-41 | exactly the given valid positions are removed, survivors keep their order, and the length drops by the number of offsets |
| CampsiteStore.CampsiteManager.SearchCampsites | HandsUpSOS/HandsUpSOS/CampsiteManager.swift:45-56 | an empty query returns the list; otherwise an order-preserving subsequence of exactly the campsites whose name, notes, category label or address contains the query ignoring case |
| CampsiteStore.CampsiteManager.FilterCampsites | HandsUpSOS/HandsUpSOS/CampsiteManager.swift:58-61 | nil returns the list; a category keeps exactly that category's campsites, in order |
| CampsiteStore.CampsiteManager.GetCampsitesNearby | HandsUpSOS/HandsUpSOS/CampsiteManager.swift:63-68 | keeps, in order, exactly the campsites at distance at most the radius (inclusive) |
| CampsiteStore.CampsiteManager.FilterCampsitesByAmenities | HandsUpSOS/HandsUpSOS/CampsiteManager.swift:72-100 | the loop over the campsites keeps exactly those whose flags agree with every given criterion, in order; all-nil keeps everything |
| CampsiteStore.CampsiteManager.FilterCampsitesByAccessibility | HandsUpSOS/HandsUpSOS/CampsiteManager.swift:102-104 | keeps, in order, exactly the campsites whose accessibility equals the argument |
| CampsiteStore.CampsiteManager.FilterCampsitesByCellReception | HandsUpSOS/HandsUpSOS/CampsiteManager.swift:106-108 | keeps, in order, exactly the campsites with that reception level |
| CampsiteStore.CampsiteManager.FilterCampsitesByCampingType | HandsUpSOS/HandsUpSOS/CampsiteManager.swift:110-112 | keeps, in order, exactly the campsites of that camping type |
| CampsiteStore.CampsiteManager.FilterCampsitesBySeason | HandsUpSOS/HandsUpSOS/CampsiteManager.swift:114-116 | keeps, in order, exactly the campsites available in that season |
| CampsiteStore.CampsiteManager.FilterCampsitesByCost | HandsUpSOS/HandsUpSOS/CampsiteManager.swift:118-130 | `isFree` true keeps the campsites with cost "Free" or none, false keeps the rest, nil returns all; `maxCost` has no effect |
| CampsiteStore.CampsiteManager.GetCampsitesWithEmergencyInfo | HandsUpSOS/HandsUpSOS/CampsiteManager.swift:132-139 | keeps, in order, exactly the campsites with a contact, hospital, police station or non-empty emergency notes |
| CampsiteStore.CampsiteManager.GetCampsitesByAccessibilityFeatures | HandsUpSOS/HandsUpSOS/CampsiteManager.swift:141-143 | keeps, in order, exactly the accessible campsites |
| CampsiteStore.CostFiltersPartition | HandsUpSOS/HandsUpSOS/CampsiteManager.swift:118-130 | the free and non-free results together are a permutation of the list and share no campsite |
| CampsiteStore.DeleteUndoesAdd | HandsUpSOS/HandsUpSOS/CampsiteManager.swift:21-36 | deleting a campsite just added under a fresh id restores the previous list |
| CampsiteDataUtilities.ValidationErrors | HandsUpSOS/HandsUpSOS/CampsiteDataUtilities.swift:10-30 | each message appears at most once and in the order name, address, rating, occupancy; the list is empty exactly when the campsite is valid; each message appears exactly when its check fails |
| CampsiteDataUtilities.ValidateCampsiteData | HandsUpSOS/HandsUpSOS/CampsiteDataUtilities.swift:10-30 | the appending checks produce exactly those messages |
| CampsiteDataUtilities.NewCampsitePassesRatingCheck | HandsUpSOS/HandsUpSOS/CampsiteDataUtilities.swift:21-23 | a campsite built by the clamping initialiser never gets the rating error |
| CampsiteDataUtilities.AllAmenityTypesComplete | HandsUpSOS/HandsUpSOS/CampsiteDataUtilities.swift:172-179 | `AmenityType.allCases` lists every amenity type |
| CampsiteDataUtilities.AmenityEntriesDistinct | HandsUpSOS/HandsUpSOS/CampsiteDataUtilities.swift:49-55 | the seven amenity entries are pairwise distinct |
| CampsiteDataUtilities.AnyAmenityFlag | HandsUpSOS/HandsUpSOS/CampsiteListView.swift:281-284 | `hasAnyAmenities` holds exactly when one of the seven flags is set |
| CampsiteDataUtilities.AmenityList | HandsUpSOS/HandsUpSOS/CampsiteDataUtilities.swift:46-58 | at most seven entries, in flag order; empty exactly when no amenity is set; with distinct entries, each entry is listed once and exactly when its flag is set |
| CampsiteDataUtilities.AppendWhen | HandsUpSOS/HandsUpSOS/CampsiteDataUtilities.swift:49 | one conditional append adds the entry at the end exactly when the flag is set |
| CampsiteDataUtilities.FormatAmenities | HandsUpSOS/HandsUpSOS/CampsiteDataUtilities.swift:46-58 | the seven appends give one entry per set flag, in the order water, electricity, toilets, showers, fire pit, BBQ, parking |
| CampsiteDataUtilities.FormatAccessibilityInfo | HandsUpSOS/HandsUpSOS/CampsiteDataUtilities.swift:60-66 | one of the two fixed texts, the accessible one exactly when the campsite is accessible |
| CampsiteDataUtilities.EmergencyInfo | HandsUpSOS/HandsUpSOS/CampsiteDataUtilities.swift:68-88 | at most four lines in the order contact, hospital, police, notes; each line is present exactly when its detail is; empty exactly when the campsite has no emergency information |
| CampsiteDataUtilities.FormatEmergencyInfo | HandsUpSOS/HandsUpSOS/CampsiteDataUtilities.swift:68-88 | the four conditional appends produce exactly those lines |
| CampsiteDataUtilities.EmergencyInfoAgreesWithQuery | HandsUpSOS/HandsUpSOS/CampsiteManager.swift:132-139 | a stored campsite has emergency lines exactly when the store's emergency-info query returns it |
| CampsiteDataUtilities.SeasonLabels | HandsUpSOS/HandsUpSOS/CampsiteDataUtilities.swift:91 | the raw value of each season, position by position |
| CampsiteDataUtilities.SeasonLabelsInJoin | HandsUpSOS/HandsUpSOS/CampsiteDataUtilities.swift:91-92 | every season's label occurs in the prefixed comma-joined text |
| CampsiteDataUtilities.SeasonLabelsMembership | HandsUpSOS/HandsUpSOS/CampsiteDataUtilities.swift:91 | a season's label is among the listed labels exactly when the season is in the list |
| CampsiteDataUtilities.SeasonListReadsBack | HandsUpSOS/HandsUpSOS/CampsiteDataUtilities.swift:91-92 | splitting the text after the prefix at its commas and trimming gives back exactly the season labels, in order, and nothing for no seasons |
| CampsiteDataUtilities.FormatSeasonAvailability | HandsUpSOS/HandsUpSOS/CampsiteDataUtilities.swift:90-93 | the text starts with the "Available" prefix and names every available season; read back, it lists exactly the campsite's seasons in order, so a season is named in it if and only if the campsite is available then |
| CampsiteDataUtilities.LongTrimmedPartsSpec | HandsUpSOS/HandsUpSOS/CampsiteDataUtilities.swift:106-112 | every trimmed address component longer than two characters is collected, and nothing else is |
| CampsiteDataUtilities.SuggestionsOfSpec | HandsUpSOS/HandsUpSOS/CampsiteDataUtilities.swift:100-113 | each campsite's name, category label, camping-type label and long address parts are suggested, and every suggestion comes from some campsite |
| CampsiteDataUtilities.CollectSuggestions | HandsUpSOS/HandsUpSOS/CampsiteDataUtilities.swift:98-113 | the nested insertion loops build exactly that set |
| CampsiteDataUtilities.SortedElements | HandsUpSOS/HandsUpSOS/CampsiteDataUtilities.swift:115 | `Array(set).sorted()` holds exactly the set's strings, strictly ascending and without duplicates |
| CampsiteDataUtilities.GetSearchSuggestions | HandsUpSOS/HandsUpSOS/CampsiteDataUtilities.swift:97-116 | the suggestions are exactly the collected strings, strictly ascending (so duplicate-free) |
| CampsiteDataUtilities.FilterOptionsOfCategories | HandsUpSOS/HandsUpSOS/CampsiteDataUtilities.swift:123 | the available categories are exactly the categories of the campsites |
| CampsiteDataUtilities.FilterOptionsOfCampingTypes | HandsUpSOS/HandsUpSOS/CampsiteDataUtilities.swift:126 | the available camping types are exactly those of the campsites |
| CampsiteDataUtilities.FilterOptionsOfSeasons | HandsUpSOS/HandsUpSOS/CampsiteDataUtilities.swift:129 | the available seasons are exactly the seasons some campsite is available in |
| CampsiteDataUtilities.FilterOptionsOfAmenities | HandsUpSOS/HandsUpSOS/CampsiteDataUtilities.swift:132-138 | the available amenities are exactly those some campsite has |
| CampsiteDataUtilities.FilterOptionsOfCellReception | HandsUpSOS/HandsUpSOS/CampsiteDataUtilities.swift:141 | the available reception levels are exactly those of the campsites |
| CampsiteDataUtilities.NoCampsitesNoOptions | HandsUpSOS/HandsUpSOS/CampsiteDataUtilities.swift:163-170 | no campsites give all-empty sets and no accessible campsites |
| CampsiteDataUtilities.AmenityInserts | HandsUpSOS/HandsUpSOS/CampsiteDataUtilities.swift:132-138 | the seven conditional inserts add exactly the campsite's amenities |
| CampsiteDataUtilities.InsertAmenities | HandsUpSOS/HandsUpSOS/CampsiteDataUtilities.swift:132-138 | the amenity set grows by exactly the campsite's amenities |
| CampsiteDataUtilities.GetFilterOptions | HandsUpSOS/HandsUpSOS/CampsiteDataUtilities.swift:118-150 | the loop's options are the unions over all campsites, and `hasAccessibleCampsites` holds exactly when some campsite is accessible |
| CampsiteListView.OrderIsTotalPreorder | HandsUpSOS/HandsUpSOS/CampsiteListView.swift:31-40 | each of the four sort orders is transitive and total |
| CampsiteListView.SortCampsites | HandsUpSOS/HandsUpSOS/CampsiteListView.swift:31-40 | a permutation of its input, ordered by name ascending, date added or rating non-increasing, or category label ascending |
| CampsiteListView.SortedOrderMeaning | HandsUpSOS/HandsUpSOS/CampsiteListView.swift:31-40 | in a list sorted for an option, names and category labels never decrease and dates added and ratings never increase from front to back |
| CampsiteListView.DefaultListIsNewestFirst | HandsUpSOS/HandsUpSOS/CampsiteListView.swift:8 | with the sort option the screen opens with, the most recently added campsites come first |
| CampsiteListView.FilteredCampsites | HandsUpSOS/HandsUpSOS/CampsiteListView.swift:17-42 | result sorted by the chosen option and no longer than the store; with no search and no category a permutation of all campsites; with only search text a permutation of the matches; with a category exactly that category's campsites whatever the search text |
| CampsiteListView.GetAmenityIcons | HandsUpSOS/HandsUpSOS/CampsiteListView.swift:286-298 | the seven appends give one icon per set flag, in fixed order |
| CampsiteListView.AmenityIconsSpec | HandsUpSOS/HandsUpSOS/CampsiteListView.swift:281-298 | at most seven icons; non-empty exactly when `hasAnyAmenities`; each icon present exactly when its flag is set |
| CampsiteListView.IconsMatchAmenities | HandsUpSOS/HandsUpSOS/CampsiteListView.swift:286-298 | a row shows as many icons as `formatAmenities` lists entries: the number of set flags |
| NearbyResources.NearbyCampsites | HandsUpSOS/HandsUpSOS/NearbyResourcesSection.swift:8-21 | the nearby list is ordered by rating, non-increasing |
| NearbyResources.NearbyNeedsPermissionAndLocation | HandsUpSOS/HandsUpSOS/NearbyResourcesSection.swift:10-13 | without location permission, or without a current location, the list is empty |
| NearbyResources.NearbyWithinRadius | HandsUpSOS/HandsUpSOS/NearbyResourcesSection.swift:12-19 | with permission and a location, the list holds each campsite within 50 km (inclusive) as often as stored, and nothing else |
| NearbyResources.Displayed | HandsUpSOS/HandsUpSOS/NearbyResourcesSection.swift:38 | `prefix(3)`: the first min(3, n) campsites of the list |
| NearbyResources.DisplayedAreBestRated | HandsUpSOS/HandsUpSOS/NearbyResourcesSection.swift:20-38 | every displayed campsite is rated at least as high as every nearby campsite not displayed |
| EmergencyWarnings.WarningSeverity.Priority | HandsUpSOS/HandsUpSOS/EmergencyWarningService.swift:59-67 | priorities lie in 1..5 |
| EmergencyWarnings.SeverityOrderIsStrictTotal | HandsUpSOS/HandsUpSOS/EmergencyWarningService.swift:59-71 | priority is injective, so `<` is irreflexive, transitive and total on distinct severities |
| EmergencyWarnings.AtLeastSevere | HandsUpSOS/HandsUpSOS/EmergencyWarningService.swift:112 | `>= .severe` holds exactly for severe and critical |
| EmergencyWarnings.MockWarningsShape | HandsUpSOS/HandsUpSOS/EmergencyWarningService.swift:146-180 | three warnings, all issued now and expiring later, and only the first is critical |
| EmergencyWarnings.EmergencyWarningService.constructor | HandsUpSOS/HandsUpSOS/EmergencyWarningService.swift:85-88 | a new service holds the mock warnings, last updated now, not loading and with no error |
| EmergencyWarnings.EmergencyWarningService.LoadMockWarnings | HandsUpSOS/HandsUpSOS/EmergencyWarningService.swift:145-184 | the warnings are replaced wholesale by the three mock warnings, the update time is set, and the loading and error fields are unchanged |
| EmergencyWarnings.EmergencyWarningService.FetchEmergencyWarnings | HandsUpSOS/HandsUpSOS/EmergencyWarningService.swift:129-141 | afterwards the error is cleared, loading is false, the update time is set, and the warnings are untouched |
| EmergencyWarnings.EmergencyWarningService.GetCriticalWarnings | HandsUpSOS/HandsUpSOS/EmergencyWarningService.swift:111-113 | an order-preserving subsequence holding exactly the severe and critical warnings; empty exactly when there are none |
| EmergencyWarnings.EmergencyWarningService.GetWarningsForLocation | HandsUpSOS/HandsUpSOS/EmergencyWarningService.swift:102-109 | an order-preserving subsequence; warnings without coordinates are always kept, and others exactly when within 100 km (inclusive) |
| EmergencyWarnings.MockCriticalWarnings | HandsUpSOS/HandsUpSOS/EmergencyWarningService.swift:146-180 | with the mock warnings loaded, the critical query returns exactly the bushfire warning |
| EmergencyContacts.FirstPhonesSpec | HandsUpSOS/HandsUpSOS/ContactHelper.swift:56-60 | one number per contact that has a phone, in list order, and it is that contact's first phone |
| EmergencyContacts.RemoveUndoesAdd | HandsUpSOS/HandsUpSOS/ContactHelper.swift:15-37 | removing a contact just added under a fresh identifier restores the previous list |
| EmergencyContacts.ContactHelper.constructor | HandsUpSOS/HandsUpSOS/ContactHelper.swift:5-11 | a new helper has no contacts, is not loading and has no error |
| EmergencyContacts.ContactHelper.AddContact | HandsUpSOS/HandsUpSOS/ContactHelper.swift:13-33 | a listed identifier leaves the list and reports "already in emergency list" (checked first); otherwise no phone leaves the list and reports "no phone number"; otherwise the contact is appended and the error cleared; distinct identifiers are kept distinct |
| EmergencyContacts.ContactHelper.RemoveContact | HandsUpSOS/HandsUpSOS/ContactHelper.swift:35-40 | every entry with the identifier goes, all others stay in order |
| EmergencyContacts.ContactHelper.RemoveContactAt | HandsUpSOS/HandsUpSOS/ContactHelper.swift:42-47 | exactly the given positions are removed and the survivors keep their order |
| EmergencyContacts.ContactHelper.ClearAllContacts | HandsUpSOS/HandsUpSOS/ContactHelper.swift:49-54 | the list becomes empty and nothing else changes |
| EmergencyContacts.ContactHelper.GetPhoneNumbers | HandsUpSOS/HandsUpSOS/ContactHelper.swift:56-60 | the first phone of each contact that has one, in list order; never longer than the contact list |
| StateSelection.StatesDistinct | HandsUpSOS/HandsUpSOS/StateManager.swift:6-15 | the eight listed states are distinct |
| StateSelection.AbbreviationOfListed | HandsUpSOS/HandsUpSOS/StateManager.swift:30-38 | each listed state maps to its abbreviation |
| StateSelection.AbbreviationTable | HandsUpSOS/HandsUpSOS/StateManager.swift:29-41 | the abbreviation of the k-th listed state is the k-th abbreviation |
| StateSelection.AbbreviationsDistinct | HandsUpSOS/HandsUpSOS/StateManager.swift:30-38 | different listed states get different abbreviations |
| StateSelection.AbbreviationOfUnlisted | HandsUpSOS/HandsUpSOS/StateManager.swift:39 | an unlisted name is returned unchanged |
| StateSelection.FireServiceOfListed | HandsUpSOS/HandsUpSOS/StateManager.swift:45-53 | each listed state maps to its fire service |
| StateSelection.FireServiceTable | HandsUpSOS/HandsUpSOS/StateManager.swift:44-56 | the fire service of the k-th listed state is the k-th service |
| StateSelection.FireServicesDistinct | HandsUpSOS/HandsUpSOS/StateManager.swift:45-53 | different listed states get different fire services |
| StateSelection.GenericFireServiceIffUnlisted | HandsUpSOS/HandsUpSOS/StateManager.swift:44-56 | "State Fire Service" is returned exactly for unlisted names |
| StateSelection.StateManager.constructor | HandsUpSOS/HandsUpSOS/StateManager.swift:17-20 | the selected state is the saved one, or "Victoria" when nothing was saved |
| StateSelection.StateManager.UpdateState | HandsUpSOS/HandsUpSOS/StateManager.swift:22-26 | the selected state becomes exactly the argument, with no membership check |
| StateSelection.StateManager.AbbreviatedState | HandsUpSOS/HandsUpSOS/StateManager.swift:29-41 | a listed state gives its abbreviation and any other name is returned unchanged |
| StateSelection.StateManager.FireServiceName | HandsUpSOS/HandsUpSOS/StateManager.swift:44-56 | a listed state gives its own service, and the generic service is returned exactly for unlisted names |
| EmergencyMessages.DisplayName | HandsUpSOS/HandsUpSOS/EmergencyMessageBuilder.swift:5 | an empty name becomes "Emergency Contact"; any other name, even blank, is kept verbatim |
| EmergencyMessages.MessageParts | HandsUpSOS/HandsUpSOS/EmergencyMessageBuilder.swift:7-24 | the message is the detail lines, a blank line and the fixed instructions, joined by newlines |
| EmergencyMessages.MessageStartsWithHeader | HandsUpSOS/HandsUpSOS/EmergencyMessageBuilder.swift:8-9 | the message starts with the "EMERGENCY SOS" header and a blank line |
| EmergencyMessages.MessageEndsWithInstructions | HandsUpSOS/HandsUpSOS/EmergencyMessageBuilder.swift:16-23 | the message ends with a blank line and the fixed 000 instructions |
| EmergencyMessages.FixedLinesUnbroken | HandsUpSOS/HandsUpSOS/EmergencyMessageBuilder.swift:8-15 | the header, the labels and the default name hold no line break |
| EmergencyMessages.MessageSplitsIntoLines | HandsUpSOS/HandsUpSOS/EmergencyMessageBuilder.swift:7-16 | when no input holds a line break, the message's lines begin with: header, blank, emoji and title, template message, blank, "Person: " and the name, "Location: " and the location verbatim, "Time: " and the time, blank |
| EmergencyMessages.CreateMessage | HandsUpSOS/HandsUpSOS/EmergencyMessageBuilder.swift:4-27 | the message opens with the header and a blank line and closes with a blank line and the fixed instructions; when no input holds a line break, its lines begin with the detail lines, so the person line is exactly "Person: " and the name or the default, and the location line exactly "Location: " and the location |

## Left out

- Persistence through `UserDefaults` and JSON, with its silent `try?` failures, is I/O. The stores' constructors take the loaded value as an optional parameter, and saving is not modelled.
- Great-circle distance (`CLLocation.distance`) is floating point inside a platform library. Every distance query takes an uninterpreted `dist` function returning a `real` in kilometres.
- `formatDistance` is left out: it is floating-point number formatting on top of that distance.
- Timers, `Task`, `Task.sleep` and `refreshWarnings` are scheduling. `FetchEmergencyWarnings` models only the field values before and after one fetch, not the intermediate `isLoading == true` state.
- `DispatchQueue.main.async` deferrals in `ContactHelper` are treated as immediate, so the check-then-deferred-append race is not modelled.
- EmergencyContacts.ContactHelper.constructor: starts with an empty list, because `loadContacts` enumerates the platform contact store (together with the other contact-store and permission flows).
- Location permission and the current location are parameters of `NearbyCampsites`. The location helper itself is not part of this model.
- `localizedCaseInsensitiveContains` is modelled with ASCII case folding. Locale-aware folding and Unicode normalisation are not modelled.
- String `<` is modelled as lexicographic order on characters. Swift compares strings by Unicode canonical equivalence, which can differ for strings with combining marks.
- Character counts (such as `trimmed.count > 2`) count Dafny characters, not Swift grapheme clusters.
- `CellReceptionLevel`, `CampingType` and `Season` are declared in no file of the repository. The model gives them plain enums, with raw values taken from the names used elsewhere in the app.
- The extended `Campsite` initialiser used by the add-campsite form is not in the repository. `NewCampsite` models the five-argument initialiser; the fields it does not take start at the form's initial values.
- `Date()`, `UUID()` and the `DateFormatter` output are parameters: timestamps, identifiers and the time string.
- The mock warnings' `Calendar` offsets (6 hours, 3 hours, 3 days) are fixed numbers of seconds, so daylight-saving shifts are not modelled.
- The sample campsites are not modelled: they are disabled in the store's initialiser.
- Icons and colours on the enums are presentation metadata with no behaviour.
- CampsiteListView.SortCampsites: Swift's `sort` is not stable, so its order among equal keys is unspecified. The model sorts by insertion sort and promises only a sorted permutation, not one particular order of ties.
- NearbyResources.NearbyCampsites: same caveat for ties under `sorted`.
- EmergencyMessages.CreateMessage: states the line structure only for inputs without line breaks, and for the lines before the closing instructions; the instructions are stated as a suffix.
- EmergencyMessages.MessageSplitsIntoLines: states the lines before the closing instructions only. The instruction lines are proved as a suffix by `MessageEndsWithInstructions`.
- The multi-line string literal of `createMessage` is modelled as its lines joined by newlines, which is what Swift's indentation stripping produces.
- SwiftUI views, sheets and the remaining screens are interface code with no logic beyond the members above.
