# MediNearby: the search page and the chat assistant, in Dafny

MediNearby is a React page for finding doctors close to the user. The page subscribes to
the "doctors" collection and keeps four inputs: the catalog, a free-text query, a
specialty choice, and the user's coordinate. On every change it recomputes the result
list with `filterData`:

1. exact specialty filter;
2. case-insensitive substring filter over name, specialty and clinic;
3. distance to every record;
4. a 20 km radius;
5. a stable sort by distance.

The page also resolves the user's position, with a fixed fallback coordinate, and marks
the card whose id is the selected one.

A separate chat assistant component (`SmartChatbot`) receives a doctor list as its
`doctorsData` prop, empty by default. It answers each message through a fixed keyword
rule table over the lower-cased text. Its specialty rule lists doctors of that specialty
from the list it was given. Where the component is mounted, and which list it receives,
is not part of this model.

The project has seven modules:

- `Text`: JavaScript's `trim`, `toLowerCase` and `includes` on `seq<char>`, with their laws.
- `Seqs`: `filter` and `map` on sequences, the subsequence relation, and counting.
- `DistanceSort`:
  - the sort `(a, b) => a.distance - b.distance` over kilometres or `Infinity`, as an insertion sort;
  - proved to be a sorted, stable permutation.
- `Catalog`: the doctor record (`{ id: doc.id, ...doc.data() }`) with optional fields.
- `MediNearby`:
  - `filterData` as pure functions;
  - an independent one-pass reference definition (`Admitted`, `Kept`, `Nearby`), with lemmas connecting the two;
  - the monotonicity properties of the filters;
  - selection by id.
- `MediNearbyPage`:
  - the page state as a class whose handlers keep `filteredData` equal to `filterData()` of the current inputs;
  - `getUserLocation` with its three outcomes.
- `SmartChatbot`:
  - `handleQuery` as a specification function over a rule table, and a method with the source's loop proved equal to it;
  - lemmas on rule priority and on the specialty reply;
  - the chat window (`toggleChat`, `sendMessage`, quick actions) as a class.

The haversine distance is the parameter `dist: (Coord, real, real) -> real`. The general
properties assume nothing about it, so they hold for any distance function. Only the
worked example `MediNearby.TwoDoctorsExample` requires two facts, both true of the
haversine formula: the distance from a point to itself is 0, and the distance from
(10, 10) to (10.1, 10.1) is positive and at most 20 km (about 15.6 km).

## Model

| member | source | states |
|---|---|---|
| `Text.LeadingWhiteSpace` | src/pages/MediNearby.jsx:94 | the count is the length of the longest all-white-space prefix: every character before it is white space, and the one at it is not |
| `Text.IsWhiteSpace` | src/pages/MediNearby.jsx:94 | the characters `trim` strips: the ECMAScript WhiteSpace and LineTerminator code points |
| `Text.TrailingWhiteSpace` | src/components/SmartChatbot.jsx:33 | the count is the length of the longest all-white-space suffix |
| `Text.Trim` | src/components/SmartChatbot.jsx:32-33 | `trim`: the input with its leading and trailing white space removed; `TrimIsSlice`, `TrimEmptyIff` and `TrimIdempotent` state its properties |
| `Text.TrimIsSlice` | src/components/SmartChatbot.jsx:33 | `trim` returns a contiguous slice of its input; only white space lies outside the slice; a non-empty result starts and ends with a non-white character |
| `Text.TrimEmptyIff` | src/components/SmartChatbot.jsx:32 | `trim` returns the empty string exactly when every character is white space, the test behind `!input.trim()` and `searchQuery.trim()` |
| `Text.TrimIdempotent` | src/components/SmartChatbot.jsx:33 | trimming a trimmed string changes nothing |
| `Text.Lower` | src/pages/MediNearby.jsx:95 | `toLowerCase` keeps the length and maps each character independently |
| `Text.Includes` | src/pages/MediNearby.jsx:98-100 | `includes`: some position of the string starts the query; `IncludesIff` proves it equal to the occurrence definition `OccursAt` |
| `Text.OccursAtIncludes` | src/pages/MediNearby.jsx:98-100 | an occurrence of the query at any position makes `includes` true |
| `Text.IncludesIff` | src/pages/MediNearby.jsx:98-100 | `includes` holds exactly when the query occurs at some position (both directions) |
| `Text.IncludesTransitive` | src/pages/MediNearby.jsx:98-100 | containment is transitive |
| `Text.IncludesLower` | src/pages/MediNearby.jsx:95-100 | lower-casing both strings keeps an occurrence |
| `Text.IncludesKeepsNonBlank` | src/pages/MediNearby.jsx:94 | a string that contains a non-blank string is non-blank |
| `Catalog.FieldIncludes` | src/pages/MediNearby.jsx:98-100 | `field?.toLowerCase().includes(q)`: a missing field never matches, a present one matches when its lower-cased text contains `q` |
| `Seqs.Filter` | src/pages/MediNearby.jsx:92 | `filter` never lengthens, and every kept element passes the test |
| `Seqs.FilterMembers` | src/pages/MediNearby.jsx:96-101 | an element is in the filtered list exactly when it is in the input and passes the test |
| `Seqs.Map` | src/pages/MediNearby.jsx:106-112 | `map` keeps the length and applies the function at each index |
| `Seqs.FilterIsSubsequence` | src/pages/MediNearby.jsx:92 | filtering only deletes elements and keeps the order of the rest |
| `Seqs.SubsequenceTransitive` | src/pages/MediNearby.jsx:90-101 | chained filter steps still yield a subsequence of the input |
| `Seqs.SubsequenceBounded` | src/pages/MediNearby.jsx:90-101 | a subsequence is never longer, and holds each element at most as often |
| `Seqs.FilterFuse` | src/pages/MediNearby.jsx:91-101 | two consecutive filters equal one filter with the conjunction of the tests |
| `Seqs.FilterWeaker` | src/pages/MediNearby.jsx:96-101 | a weaker test keeps a supersequence of what a stronger one keeps |
| `Seqs.FilterMonotone` | src/pages/MediNearby.jsx:113 | filtering preserves the subsequence relation between inputs |
| `Seqs.MapMonotone` | src/pages/MediNearby.jsx:106-112 | mapping preserves the subsequence relation between inputs |
| `Seqs.FilterMap` | src/pages/MediNearby.jsx:105-113 | filtering after a map equals mapping after a filter with the composed test |
| `Seqs.FilterCount` | src/components/SmartChatbot.jsx:77-86 | the filtered list's length (`matched.length`) is the number of elements that pass |
| `Seqs.PrefixIsSubsequence` | src/components/SmartChatbot.jsx:82 | `slice(0, n)` yields a subsequence |
| `DistanceSort.DistLeTotalPreorder` | src/pages/MediNearby.jsx:114 | the comparator `a.distance - b.distance` orders distances as a total preorder; two distances that compare equal both ways are the same distance |
| `DistanceSort.DistLe` | src/pages/MediNearby.jsx:114 | the comparator `a.distance - b.distance` is not positive: `Infinity` after every distance, and `Infinity` against `Infinity` (NaN) counted as equal |
| `DistanceSort.Insert` | src/pages/MediNearby.jsx:114 | places an entry in front of the first entry that is not closer; `InsertPermutes`, `InsertSorted` and `InsertStable` state its properties |
| `DistanceSort.SortByDistance` | src/pages/MediNearby.jsx:114 | `.sort((a, b) => a.distance - b.distance)`; `SortPermutes`, `SortSorted` and `SortStable` prove it a sorted, stable permutation |
| `DistanceSort.AtDistance` | src/pages/MediNearby.jsx:114 | the entries picked out all have the given distance |
| `DistanceSort.InsertPermutes` | src/pages/MediNearby.jsx:114 | inserting adds exactly one entry and loses none |
| `DistanceSort.InsertSorted` | src/pages/MediNearby.jsx:114 | inserting into a sorted list keeps it sorted |
| `DistanceSort.InsertStable` | src/pages/MediNearby.jsx:114 | an inserted entry goes in front of all entries already at its distance, so inserting from the back keeps equal-distance entries in their original order |
| `DistanceSort.SortPermutes` | src/pages/MediNearby.jsx:114 | the sort is a permutation (same multiset, same length) |
| `DistanceSort.SortSorted` | src/pages/MediNearby.jsx:114 | the sort yields non-decreasing distances |
| `DistanceSort.SortStable` | src/pages/MediNearby.jsx:114 | entries at equal distance keep their relative order, as `Array.prototype.sort` guarantees |
| `MediNearby.BySpecialty` | src/pages/MediNearby.jsx:91-93 | "All Specialties" leaves the list unchanged; otherwise every kept record's specialty equals the choice exactly |
| `MediNearby.ByQuery` | src/pages/MediNearby.jsx:94-102 | a blank query leaves the list unchanged; otherwise every kept record's lower-cased name, specialty or clinic contains the lower-cased query |
| `MediNearby.FilterStepsKeepOrder` | src/pages/MediNearby.jsx:90-102 | both filter steps return subsequences of their input: nothing is added and catalog order is kept |
| `MediNearby.FilteredIsAdmitted` | src/pages/MediNearby.jsx:89-102 | the two filter steps together equal one pass over the catalog with the reference test `Admitted` |
| `MediNearby.LocatedIsSortedNearby` | src/pages/MediNearby.jsx:103-115 | with a known location, the result is the distance sort of the reference list `Nearby`: every record that is admitted, has truthy coordinates and lies within 20 km, with its distance, in catalog order |
| `MediNearby.NoLocationKeepsCatalogOrder` | src/pages/MediNearby.jsx:103 | without a location, the result is exactly the admitted records, in catalog order, with no distance field |
| `MediNearby.Truthy` | src/pages/MediNearby.jsx:109 | a numeric field is truthy when present and not 0 |
| `MediNearby.HasCoordinates` | src/pages/MediNearby.jsx:109 | `d.lat && d.lng`: both coordinates truthy |
| `MediNearby.DistanceTo` | src/pages/MediNearby.jsx:108-111 | the distance of a record: `dist` of its coordinates when both are truthy, otherwise `Infinity` |
| `MediNearby.WithinRadius` | src/pages/MediNearby.jsx:113 | `d.distance <= 20`; `Infinity` fails it |
| `MediNearby.SpecialtyIs` | src/pages/MediNearby.jsx:92 | `d.specialty === selectedSpecialty`: a missing specialty never equals the choice |
| `MediNearby.MatchesQuery` | src/pages/MediNearby.jsx:96-101 | the name, specialty or clinic contains the lower-cased query; a missing field never matches |
| `MediNearby.ByLocation` | src/pages/MediNearby.jsx:103-115 | without a location the list is passed through; with one, each record gets its distance, those within 20 km are kept, and they are sorted; `LocatedIsSortedNearby` and `ByLocationMonotone` state its properties |
| `MediNearby.FilterData` | src/pages/MediNearby.jsx:89-117 | `filterData()`, the three steps in order; `FilteredIsAdmitted`, `LocatedIsSortedNearby`, `LocatedMembership`, `LocatedWithinRadiusAndSorted` and `LocatedIsStablePermutation` relate it to the reference definitions |
| `MediNearby.NearbyEntry` | src/pages/MediNearby.jsx:105-113 | each entry of the reference list is a catalog record that passes `Kept`, carrying its own distance |
| `MediNearby.SortedNearbyEntries` | src/pages/MediNearby.jsx:105-114 | each entry of the sorted reference list is a kept catalog record with its distance, and distances do not decrease |
| `MediNearby.LocatedWithinRadiusAndSorted` | src/pages/MediNearby.jsx:103-115 | with a location, every result entry is an admitted catalog record with truthy coordinates whose distance, at most 20 km, is attached; entries are in non-decreasing distance order |
| `MediNearby.LocatedIsStablePermutation` | src/pages/MediNearby.jsx:105-114 | with a location, the result holds exactly the kept records as often as the catalog does, and records at equal distance stay in catalog order |
| `MediNearby.SortedNearbyMembership` | src/pages/MediNearby.jsx:105-114 | a record with its distance is in the sorted reference list exactly when it is in the catalog and passes `Kept` |
| `MediNearby.LocatedMembership` | src/pages/MediNearby.jsx:89-117 | a record with its distance is in the located result exactly when it is in the catalog and passes `Kept` (both directions) |
| `MediNearby.ByLocationMonotone` | src/pages/MediNearby.jsx:103-115 | the distance steps never give a shorter input a longer output |
| `MediNearby.ByQueryMonotone` | src/pages/MediNearby.jsx:94-102 | the text step preserves the subsequence relation between inputs |
| `MediNearby.ResultBounded` | src/pages/MediNearby.jsx:89-117 | the result never has more entries than the catalog |
| `MediNearby.SpecialtyNeverAdds` | src/pages/MediNearby.jsx:91-93 | choosing a specialty never gives more results than "All Specialties" |
| `MediNearby.QueryNeverAdds` | src/pages/MediNearby.jsx:94-102 | a query never gives more results than the empty query |
| `MediNearby.NarrowingQueryNeverAdds` | src/pages/MediNearby.jsx:94-102 | extending the query, so that the old text occurs in the new, never adds results |
| `MediNearby.TwoDoctorsExample` | src/pages/MediNearby.jsx:89-117 | for a record at the user's position and a second record at a positive distance within 20 km, both are listed, nearest first, each with its distance; the "Cardiologist" choice keeps only the cardiologist |
| `MediNearby.SelectionByIdentity` | src/pages/MediNearby.jsx:274 | `isSelected` depends only on the id: a changed record with the same id stays selected; with unique ids at most one card is selected; none is selected when no entry carries the id |
| `MediNearby.IsSelected` | src/pages/MediNearby.jsx:274 | `selectedItem?.id === item.id`: nothing is selected before a choice, and afterwards the card with the chosen id is |
| `MediNearbyPage.ResolvedLocation` | src/pages/MediNearby.jsx:73-80 | a reported position is stored as reported; an error stores the fallback 27.1767, 78.0081 |
| `MediNearbyPage.Page.constructor` | src/pages/MediNearby.jsx:35-42 | initial state: empty query, "All Specialties", no records, no location, nothing selected, not locating, and the result list equals `filterData()` of these inputs |
| `MediNearbyPage.Page.SetSearchQuery` | src/pages/MediNearby.jsx:188 | stores the query, and the result list becomes `filterData()` of the new inputs (the effect at lines 119-121); nothing else changes |
| `MediNearbyPage.Page.SetSelectedSpecialty` | src/pages/MediNearby.jsx:204 | stores the choice, and the result list becomes `filterData()` of the new inputs; nothing else changes |
| `MediNearbyPage.Page.ReceiveSnapshot` | src/pages/MediNearby.jsx:55-59 | a snapshot replaces the records wholesale, and the result list becomes `filterData()` of the new inputs |
| `MediNearbyPage.Page.RequestLocation` | src/pages/MediNearby.jsx:69-86 | with geolocation, `locating` is raised and the location is unchanged until the callback; without it, the fallback is stored and `locating` is false; the result list stays `filterData()` of the current inputs |
| `MediNearbyPage.Page.BeginLocating` | src/pages/MediNearby.jsx:70 | raises `locating` and changes nothing else |
| `MediNearbyPage.Page.PositionResolved` | src/pages/MediNearby.jsx:73-80 | either callback stores its coordinate, drops `locating`, and recomputes the result list |
| `MediNearbyPage.Page.SelectItem` | src/pages/MediNearby.jsx:273-274 | stores the chosen entry; afterwards a card is marked selected exactly when its id equals the chosen entry's id |
| `MediNearbyPage.Page.IsCardSelected` | src/pages/MediNearby.jsx:274 | the `isSelected` flag a card receives, computed from the page's current `selectedItem` |
| `MediNearbyPage.LocateOnce` | src/pages/MediNearby.jsx:65-86 | once the platform calls back (or at once without geolocation), `locating` is false and a coordinate is stored: the reported one on success, otherwise the fallback |
| `SmartChatbot.MentionsAny` | src/components/SmartChatbot.jsx:43 | the `||` chain of `includes` tests holds exactly when the query contains one of the rule's words |
| `SmartChatbot.FirstSpecialty` | src/components/SmartChatbot.jsx:75-76 | the index found is the first table key the query contains; no index means the query contains no key |
| `SmartChatbot.Matching` | src/components/SmartChatbot.jsx:77-79 | the doctors whose lower-cased specialty contains the key, in list order |
| `SmartChatbot.SpecialistReply` | src/components/SmartChatbot.jsx:81-89 | with matches, the key, its description, the number of matches and the first three; otherwise "none found" for the key; `SpecialistResults` and `NoSpecialistsIff` state its properties |
| `SmartChatbot.Answer` | src/components/SmartChatbot.jsx:41-104 | the rule table: the first rule whose words or key the query contains decides the reply; `KeywordRulesFirst`, `LaterRules` and `FirstKeyWins` state the priority |
| `SmartChatbot.HandleQuery` | src/components/SmartChatbot.jsx:41-105 | the source's walk over the table, with early returns, gives the reply of the rule table `Answer` |
| `SmartChatbot.EmergencyPriority` | src/components/SmartChatbot.jsx:43-45 | any text around an emergency word gets the emergency reply, whatever other words it contains |
| `SmartChatbot.KeywordRulesFirst` | src/components/SmartChatbot.jsx:42-60 | emergency, booking, symptom and hours replies are each given exactly when their rule applies and no earlier rule does |
| `SmartChatbot.LaterRules` | src/components/SmartChatbot.jsx:62-104 | past the first four rules: a specialty reply exactly when a table key occurs, then pharmacy, then rating, then the default help, each exactly when no earlier rule applies |
| `SmartChatbot.FirstSpecialtyAt` | src/components/SmartChatbot.jsx:75-76 | the first key in table order that occurs in the query is the one found |
| `SmartChatbot.FirstKeyWins` | src/components/SmartChatbot.jsx:75-91 | the first key in table order that the query contains decides the reply, whichever later keys it also contains |
| `SmartChatbot.SpecialistResults` | src/components/SmartChatbot.jsx:77-86 | a found-specialists reply names a table entry whose key the query contains; its count is the number of records whose lower-cased specialty contains the key and is positive; it lists the first min(3, count) of them in catalog order |
| `SmartChatbot.NoSpecialistsIff` | src/components/SmartChatbot.jsx:81-89 | once a key is chosen, "none found" is the reply exactly when no record's specialty contains it; pharmacy and rating are then not reached |
| `SmartChatbot.Chat.constructor` | src/components/SmartChatbot.jsx:5-9 | the window starts closed, with the greeting as its only message and an empty input |
| `SmartChatbot.Chat.ToggleChat` | src/components/SmartChatbot.jsx:21 | flips `isOpen` and nothing else |
| `SmartChatbot.Chat.SetInput` | src/components/SmartChatbot.jsx:226 | stores the typed text |
| `SmartChatbot.Chat.SendMessage` | src/components/SmartChatbot.jsx:31-39 | a blank input changes nothing; otherwise the trimmed text and then the reply to its lower-cased form are appended, and the input is cleared |
| `SmartChatbot.Chat.QuickAction` | src/components/SmartChatbot.jsx:107-113 | appends the button's query untrimmed, then the reply to its lower-cased form; the input is untouched |
| `SmartChatbot.SentLineIsTrimmed` | src/components/SmartChatbot.jsx:32-34 | an appended user line is non-blank, starts and ends with a non-white character, and is unchanged by a second trim |

## Left out

- The haversine formula (`getDistanceFromLatLonInKm`, src/pages/MediNearby.jsx:21-32) is the parameter `dist`. It is floating-point trigonometry, which Dafny's `real` cannot express. No property depends on it.
- Firestore and `onSnapshot`: a snapshot is the argument of `ReceiveSnapshot`. The `loading` flag, the unsubscribe cleanup, and the toast and auth state are left out.
- The momentary `locating = true` without platform geolocation: `RequestLocation` ends in the final state (fallback stored, `locating` false). React batches these updates into one render, so no observer sees the intermediate state.
- The render between a state update and the effect `setFilteredData(filterData())`: each handler stores the new result in the same step.
- `getCurrentPosition` is called without a timeout, so a request whose callback never fires (an unanswered permission prompt, say) leaves `locating` true. The model represents this as `RequestLocation(true)` with no later `PositionResolved`. `LocateOnce` covers only requests that are answered.
- The `getCurrentPosition` callback is modelled as `PositionResolved`, and the platform's choice of outcome as its argument. The mount-time call (lines 65-67) is `LocateOnce`.
- `handleLocate`'s scroll into the map, map rendering, `toFixed` formatting, `DoctorCard` and `Footer` are presentation only.
- The specialty select's option list is not modelled: any string can be chosen.
- `Text.Lower`: lower-cases ASCII letters only, one character at a time, because JavaScript's full Unicode case mapping is not modelled. `Text.IncludesLower` and `MediNearby.NarrowingQueryNeverAdds` depend on this per-character mapping. JavaScript's `toLowerCase` applies Unicode's context-sensitive Final_Sigma rule: `"ΑΣ".toLowerCase()` is `"ας"`, but `"ΑΣΑ".toLowerCase()` is `"ασα"`. So for a record named "ασα", the longer query "ΑΣΑ" (which contains "ΑΣ") keeps the record while "ΑΣ" drops it. In the real program a longer query can therefore add a result.
- `Text.IncludesLower`: holds for the modelled per-character `Lower` only; the Final_Sigma counterexample above breaks it for JavaScript's `toLowerCase`.
- `MediNearby.NarrowingQueryNeverAdds`: holds under the modelled `Lower` only; with JavaScript's Final_Sigma rule the queries "ΑΣ" and "ΑΣΑ" above are a counterexample.
- Numeric fields are `Option<real>`: a field is falsy when missing or 0. NaN and non-numeric strings in `lat`/`lng` are not modelled.
- `Catalog.Doctor` holds only the fields the core reads (`id`, `name`, `specialty`, `clinic`, `lat`, `lng`). A document field named `id` overriding `doc.id` is not modelled.
- `MediNearby.ListedKey` maps an entry without a distance to `Infinity`. Such entries are dropped by the radius filter before the sort, so this case never arises.
- Chat replies are variants of `Reply`, not the exact multi-line texts:
  - `SpecialistsFound` carries the key, description, count and listed records;
  - the per-doctor text (rating, location and the "Unknown" and "2.3km" placeholders) is left out.
- The chat's 800 ms typing delay (`addBotMessage`), `isTyping`, timestamps and scrolling are left out: the reply is appended in the same step as the user's line.
- The specialty filter compares the free-text `specialty` field; there is no separate category label.
- Only the "doctors" collection is read, so nothing is merged.
- The radius is the literal 20 km (src/pages/MediNearby.jsx:113).
