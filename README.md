# Bharat Mahotsav heritage site: store, handlers, search and hooks in Dafny

This project models the logic core of a small cultural-heritage web site. The site has an
Express server with an in-memory store, and a React client. Five parts are modelled:

- **The in-memory store** (`MemStorage`, server/storage.ts): seven append-only tables.
  - The tables are users, cultural items, events, gallery items, heritage info, carousel items and
    newsletter subscribers.
  - Each table has its own id counter, starting at 1.
  - The constructor seeds five tables through those counters.
  - The model is the class `Storage.MemStorage`. Each table is a `seq` of records in insertion
    order, next to its `int` counter. Every id is fresh, so no `Map.set` ever overwrites a record,
    and the sequence holds exactly what the source's `Map` holds.
  - `Valid()` is the invariant every method keeps: the record at position i has id i + 1, and the
    counter is one past the last id.
  - Getters are functions of the store. Creates are methods whose `ensures` state the whole new
    state.
- **The HTTP handlers** (server/routes.ts).
  - GET handlers are functions from the store and the path parameter to a `Response`: 200 with a
    body, 201, 400 or 404 with a message.
  - Path ids go through a model of JavaScript's `parseInt`.
  - `Subscribe` is a method: validate, refuse a known email, otherwise create. It keeps emails
    distinct.
- **Free-text search** (`getSearchResults`, `getTypeLabel` in client/src/components/ui/search-dialog.tsx).
  - The imperative original (three `forEach` loops pushing onto `results`, then `slice(0, 10)`) is
    the method `Search.GetSearchResults`.
  - That method is proved equal to the specification function `Search.SearchResults`.
  - Lemmas state the kind order, the cut to ten and case-insensitivity.
- **`useFilter`** (client/src/hooks/use-filter.ts).
  - The two pieces of React state are the class `UseFilter.FilterState`.
  - The derived lists `filteredItems`, `displayedItems` and `hasMoreItems` are functions.
- **`useCarousel`** (client/src/hooks/use-carousel.ts).
  - The slide index and pause flag are the class `UseCarousel.CarouselState`.
  - The index arithmetic uses JavaScript's truncating `%`. `x % 0` is NaN, so the index type is
    `Slide = At(n) | NaN`.

Modules: `Text` (`toLowerCase`, `includes`, `trim`), `Seqs` (`filter`, `find`, `slice`, `map`),
`Schema` (record shapes of shared/schema.ts), `Seed` (the sample data), `Storage`, `Routes`,
`Search`, `UseFilter`, `UseCarousel`, and `Scenarios`.
`Scenarios` holds concrete runs that start from a freshly constructed store.

## Model

| member | source | states |
|---|---|---|
| Text.Lower | client/src/components/ui/search-dialog.tsx:46 | `toLowerCase` keeps the length and lower-cases each ASCII letter, leaving every other character alone |
| Text.LowerIdempotent | server/storage.ts:136 | lower-casing an already lower-cased string changes nothing |
| Text.Contains | client/src/components/ui/search-dialog.tsx:53-56 | `hay.includes(needle)`: the needle occurs at some offset of the haystack; `ContainsFacts` states its basic laws |
| Text.ContainsFacts | client/src/components/ui/search-dialog.tsx:53 | `includes` finds the empty string and the string itself, and an occurrence survives adding text on either side |
| Text.TrimStart | server/routes.ts:35 | `parseInt` skips exactly a leading run of white space; what remains starts with a non-space |
| Text.TrimEnd | client/src/components/ui/search-dialog.tsx:44 | the trailing run of white space removed by `trim` is exactly the white space at the end |
| Text.Trim | client/src/components/ui/search-dialog.tsx:44 | `trim()`: the result is the input's middle part, with only white space cut off before and after it, and a non-empty result neither starts nor ends with white space |
| Text.TrimEmptyIffBlank | client/src/components/ui/search-dialog.tsx:44 | `query.trim()` is empty exactly when the query is all white space |
| Seqs.Filter | server/storage.ts:112-116 | `filter` returns only elements that pass, and every element that passes appears; no longer than its input |
| Seqs.FilterAppend | server/storage.ts:112-116 | filtering a concatenation filters each part in place, so original order is kept |
| Seqs.FilterIdempotent | client/src/hooks/use-filter.ts:25-27 | filtering a filtered list again with the same test changes nothing |
| Seqs.Find | server/storage.ts:94-98 | `find` returns None exactly when no element passes, and otherwise the first element that passes |
| Seqs.SliceTo | client/src/hooks/use-filter.ts:33 | `slice(0, end)` is a prefix whose length is `min(end, n)` for a non-negative end, and `max(n + end, 0)` for a negative one |
| Seqs.SliceToMonotone | client/src/hooks/use-filter.ts:31-34 | a larger end index gives a longer prefix, unless the end crosses from negative to non-negative |
| Seqs.Take | client/src/components/ui/search-dialog.tsx:108 | `slice(0, n)` is a prefix of length `min(n, |s|)` |
| Schema.RowWithId | server/storage.ts:90-92 | `Map.get(id)` over a table: a found record is in the table under that id, and None means no record has that id |
| Schema.RowWithIdNumbered | server/storage.ts:90-92 | in a well-numbered table, `Map.get(id)` finds the record at position id - 1 exactly for 1 <= id < counter, and nothing otherwise |
| Schema.WellNumberedAscending | server/storage.ts:108-110 | insertion order in a table is ascending id order |
| Schema.FilterKeepsIdsAscending | server/storage.ts:112-116 | a filtered table is still in ascending id order |
| Seed.SeedSizes | server/storage.ts:233-552 | the sample data has 3 carousel, 9 cultural, 6 event, 12 gallery and 8 heritage records |
| Storage.AppendAll | server/storage.ts:254-258 | a seeding loop gives each draft the current counter as its id, in order, and advances the counter by the number of drafts; a well-numbered table stays well numbered |
| Storage.SeededFromEmpty | server/storage.ts:78-86 | seeding a table whose counter starts at 1 numbers its drafts 1, 2, … and holds exactly them |
| Storage.InsertByOrder | server/storage.ts:197 | inserting a carousel record adds exactly that record to the multiset |
| Storage.InsertByOrderSorted | server/storage.ts:197 | inserting into a list sorted by `order` keeps it sorted |
| Storage.SortByOrder | server/storage.ts:197 | `sort((a, b) => a.order - b.order)` returns a permutation sorted by ascending `order` |
| Storage.InsertByOrderStable | server/storage.ts:197 | an insertion leaves the records of every `order` value in their relative order |
| Storage.SortByOrderStable | server/storage.ts:197 | the sort is stable: for each `order` value, the records with that value come out in insertion order |
| Storage.MemStorage.constructor | server/storage.ts:69-87 | users and subscribers start empty with counter 1; the five seeded tables hold their sample records with ids 1..n and counters n + 1 (4, 10, 7, 13, 9) |
| Storage.MemStorage.GetUser | server/storage.ts:90-92 | a user is found exactly for 1 <= id < counter, and it is the record with that id |
| Storage.MemStorage.GetUserByUsername | server/storage.ts:94-98 | None exactly when no user has that username; otherwise the first such user in insertion order |
| Storage.MemStorage.CreateUser | server/storage.ts:100-105 | the new user is the input with id = old counter; the counter grows by one, the record is appended, every other table and counter is unchanged, and `getUser(id)` now returns it |
| Storage.MemStorage.GetCulturalItems | server/storage.ts:108-110 | exactly the table's records, in insertion order, numbered 1 .. counter - 1 |
| Storage.MemStorage.GetCulturalItemsByCategory | server/storage.ts:112-116 | exactly the records whose category equals the argument case-sensitively, in ascending id order |
| Storage.MemStorage.GetCulturalItem | server/storage.ts:118-120 | found exactly for 1 <= id < counter, and then the record with that id |
| Storage.MemStorage.CreateCulturalItem | server/storage.ts:122-127 | id = old counter; counter + 1; appended; all other tables and counters unchanged; retrievable by id |
| Storage.MemStorage.GetEvents | server/storage.ts:130-132 | exactly the table's events, in insertion order, numbered 1 .. counter - 1 |
| Storage.MemStorage.GetEventsByMonth | server/storage.ts:134-138 | exactly the events whose month equals the argument once both are lower-cased, in ascending id order |
| Storage.MemStorage.GetEvent | server/storage.ts:140-142 | found exactly for 1 <= id < counter, and then the event with that id |
| Storage.MemStorage.CreateEvent | server/storage.ts:144-149 | id = old counter; counter + 1; appended; all other tables and counters unchanged; retrievable by id |
| Storage.MemStorage.GetGalleryItems | server/storage.ts:152-154 | exactly the table's records, in insertion order, numbered 1 .. counter - 1 |
| Storage.MemStorage.GetGalleryItemsByCategory | server/storage.ts:156-160 | exactly the records whose category equals the argument case-sensitively, in ascending id order |
| Storage.MemStorage.GetGalleryItem | server/storage.ts:162-164 | found exactly for 1 <= id < counter, and then the record with that id |
| Storage.MemStorage.CreateGalleryItem | server/storage.ts:166-171 | id = old counter; counter + 1; appended; all other tables and counters unchanged; retrievable by id |
| Storage.MemStorage.GetHeritageInfo | server/storage.ts:174-176 | exactly the table's records, in insertion order, numbered 1 .. counter - 1 |
| Storage.MemStorage.GetHeritageInfoByCategory | server/storage.ts:178-182 | exactly the records whose category equals the argument case-sensitively, in ascending id order |
| Storage.MemStorage.GetHeritageInfoItem | server/storage.ts:184-186 | found exactly for 1 <= id < counter, and then the record with that id |
| Storage.MemStorage.CreateHeritageInfo | server/storage.ts:188-193 | id = old counter; counter + 1; appended; all other tables and counters unchanged; retrievable by id |
| Storage.MemStorage.GetCarouselItems | server/storage.ts:196-198 | the carousel records as a permutation sorted by `order`, with records of equal order in insertion order |
| Storage.MemStorage.GetCarouselItem | server/storage.ts:200-202 | found exactly for 1 <= id < counter, and then the record with that id |
| Storage.MemStorage.CreateCarouselItem | server/storage.ts:204-209 | id = old counter; counter + 1; appended; all other tables and counters unchanged; retrievable by id |
| Storage.MemStorage.GetSubscribers | server/storage.ts:212-214 | exactly the table's subscribers, in insertion order, numbered 1 .. counter - 1 |
| Storage.MemStorage.GetSubscriberByEmail | server/storage.ts:216-220 | None exactly when no subscriber has that email; otherwise the first such subscriber in insertion order |
| Storage.MemStorage.CreateSubscriber | server/storage.ts:222-228 | always appends a record with the email, the given time and id = old counter, even for an email already present; nothing else changes |
| Routes.ParseInt | server/routes.ts:35 | `parseInt(req.params.id)` without a radix: the result is negative only after a leading minus, and a leading minus never gives a positive result; `ParseIntDecimal` and `ParseIntNoDigit` state its value on decimal text and on text without digits |
| Routes.ParseIntDecimal | server/routes.ts:35 | `parseInt(String(n))` is n for every natural number n |
| Routes.ParseIntDigits | server/routes.ts:35 | a non-empty run of decimal digits parses to the number it denotes |
| Routes.ParseIntNoDigit | server/routes.ts:35 | a segment containing no decimal digit parses to NaN |
| Routes.LeadingNumber | server/routes.ts:35 | `parseInt` produces NaN exactly when no digit follows the sign and prefix |
| Routes.DecimalTextValue | server/routes.ts:35 | the decimal text of n denotes n |
| Routes.FoundOr | server/routes.ts:38-42 | `if (!record) 404 else res.json(record)`: Ok with the record exactly when there is one, otherwise 404 with the message |
| Routes.CulturalItemsRoute | server/routes.ts:12-19 | 200 with every cultural item, in id order 1 .. counter - 1 |
| Routes.CulturalItemsByCategoryRoute | server/routes.ts:22-30 | 200 with exactly the items whose category equals the raw parameter, in ascending id order |
| Routes.CulturalItemRoute | server/routes.ts:33-46 | 200 with the item exactly when `parseInt(id)` is a number in 1 .. counter - 1, otherwise 404 "Cultural item not found" |
| Routes.EventsRoute | server/routes.ts:49-56 | 200 with every event, in id order |
| Routes.EventsByMonthRoute | server/routes.ts:59-67 | 200 with exactly the events whose month equals the raw parameter ignoring case, in ascending id order |
| Routes.EventRoute | server/routes.ts:70-83 | 200 with the event exactly when `parseInt(id)` is a number in 1 .. counter - 1, otherwise 404 "Event not found" |
| Routes.EventRouteDecimal | server/routes.ts:70-83 | the decimal text of n fetches event n when it exists, and 404 otherwise |
| Routes.GalleryItemsRoute | server/routes.ts:86-93 | 200 with every gallery item, in id order |
| Routes.GalleryItemsByCategoryRoute | server/routes.ts:96-104 | 200 with exactly the items whose category equals the raw parameter, in ascending id order |
| Routes.GalleryItemRoute | server/routes.ts:107-120 | 200 with the item exactly when `parseInt(id)` is a number in 1 .. counter - 1, otherwise 404 "Gallery item not found" |
| Routes.HeritageInfoRoute | server/routes.ts:123-130 | 200 with every heritage record, in id order |
| Routes.HeritageInfoByCategoryRoute | server/routes.ts:133-141 | 200 with exactly the records whose category equals the raw parameter, in ascending id order |
| Routes.HeritageInfoItemRoute | server/routes.ts:144-157 | 200 with the record exactly when `parseInt(id)` is a number in 1 .. counter - 1, otherwise 404 "Heritage info not found" |
| Routes.CarouselItemsRoute | server/routes.ts:160-167 | 200 with the carousel records as a permutation sorted by `order`, records of equal order in insertion order |
| Routes.ParseSubscriber | server/routes.ts:173 | the schema accepts a body exactly when its `email` is a string, and keeps that string |
| Routes.DistinctEmailsAppend | server/routes.ts:176-182 | appending a subscriber with a new email keeps all emails distinct |
| Routes.Subscribe | server/routes.ts:170-190 | invalid body: 400 "Invalid email address" and the store unchanged; known email: 400 "Email already subscribed" and the store unchanged; otherwise 201 with the one subscriber created and appended; distinct emails stay distinct |
| Search.CulturalMatches | client/src/components/ui/search-dialog.tsx:52-57 | a cultural item matches when the lower-cased query occurs in its lower-cased title, description, category or state; `CulturalMatchesOnlyFields` states that no other field matters |
| Search.CulturalMatchesOnlyFields | client/src/components/ui/search-dialog.tsx:52-57 | two cultural items that agree on title, description, category and state both match a query or both do not |
| Search.EventMatches | client/src/components/ui/search-dialog.tsx:72-77 | an event matches on title, description, location or category; `EventMatchesOnlyFields` states that no other field matters |
| Search.EventMatchesOnlyFields | client/src/components/ui/search-dialog.tsx:72-77 | two events that agree on title, description, location and category both match a query or both do not |
| Search.GalleryMatches | client/src/components/ui/search-dialog.tsx:92-96 | a gallery item matches on title, location or category; `GalleryMatchesOnlyFields` states that no other field matters |
| Search.GalleryMatchesOnlyFields | client/src/components/ui/search-dialog.tsx:92-96 | two gallery items that agree on title, location and category both match a query or both do not |
| Search.CulturalResult | client/src/components/ui/search-dialog.tsx:58-64 | the result copies id, title and category, has kind cultural, and links to `/#cultural-showcase?category=` + category |
| Search.EventResult | client/src/components/ui/search-dialog.tsx:78-84 | the result copies id, title and category, has kind event, and links to `/#events?month=` + lower-cased month |
| Search.GalleryResult | client/src/components/ui/search-dialog.tsx:98-104 | the result copies id, title and category, has kind gallery, and links to `/#gallery?category=` + category |
| Search.SearchResults | client/src/components/ui/search-dialog.tsx:43-109 | at most 10 results; none for a blank query; otherwise the first min(10, n) of all hits |
| Search.PushHits | client/src/components/ui/search-dialog.tsx:51-66 | one `forEach` appends, in order, the result of each matching item |
| Search.GetSearchResults | client/src/components/ui/search-dialog.tsx:43-109 | the imperative loops return exactly `SearchResults` |
| Search.HitsIsMapFilter | client/src/components/ui/search-dialog.tsx:51-66 | one loop's output is its matching items, in input order, each turned into its result |
| Search.KindOrder | client/src/components/ui/search-dialog.tsx:49-106 | before the cut: matching cultural items, then matching events, then matching gallery items, each in input order; an absent collection contributes nothing |
| Search.SearchEmptyIff | client/src/components/ui/search-dialog.tsx:44-108 | the output is empty exactly when the query is blank or nothing matches |
| Search.SearchUncut | client/src/components/ui/search-dialog.tsx:108 | with at most ten hits nothing is cut off |
| Search.LowerBlank | client/src/components/ui/search-dialog.tsx:44-46 | lower-casing neither creates nor removes white space |
| Search.SearchIgnoresQueryCase | client/src/components/ui/search-dialog.tsx:46 | a query gives the same results as its lower-cased form |
| Search.TypeLabel | client/src/components/ui/search-dialog.tsx:140-151 | `cultural`, `event` and `gallery` get "Cultural Item", "Event" and "Gallery"; any other string is returned unchanged, and only those |
| Search.TypeLabelsDistinct | client/src/components/ui/search-dialog.tsx:140-151 | the three kinds get three different labels |
| UseFilter.KeyMatches | client/src/hooks/use-filter.ts:26 | the item test: the item's key equals the filter once both are lower-cased; `FilteredItems` states what it selects |
| UseFilter.FilteredItems | client/src/hooks/use-filter.ts:18-28 | no items gives none; "all" gives the items unchanged; any other filter gives exactly the items whose key equals the filter ignoring case |
| UseFilter.FilteredItemsAppend | client/src/hooks/use-filter.ts:25-27 | filtering works item by item, so the items keep their original order |
| UseFilter.FilteredItemsIdempotent | client/src/hooks/use-filter.ts:18-28 | filtering the filtered list again changes nothing |
| UseFilter.DisplayedItems | client/src/hooks/use-filter.ts:31-34 | the displayed items are a prefix of the filtered ones, of length min(page * perPage, n) when that end is non-negative |
| UseFilter.HasMoreItems | client/src/hooks/use-filter.ts:37 | fewer items are displayed than filtered; `HasMoreItemsIff` states when that holds |
| UseFilter.HasMoreItemsIff | client/src/hooks/use-filter.ts:37 | with a non-negative end index there are more items exactly when page * perPage < n |
| UseFilter.LoadMoreGrows | client/src/hooks/use-filter.ts:40-42 | loading one more page keeps the shown items as a prefix and shows min(shown + perPage, n) |
| UseFilter.FilterState.constructor | client/src/hooks/use-filter.ts:6-10 | the state starts with the initial filter and page 1 |
| UseFilter.FilterState.WithDefaults | client/src/hooks/use-filter.ts:6-10 | without the optional arguments the hook starts on filter "all", page 1, six items per page |
| UseFilter.FilterState.SetFilter | client/src/hooks/use-filter.ts:9-15 | the filter takes the new value; a different value resets the page to 1, the same value keeps it |
| UseFilter.FilterState.LoadMoreItems | client/src/hooks/use-filter.ts:40-42 | the page grows by exactly one and the filter is unchanged |
| UseFilter.FilterState.SetCurrentPage | client/src/hooks/use-filter.ts:10 | the page takes the given value and the filter is unchanged |
| UseFilter.FilterState.Displayed | client/src/hooks/use-filter.ts:31-34 | what the hook displays is a prefix of the filtered items, of length min(currentPage * itemsPerPage, number filtered) for a non-negative end |
| UseCarousel.JsRem | client/src/hooks/use-carousel.ts:12 | JavaScript's `%`: `a == trunc(a / b) * b + r`, with r in [0, abs(b)) for a non-negative dividend and in (-abs(b), 0] for a negative one |
| UseCarousel.JsRemSmall | client/src/hooks/use-carousel.ts:12 | a non-negative dividend below the divisor is its own remainder |
| UseCarousel.NextIndex | client/src/hooks/use-carousel.ts:12 | `(prev + 1) % totalSlides`: NaN exactly for a NaN index or no slides, otherwise the truncated remainder of prev + 1, in [0, abs(total)) when prev + 1 is non-negative |
| UseCarousel.PrevIndex | client/src/hooks/use-carousel.ts:16 | `(prev - 1 + totalSlides) % totalSlides`: NaN exactly for a NaN index or no slides, otherwise the truncated remainder, in [0, abs(total)) when the dividend is non-negative |
| UseCarousel.NextWraps | client/src/hooks/use-carousel.ts:11-13 | on a valid index, next moves one forward and wraps from the last slide to 0 |
| UseCarousel.PrevWraps | client/src/hooks/use-carousel.ts:15-17 | on a valid index, prev moves one back and wraps from 0 to the last slide |
| UseCarousel.PrevNeedsOffset | client/src/hooks/use-carousel.ts:16 | without adding `totalSlides`, prev from slide 0 would give -1 |
| UseCarousel.NextPrevInverse | client/src/hooks/use-carousel.ts:11-17 | next and prev keep a valid index valid and undo each other |
| UseCarousel.NoSlidesGivesNaN | client/src/hooks/use-carousel.ts:11-17 | with no slides the index becomes NaN, and NaN stays NaN |
| UseCarousel.NextTimesAdd | client/src/hooks/use-carousel.ts:11-13 | j + k steps of next are j steps followed by k |
| UseCarousel.NextTimesForward | client/src/hooks/use-carousel.ts:11-13 | short of the last slide, k steps of next move exactly k slides on |
| UseCarousel.FullCycle | client/src/hooks/use-carousel.ts:11-13 | `totalSlides` steps of next (the autoplay cycle) return to the starting slide |
| UseCarousel.AutoplayActive | client/src/hooks/use-carousel.ts:35 | the autoplay effect installs its interval exactly when `autoplay && !isPaused && totalSlides > 1`; `PauseAutoplay` and `ResumeAutoplay` state how it changes |
| UseCarousel.CarouselState.constructor | client/src/hooks/use-carousel.ts:3-9 | the state starts at slide 0, not paused |
| UseCarousel.CarouselState.WithDefaults | client/src/hooks/use-carousel.ts:3-9 | without the optional arguments autoplay is on with a 5000 ms interval, at slide 0, not paused |
| UseCarousel.CarouselState.NextSlide | client/src/hooks/use-carousel.ts:11-13 | the index becomes its successor modulo total; a valid index stays valid; nothing else changes |
| UseCarousel.CarouselState.PrevSlide | client/src/hooks/use-carousel.ts:15-17 | the index becomes its predecessor modulo total; a valid index stays valid; nothing else changes |
| UseCarousel.CarouselState.GoToSlide | client/src/hooks/use-carousel.ts:19-23 | the index becomes the argument exactly when `0 <= index < total`, otherwise it is unchanged |
| UseCarousel.CarouselState.PauseAutoplay | client/src/hooks/use-carousel.ts:25-27 | sets the pause flag, which disables autoplay, and leaves the index alone |
| UseCarousel.CarouselState.ResumeAutoplay | client/src/hooks/use-carousel.ts:29-31 | clears the pause flag; autoplay is then enabled exactly when `autoplay` holds and there is more than one slide |
| UseCarousel.CarouselState.AutoplayTick | client/src/hooks/use-carousel.ts:34-39 | an interval tick, possible only while `autoplay && !isPaused && totalSlides > 1`, advances like next |
| UseCarousel.CarouselState.SetTotalSlides | client/src/hooks/use-carousel.ts:4 | a new slide count keeps the index and the pause flag as they are |
| Scenarios.SubscribeTwice | server/routes.ts:176-183 | subscribing one address twice on a fresh store gives 201, then 400, and one subscriber |
| Scenarios.SubscribeInvalid | server/routes.ts:185-187 | a body without a string email gives 400 "Invalid email address" and no subscriber |
| Scenarios.CreateSubscriberTwice | server/storage.ts:222-228 | the store itself adds two records, ids 1 and 2, for the same address |
| Scenarios.ThreeUsers | server/storage.ts:100-105 | the first three users get ids 1, 2, 3 |
| Scenarios.CreatesAfterSeeding | server/storage.ts:254-258 | after seeding, the next carousel, cultural, event, gallery and heritage ids are 4, 10, 7, 13, 9 |
| Scenarios.CreateThenFetchEvent | server/routes.ts:70-79 | a created event is served by GET /api/events/:id under its decimal id |

## Left out

- Subscribe: the 400 body of a failed validation also carries the validator's `errors` list (server/routes.ts:185-187); the model keeps only its message.
- React rendering, animation and the components around the hooks: presentation only.
- The autoplay timer (`setInterval`/`clearInterval`, client/src/hooks/use-carousel.ts:37-41): a
  timer. Only the enabling condition and the effect of one tick are modelled (`AutoplayTick`).
- Data fetching (`useQuery`), navigation and toasts: I/O. The search takes the three collections
  as inputs; a collection still loading is `None`.
- The Express server itself (`createServer`, routing, serialisation) and the 500 catch branches.
  The in-memory store never throws, so those branches are unreachable in this model.
- Promises: the store's `async` methods are modelled as plain calls.
- Routes.ParseSubscriber: zod validation is modelled as "email is a string". The schema is
  `createInsertSchema` over a non-null text column, with no format check. The 400 message says
  "Invalid email address", but a non-address string is accepted.
- The clock (`new Date()` in server/storage.ts:224) is the `now`/`createdAt` parameter.
- Routes.ParseInt: `parseInt` is exact on arbitrarily large digit runs. JavaScript loses precision
  beyond 2^53. `-0` is the same as 0, which `Map.get` also treats alike.
- Text.Lower: ASCII-only lower-casing; Unicode case mapping is not modelled.
- Seed: the sample records keep titles, categories, states, months, days, dates, times, locations
  and orders. Descriptions and image URLs are blanked. The search matches on descriptions, so over
  the seeded data a query that only occurs in a description finds a record in the program and
  nothing in the model. The search itself takes its collections as inputs and is exact on them.
- The users table is never seeded and has no route. `createUser` and the getters are modelled, but
  no handler uses them.
- UseFilter: the hook is generic in the filtered item; the model takes a `key` function standing
  for `String(item[filterKey])`. `!items` (undefined) behaves like an empty list.
- UseFilter.FilterState.SetFilter: after a new filter, React renders once with the old page before
  the reset effect runs. The model shows the state after the effect.
- UseFilter.HasMoreItemsIff: stated only for a non-negative end index. A negative page size makes
  `slice` count from the end, which `DisplayedItems` models.
- UseFilter and UseCarousel: page numbers, page sizes and slide counts are integers. Fractional
  numbers and NaN inputs to the hooks are not modelled, except for the NaN that `x % 0` produces.
- Search: the property "an item's result is among the hits before the cut to ten exactly when one
  of its listed fields matches" is stated through `KindOrder`, the membership contract of
  `Seqs.Filter` and the `...MatchesOnlyFields` lemmas. There is no separate lemma per kind.
- The CarouselState's `autoplayInterval` is kept as a field but has no behaviour without the timer.
