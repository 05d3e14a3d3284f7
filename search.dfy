/** The search dialog's `getSearchResults` and `getTypeLabel`
    (client/src/components/ui/search-dialog.tsx). The three collections are what the dialog's
    queries have delivered so far; an absent one (still loading) is None. */
module Search {
  import opened Seqs
  import opened Text
  import opened Schema

  /** The `type` of a search result. */
  datatype Kind = CulturalKind | EventKind | GalleryKind

  /** The string the source stores in `type`. */
  function KindName(k: Kind): string
  {
    match k
    case CulturalKind => "cultural"
    case EventKind => "event"
    case GalleryKind => "gallery"
  }

  datatype SearchResult = SearchResult(id: int, title: string, kind: Kind, category: string, url: string)

  // ---- which fields can match ----

  /** A cultural item matches when the lower-cased query occurs in its lower-cased title,
      description, category or state. `query` is already lower-cased. */
  predicate CulturalMatches(query: string, item: CulturalItem)
  {
    || Contains(Lower(item.fields.title), query)
    || Contains(Lower(item.fields.description), query)
    || Contains(Lower(item.fields.category), query)
    || Contains(Lower(item.fields.state), query)
  }

  /** An event matches on title, description, location or category. */
  predicate EventMatches(query: string, event: Event)
  {
    || Contains(Lower(event.fields.title), query)
    || Contains(Lower(event.fields.description), query)
    || Contains(Lower(event.fields.location), query)
    || Contains(Lower(event.fields.category), query)
  }

  /** A gallery item matches on title, location or category. */
  predicate GalleryMatches(query: string, item: GalleryItem)
  {
    || Contains(Lower(item.fields.title), query)
    || Contains(Lower(item.fields.location), query)
    || Contains(Lower(item.fields.category), query)
  }

  /** Only title, description, category and state decide whether a cultural item matches. */
  lemma CulturalMatchesOnlyFields(query: string, a: CulturalItem, b: CulturalItem)
    requires a.fields.title == b.fields.title && a.fields.description == b.fields.description
    requires a.fields.category == b.fields.category && a.fields.state == b.fields.state
    ensures CulturalMatches(query, a) <==> CulturalMatches(query, b)
  {
  }

  /** Only title, description, location and category decide whether an event matches. */
  lemma EventMatchesOnlyFields(query: string, a: Event, b: Event)
    requires a.fields.title == b.fields.title && a.fields.description == b.fields.description
    requires a.fields.location == b.fields.location && a.fields.category == b.fields.category
    ensures EventMatches(query, a) <==> EventMatches(query, b)
  {
  }

  /** Only title, location and category decide whether a gallery item matches. */
  lemma GalleryMatchesOnlyFields(query: string, a: GalleryItem, b: GalleryItem)
    requires a.fields.title == b.fields.title && a.fields.location == b.fields.location
    requires a.fields.category == b.fields.category
    ensures GalleryMatches(query, a) <==> GalleryMatches(query, b)
  {
  }

  function CulturalTest(query: string): CulturalItem -> bool
  {
    (item: CulturalItem) => CulturalMatches(query, item)
  }

  function EventTest(query: string): Event -> bool
  {
    (event: Event) => EventMatches(query, event)
  }

  function GalleryTest(query: string): GalleryItem -> bool
  {
    (item: GalleryItem) => GalleryMatches(query, item)
  }

  // ---- the result pushed for a matching item ----

  function CulturalResult(item: CulturalItem): (r: SearchResult)
    ensures r.id == item.id && r.title == item.fields.title && r.kind == CulturalKind
    ensures r.category == item.fields.category
    ensures r.url == "/#cultural-showcase?category=" + item.fields.category
  {
    SearchResult(item.id, item.fields.title, CulturalKind, item.fields.category,
                 "/#cultural-showcase?category=" + item.fields.category)
  }

  /** An event links to its month, lower-cased; the category is copied but not linked. */
  function EventResult(event: Event): (r: SearchResult)
    ensures r.id == event.id && r.title == event.fields.title && r.kind == EventKind
    ensures r.category == event.fields.category
    ensures r.url == "/#events?month=" + Lower(event.fields.month)
  {
    SearchResult(event.id, event.fields.title, EventKind, event.fields.category,
                 "/#events?month=" + Lower(event.fields.month))
  }

  function GalleryResult(item: GalleryItem): (r: SearchResult)
    ensures r.id == item.id && r.title == item.fields.title && r.kind == GalleryKind
    ensures r.category == item.fields.category
    ensures r.url == "/#gallery?category=" + item.fields.category
  {
    SearchResult(item.id, item.fields.title, GalleryKind, item.fields.category,
                 "/#gallery?category=" + item.fields.category)
  }

  // ---- the specification ----

  /** What one `forEach` pushes: walking `items` in order, the result of each matching item. */
  function Hits<T>(items: seq<T>, matches: T -> bool, result: T -> SearchResult): (r: seq<SearchResult>)
    ensures |r| <= |items|
  {
    if items == [] then []
    else
      var last := |items| - 1;
      Hits(items[..last], matches, result) + (if matches(items[last]) then [result(items[last])] else [])
  }

  /** `if (collection)`: an absent collection contributes nothing. */
  function OrEmpty<T>(collection: Option<seq<T>>): seq<T>
  {
    if collection.Some? then collection.value else []
  }

  /** Everything the three loops push, in kind order, before the cut to ten. */
  function AllHits(query: string, cultural: Option<seq<CulturalItem>>, events: Option<seq<Event>>,
                   gallery: Option<seq<GalleryItem>>): seq<SearchResult>
  {
    Hits(OrEmpty(cultural), CulturalTest(query), CulturalResult)
    + Hits(OrEmpty(events), EventTest(query), EventResult)
    + Hits(OrEmpty(gallery), GalleryTest(query), GalleryResult)
  }

  /** The value `getSearchResults` returns. */
  function SearchResults(searchQuery: string, cultural: Option<seq<CulturalItem>>, events: Option<seq<Event>>,
                         gallery: Option<seq<GalleryItem>>): (r: seq<SearchResult>)
    ensures |r| <= 10
    ensures Trim(searchQuery) == [] ==> r == []
    ensures Trim(searchQuery) != [] ==>
              var all := AllHits(Lower(searchQuery), cultural, events, gallery);
              r <= all && |r| == Min(10, |all|)
  {
    if Trim(searchQuery) == [] then []
    else Take(AllHits(Lower(searchQuery), cultural, events, gallery), 10)
  }

  // ---- the imperative original ----

  /** One `forEach`: push the result of every matching item of `items`, in order. */
  method PushHits<T>(results: seq<SearchResult>, items: seq<T>, matches: T -> bool, result: T -> SearchResult)
    returns (pushed: seq<SearchResult>)
    ensures pushed == results + Hits(items, matches, result)
  {
    pushed := results;
    for i := 0 to |items|
      invariant pushed == results + Hits(items[..i], matches, result)
    {
      assert items[..i + 1][..i] == items[..i];
      if matches(items[i]) {
        pushed := pushed + [result(items[i])];
      }
    }
    assert items[..|items|] == items;
  }

  /** `getSearchResults`: the three loops push onto `results` in kind order, then `slice(0, 10)`. */
  method GetSearchResults(searchQuery: string, culturalItems: Option<seq<CulturalItem>>,
                          events: Option<seq<Event>>, galleryItems: Option<seq<GalleryItem>>)
    returns (r: seq<SearchResult>)
    ensures r == SearchResults(searchQuery, culturalItems, events, galleryItems)
  {
    if Trim(searchQuery) == [] {
      return [];
    }
    var query := Lower(searchQuery);
    var results: seq<SearchResult> := [];
    ghost var hc := Hits(OrEmpty(culturalItems), CulturalTest(query), CulturalResult);
    ghost var he := Hits(OrEmpty(events), EventTest(query), EventResult);
    ghost var hg := Hits(OrEmpty(galleryItems), GalleryTest(query), GalleryResult);
    results := PushHits(results, OrEmpty(culturalItems), CulturalTest(query), CulturalResult);
    assert results == hc;
    results := PushHits(results, OrEmpty(events), EventTest(query), EventResult);
    results := PushHits(results, OrEmpty(galleryItems), GalleryTest(query), GalleryResult);
    assert results == hc + he + hg;
    r := Take(results, 10);
  }

  // ---- properties ----

  /** One loop's output is the matching items, in order, each turned into its result. */
  lemma {:induction false} HitsIsMapFilter<T>(items: seq<T>, matches: T -> bool, result: T -> SearchResult)
    ensures Hits(items, matches, result) == MapSeq(Filter(items, matches), result)
  {
    if items != [] {
      var last := |items| - 1;
      var init, x := items[..last], items[last];
      assert items == init + [x];
      HitsIsMapFilter(init, matches, result);
      FilterAppend(init, [x], matches);
      FilterSingleton(x, matches);
      MapSeqAppend(Filter(init, matches), Filter([x], matches), result);
      assert MapSeq(Filter([x], matches), result) == if matches(x) then [result(x)] else [];
    }
  }

  /** Kind order: all matching cultural items, then all matching events, then all matching gallery
      items, each group in input order. */
  lemma KindOrder(query: string, cultural: Option<seq<CulturalItem>>, events: Option<seq<Event>>,
                  gallery: Option<seq<GalleryItem>>)
    ensures AllHits(query, cultural, events, gallery) ==
            MapSeq(Filter(OrEmpty(cultural), CulturalTest(query)), CulturalResult)
            + MapSeq(Filter(OrEmpty(events), EventTest(query)), EventResult)
            + MapSeq(Filter(OrEmpty(gallery), GalleryTest(query)), GalleryResult)
  {
    HitsIsMapFilter(OrEmpty(cultural), CulturalTest(query), CulturalResult);
    HitsIsMapFilter(OrEmpty(events), EventTest(query), EventResult);
    HitsIsMapFilter(OrEmpty(gallery), GalleryTest(query), GalleryResult);
  }

  /** The search is empty exactly when the query is blank or nothing matches. */
  lemma SearchEmptyIff(searchQuery: string, cultural: Option<seq<CulturalItem>>, events: Option<seq<Event>>,
                       gallery: Option<seq<GalleryItem>>)
    ensures SearchResults(searchQuery, cultural, events, gallery) == [] <==>
            IsBlank(searchQuery) || AllHits(Lower(searchQuery), cultural, events, gallery) == []
  {
    TrimEmptyIffBlank(searchQuery);
  }

  /** While there are at most ten hits nothing is cut off. */
  lemma SearchUncut(searchQuery: string, cultural: Option<seq<CulturalItem>>, events: Option<seq<Event>>,
                    gallery: Option<seq<GalleryItem>>)
    requires !IsBlank(searchQuery)
    requires |AllHits(Lower(searchQuery), cultural, events, gallery)| <= 10
    ensures SearchResults(searchQuery, cultural, events, gallery) == AllHits(Lower(searchQuery), cultural, events, gallery)
  {
    TrimEmptyIffBlank(searchQuery);
  }

  /** Lower-casing keeps white space and never produces it. */
  lemma LowerBlank(s: string)
    ensures IsBlank(Lower(s)) <==> IsBlank(s)
  {
    var l := Lower(s);
    forall i | 0 <= i < |s| ensures IsSpace(l[i]) <==> IsSpace(s[i]) {
      assert l[i] == LowerChar(s[i]);
    }
  }

  /** The query's case does not matter. */
  lemma SearchIgnoresQueryCase(searchQuery: string, cultural: Option<seq<CulturalItem>>,
                               events: Option<seq<Event>>, gallery: Option<seq<GalleryItem>>)
    ensures SearchResults(Lower(searchQuery), cultural, events, gallery) ==
            SearchResults(searchQuery, cultural, events, gallery)
  {
    LowerBlank(searchQuery);
    TrimEmptyIffBlank(searchQuery);
    TrimEmptyIffBlank(Lower(searchQuery));
    LowerIdempotent(searchQuery);
  }

  // ---- getTypeLabel ----

  /** The label shown for a result type; any other string is shown as it is. */
  function TypeLabel(t: string): (r: string)
    ensures t == KindName(CulturalKind) ==> r == "Cultural Item"
    ensures t == KindName(EventKind) ==> r == "Event"
    ensures t == KindName(GalleryKind) ==> r == "Gallery"
    ensures r == t <==> t != KindName(CulturalKind) && t != KindName(EventKind) && t != KindName(GalleryKind)
  {
    if t == "cultural" then "Cultural Item"
    else if t == "event" then "Event"
    else if t == "gallery" then "Gallery"
    else t
  }

  /** The three kinds get three different labels. */
  lemma TypeLabelsDistinct(a: Kind, b: Kind)
    ensures TypeLabel(KindName(a)) == TypeLabel(KindName(b)) <==> a == b
  {
    assert TypeLabel(KindName(CulturalKind)) == "Cultural Item";
    assert TypeLabel(KindName(EventKind)) == "Event";
    assert TypeLabel(KindName(GalleryKind)) == "Gallery";
  }
}
