/** The in-memory store of server/storage.ts: seven append-only tables, each with
    its own id counter starting at 1. A table's `Map` is kept as the sequence of
    its records in insertion order; since every id is fresh, no `set` ever
    overwrites an entry, so the sequence and the map hold the same records. */
module Storage {
  import opened Seqs
  import opened Schema
  import opened Text
  import opened Seed

  /** Every field of the store, for stating what an operation leaves alone. */
  datatype Tables = Tables(
    users: seq<User>, currentUserId: int,
    culturalItems: seq<CulturalItem>, currentCulturalItemId: int,
    events: seq<Event>, currentEventId: int,
    galleryItems: seq<GalleryItem>, currentGalleryItemId: int,
    heritageInfo: seq<HeritageInfo>, currentHeritageInfoId: int,
    carouselItems: seq<CarouselItem>, currentCarouselItemId: int,
    subscribers: seq<Subscriber>, currentSubscriberId: int)

  /** The rows hold exactly the given drafts, in order. */
  predicate Holds<T(==)>(rows: seq<Row<T>>, drafts: seq<T>)
  {
    |rows| == |drafts| && forall i :: 0 <= i < |rows| ==> rows[i].fields == drafts[i]
  }

  /** One seeding loop of `initializeData`: each draft in turn gets the current
      counter as its id, the counter is incremented and the record is stored. */
  method AppendAll<T>(rows: seq<Row<T>>, next: int, drafts: seq<T>) returns (rows': seq<Row<T>>, next': int)
    ensures next' == next + |drafts|
    ensures |rows'| == |rows| + |drafts| && rows'[..|rows|] == rows
    ensures forall i :: 0 <= i < |drafts| ==> rows'[|rows| + i] == Row(next + i, drafts[i])
    ensures WellNumbered(rows, next) ==> WellNumbered(rows', next')
  {
    rows', next' := rows, next;
    for i := 0 to |drafts|
      invariant next' == next + i
      invariant |rows'| == |rows| + i && rows'[..|rows|] == rows
      invariant forall k :: 0 <= k < i ==> rows'[|rows| + k] == Row(next + k, drafts[k])
    {
      var id := next';
      next' := next' + 1;
      rows' := rows' + [Row(id, drafts[i])];
    }
    if WellNumbered(rows, next) {
      forall i | 0 <= i < |rows'| ensures rows'[i].id == i + 1 {
        if i < |rows| {
          assert rows'[i] == rows'[..|rows|][i];
        } else {
          assert rows'[|rows| + (i - |rows|)] == Row(next + (i - |rows|), drafts[i - |rows|]);
        }
      }
    }
  }

  /** Seeding an empty table numbers its drafts 1, 2, ... and leaves the counter past them. */
  lemma SeededFromEmpty<T>(rows: seq<Row<T>>, next: int, drafts: seq<T>)
    requires next == 1 + |drafts| && |rows| == |drafts|
    requires forall i :: 0 <= i < |drafts| ==> rows[0 + i] == Row(1 + i, drafts[i])
    ensures WellNumbered(rows, next) && Holds(rows, drafts)
  {
    forall i | 0 <= i < |rows| ensures rows[i] == Row(i + 1, drafts[i]) {
      assert rows[0 + i] == Row(1 + i, drafts[i]);
    }
  }

  /** Carousel records are sorted by ascending `order`. */
  predicate SortedByOrder(s: seq<CarouselItem>)
  {
    forall i, j :: 0 <= i < j < |s| ==> s[i].fields.order <= s[j].fields.order
  }

  /** The test selecting the carousel records with a given `order`. */
  function OrderIs(k: int): CarouselItem -> bool
  {
    (x: CarouselItem) => x.fields.order == k
  }

  /** Insert `x` before the first record whose order is not smaller than its own. */
  function InsertByOrder(x: CarouselItem, s: seq<CarouselItem>): (r: seq<CarouselItem>)
    ensures multiset(r) == multiset(s) + multiset{x}
  {
    if s == [] || x.fields.order <= s[0].fields.order then [x] + s
    else
      assert s == [s[0]] + s[1..];
      [s[0]] + InsertByOrder(x, s[1..])
  }

  /** Every record of `s` has order at least `b`. */
  predicate OrdersAtLeast(s: seq<CarouselItem>, b: int)
  {
    forall i :: 0 <= i < |s| ==> b <= s[i].fields.order
  }

  /** Inserting into a sorted sequence keeps it sorted. */
  lemma {:induction false} InsertByOrderSorted(x: CarouselItem, s: seq<CarouselItem>)
    requires SortedByOrder(s)
    ensures SortedByOrder(InsertByOrder(x, s))
    ensures forall b :: OrdersAtLeast(s, b) && b <= x.fields.order ==> OrdersAtLeast(InsertByOrder(x, s), b)
  {
    if s == [] || x.fields.order <= s[0].fields.order {
      var r := [x] + s;
      assert forall i :: 1 <= i < |r| ==> r[i] == s[i - 1];
    } else {
      var tail := s[1..];
      InsertByOrderSorted(x, tail);
      var rest := InsertByOrder(x, tail);
      assert InsertByOrder(x, s) == [s[0]] + rest;
      assert OrdersAtLeast(tail, s[0].fields.order);
      assert OrdersAtLeast(rest, s[0].fields.order);
      var r := [s[0]] + rest;
      assert forall i :: 1 <= i < |r| ==> r[i] == rest[i - 1];
    }
  }

  /** `Array.prototype.sort((a, b) => a.order - b.order)`, which is a stable sort. */
  function SortByOrder(s: seq<CarouselItem>): (r: seq<CarouselItem>)
    ensures SortedByOrder(r)
    ensures multiset(r) == multiset(s)
    decreases |s|
  {
    if s == [] then []
    else
      assert s == [s[0]] + s[1..];
      var sortedTail := SortByOrder(s[1..]);
      InsertByOrderSorted(s[0], sortedTail);
      InsertByOrder(s[0], sortedTail)
  }

  /** Inserting `x` leaves the records of every other order where they were. */
  lemma {:induction false} InsertByOrderStable(x: CarouselItem, s: seq<CarouselItem>, k: int)
    ensures Filter(InsertByOrder(x, s), OrderIs(k)) == Filter([x], OrderIs(k)) + Filter(s, OrderIs(k))
  {
    var p := OrderIs(k);
    if s == [] || x.fields.order <= s[0].fields.order {
      assert InsertByOrder(x, s) == [x] + s;
      FilterAppend([x], s, p);
    } else {
      var head, tail := s[0], s[1..];
      var rest := InsertByOrder(x, tail);
      var fh, fx, ft := Filter([head], p), Filter([x], p), Filter(tail, p);
      assert Filter(InsertByOrder(x, s), p) == fh + Filter(rest, p) by {
        assert InsertByOrder(x, s) == [head] + rest;
        FilterAppend([head], rest, p);
      }
      assert Filter(rest, p) == fx + ft by {
        InsertByOrderStable(x, tail, k);
      }
      assert Filter(s, p) == fh + ft by {
        HeadTail(s);
        FilterAppend([head], tail, p);
      }
      assert fh == [] || fx == [] by {
        FilterSingleton(head, p);
        FilterSingleton(x, p);
      }
      SwapEmpty(fh, fx, ft);
    }
  }

  /** Stability: for every `order` value, the records with that order come out in insertion order. */
  lemma {:induction false} SortByOrderStable(s: seq<CarouselItem>, k: int)
    ensures Filter(SortByOrder(s), OrderIs(k)) == Filter(s, OrderIs(k))
    decreases |s|
  {
    if s != [] {
      SortByOrderStable(s[1..], k);
      InsertByOrderStable(s[0], SortByOrder(s[1..]), k);
      assert s == [s[0]] + s[1..];
      FilterAppend([s[0]], s[1..], OrderIs(k));
    }
  }

  class MemStorage {
    var users: seq<User>
    var culturalItems: seq<CulturalItem>
    var events: seq<Event>
    var galleryItems: seq<GalleryItem>
    var heritageInfo: seq<HeritageInfo>
    var carouselItems: seq<CarouselItem>
    var subscribers: seq<Subscriber>

    var currentUserId: int
    var currentCulturalItemId: int
    var currentEventId: int
    var currentGalleryItemId: int
    var currentHeritageInfoId: int
    var currentCarouselItemId: int
    var currentSubscriberId: int

    /** Every table holds ids 1 .. counter - 1, in insertion order. */
    ghost predicate Valid()
      reads this
    {
      && WellNumbered(users, currentUserId)
      && WellNumbered(culturalItems, currentCulturalItemId)
      && WellNumbered(events, currentEventId)
      && WellNumbered(galleryItems, currentGalleryItemId)
      && WellNumbered(heritageInfo, currentHeritageInfoId)
      && WellNumbered(carouselItems, currentCarouselItemId)
      && WellNumbered(subscribers, currentSubscriberId)
    }

    ghost function State(): Tables
      reads this
    {
      Tables(users, currentUserId, culturalItems, currentCulturalItemId,
             events, currentEventId, galleryItems, currentGalleryItemId,
             heritageInfo, currentHeritageInfoId, carouselItems, currentCarouselItemId,
             subscribers, currentSubscriberId)
    }

    /** All counters start at 1; `initializeData` then seeds five tables through their counters. */
    constructor ()
      ensures Valid()
      ensures users == [] && currentUserId == 1
      ensures subscribers == [] && currentSubscriberId == 1
      ensures Holds(carouselItems, CarouselItemsData) && currentCarouselItemId == 4
      ensures Holds(culturalItems, CulturalItemsData) && currentCulturalItemId == 10
      ensures Holds(events, EventsData) && currentEventId == 7
      ensures Holds(galleryItems, GalleryItemsData) && currentGalleryItemId == 13
      ensures Holds(heritageInfo, HeritageInfoData) && currentHeritageInfoId == 9
    {
      // The counters start at 1; initializeData then runs one seeding loop per table.
      var carousel, nextCarousel := AppendAll([], 1, CarouselItemsData);
      var cultural, nextCultural := AppendAll([], 1, CulturalItemsData);
      var seededEvents, nextEvent := AppendAll([], 1, EventsData);
      var gallery, nextGallery := AppendAll([], 1, GalleryItemsData);
      var heritage, nextHeritage := AppendAll([], 1, HeritageInfoData);
      SeededFromEmpty(carousel, nextCarousel, CarouselItemsData);
      SeededFromEmpty(cultural, nextCultural, CulturalItemsData);
      SeededFromEmpty(seededEvents, nextEvent, EventsData);
      SeededFromEmpty(gallery, nextGallery, GalleryItemsData);
      SeededFromEmpty(heritage, nextHeritage, HeritageInfoData);
      SeedSizes();
      users, currentUserId := [], 1;
      subscribers, currentSubscriberId := [], 1;
      carouselItems, currentCarouselItemId := carousel, nextCarousel;
      culturalItems, currentCulturalItemId := cultural, nextCultural;
      events, currentEventId := seededEvents, nextEvent;
      galleryItems, currentGalleryItemId := gallery, nextGallery;
      heritageInfo, currentHeritageInfoId := heritage, nextHeritage;
    }

    // ---- users ----

    function GetUser(id: int): (r: Option<User>)
      reads this
      requires Valid()
      ensures r.Some? <==> 1 <= id < currentUserId
      ensures r.Some? ==> r.value == users[id - 1] && r.value.id == id
    {
      RowWithIdNumbered(users, currentUserId, id);
      RowWithId(users, id)
    }

    /** The first user, in insertion order, whose username is exactly `username`. */
    function GetUserByUsername(username: string): (r: Option<User>)
      reads this
      ensures r.Some? <==> exists i :: 0 <= i < |users| && users[i].fields.username == username
      ensures r.Some? ==> r.value.fields.username == username
      ensures r.Some? ==> exists i :: (0 <= i < |users| && users[i] == r.value &&
                                       forall j :: 0 <= j < i ==> users[j].fields.username != username)
    {
      Find(users, (u: User) => u.fields.username == username)
    }

    method CreateUser(insertUser: InsertUser) returns (user: User)
      requires Valid()
      modifies this
      ensures Valid()
      ensures user == Row(old(currentUserId), insertUser)
      ensures State() == old(State()).(users := old(users) + [user], currentUserId := old(currentUserId) + 1)
      ensures GetUser(user.id) == Some(user)
    {
      var id := currentUserId;
      currentUserId := currentUserId + 1;
      user := Row(id, insertUser);
      users := users + [user];
    }

    // ---- cultural items ----

    /** All cultural items in insertion order, which is ascending id order 1, 2, .... */
    function GetCulturalItems(): (r: seq<CulturalItem>)
      reads this
      requires Valid()
      ensures r == culturalItems
      ensures |r| == currentCulturalItemId - 1
      ensures forall i :: 0 <= i < |r| ==> r[i].id == i + 1
    {
      culturalItems
    }

    /** The cultural items whose category equals `category` exactly (case-sensitive), in insertion order. */
    function GetCulturalItemsByCategory(category: string): (r: seq<CulturalItem>)
      reads this
      requires Valid()
      ensures forall i :: 0 <= i < |r| ==> r[i] in culturalItems && r[i].fields.category == category
      ensures forall x :: x in culturalItems && x.fields.category == category ==> x in r
      ensures IdsAscending(r)
    {
      var p := (x: CulturalItem) => x.fields.category == category;
      WellNumberedAscending(culturalItems, currentCulturalItemId);
      FilterKeepsIdsAscending(culturalItems, p);
      Filter(culturalItems, p)
    }

    function GetCulturalItem(id: int): (r: Option<CulturalItem>)
      reads this
      requires Valid()
      ensures r.Some? <==> 1 <= id < currentCulturalItemId
      ensures r.Some? ==> r.value == culturalItems[id - 1] && r.value.id == id
    {
      RowWithIdNumbered(culturalItems, currentCulturalItemId, id);
      RowWithId(culturalItems, id)
    }

    method CreateCulturalItem(item: InsertCulturalItem) returns (newItem: CulturalItem)
      requires Valid()
      modifies this
      ensures Valid()
      ensures newItem == Row(old(currentCulturalItemId), item)
      ensures State() == old(State()).(culturalItems := old(culturalItems) + [newItem],
                                       currentCulturalItemId := old(currentCulturalItemId) + 1)
      ensures GetCulturalItem(newItem.id) == Some(newItem)
    {
      var id := currentCulturalItemId;
      currentCulturalItemId := currentCulturalItemId + 1;
      newItem := Row(id, item);
      culturalItems := culturalItems + [newItem];
    }

    // ---- events ----

    function GetEvents(): (r: seq<Event>)
      reads this
      requires Valid()
      ensures r == events
      ensures |r| == currentEventId - 1
      ensures forall i :: 0 <= i < |r| ==> r[i].id == i + 1
    {
      events
    }

    /** The events whose month equals `month` once both are lower-cased, in insertion order. */
    function GetEventsByMonth(month: string): (r: seq<Event>)
      reads this
      requires Valid()
      ensures forall i :: 0 <= i < |r| ==> r[i] in events && Lower(r[i].fields.month) == Lower(month)
      ensures forall x :: x in events && Lower(x.fields.month) == Lower(month) ==> x in r
      ensures IdsAscending(r)
    {
      var p := (x: Event) => Lower(x.fields.month) == Lower(month);
      WellNumberedAscending(events, currentEventId);
      FilterKeepsIdsAscending(events, p);
      Filter(events, p)
    }

    function GetEvent(id: int): (r: Option<Event>)
      reads this
      requires Valid()
      ensures r.Some? <==> 1 <= id < currentEventId
      ensures r.Some? ==> r.value == events[id - 1] && r.value.id == id
    {
      RowWithIdNumbered(events, currentEventId, id);
      RowWithId(events, id)
    }

    method CreateEvent(event: InsertEvent) returns (newEvent: Event)
      requires Valid()
      modifies this
      ensures Valid()
      ensures newEvent == Row(old(currentEventId), event)
      ensures State() == old(State()).(events := old(events) + [newEvent], currentEventId := old(currentEventId) + 1)
      ensures GetEvent(newEvent.id) == Some(newEvent)
    {
      var id := currentEventId;
      currentEventId := currentEventId + 1;
      newEvent := Row(id, event);
      events := events + [newEvent];
    }

    // ---- gallery items ----

    function GetGalleryItems(): (r: seq<GalleryItem>)
      reads this
      requires Valid()
      ensures r == galleryItems
      ensures |r| == currentGalleryItemId - 1
      ensures forall i :: 0 <= i < |r| ==> r[i].id == i + 1
    {
      galleryItems
    }

    /** The gallery items whose category equals `category` exactly (case-sensitive), in insertion order. */
    function GetGalleryItemsByCategory(category: string): (r: seq<GalleryItem>)
      reads this
      requires Valid()
      ensures forall i :: 0 <= i < |r| ==> r[i] in galleryItems && r[i].fields.category == category
      ensures forall x :: x in galleryItems && x.fields.category == category ==> x in r
      ensures IdsAscending(r)
    {
      var p := (x: GalleryItem) => x.fields.category == category;
      WellNumberedAscending(galleryItems, currentGalleryItemId);
      FilterKeepsIdsAscending(galleryItems, p);
      Filter(galleryItems, p)
    }

    function GetGalleryItem(id: int): (r: Option<GalleryItem>)
      reads this
      requires Valid()
      ensures r.Some? <==> 1 <= id < currentGalleryItemId
      ensures r.Some? ==> r.value == galleryItems[id - 1] && r.value.id == id
    {
      RowWithIdNumbered(galleryItems, currentGalleryItemId, id);
      RowWithId(galleryItems, id)
    }

    method CreateGalleryItem(item: InsertGalleryItem) returns (newItem: GalleryItem)
      requires Valid()
      modifies this
      ensures Valid()
      ensures newItem == Row(old(currentGalleryItemId), item)
      ensures State() == old(State()).(galleryItems := old(galleryItems) + [newItem],
                                       currentGalleryItemId := old(currentGalleryItemId) + 1)
      ensures GetGalleryItem(newItem.id) == Some(newItem)
    {
      var id := currentGalleryItemId;
      currentGalleryItemId := currentGalleryItemId + 1;
      newItem := Row(id, item);
      galleryItems := galleryItems + [newItem];
    }

    // ---- heritage info ----

    function GetHeritageInfo(): (r: seq<HeritageInfo>)
      reads this
      requires Valid()
      ensures r == heritageInfo
      ensures |r| == currentHeritageInfoId - 1
      ensures forall i :: 0 <= i < |r| ==> r[i].id == i + 1
    {
      heritageInfo
    }

    /** The heritage records whose category equals `category` exactly (case-sensitive), in insertion order. */
    function GetHeritageInfoByCategory(category: string): (r: seq<HeritageInfo>)
      reads this
      requires Valid()
      ensures forall i :: 0 <= i < |r| ==> r[i] in heritageInfo && r[i].fields.category == category
      ensures forall x :: x in heritageInfo && x.fields.category == category ==> x in r
      ensures IdsAscending(r)
    {
      var p := (x: HeritageInfo) => x.fields.category == category;
      WellNumberedAscending(heritageInfo, currentHeritageInfoId);
      FilterKeepsIdsAscending(heritageInfo, p);
      Filter(heritageInfo, p)
    }

    function GetHeritageInfoItem(id: int): (r: Option<HeritageInfo>)
      reads this
      requires Valid()
      ensures r.Some? <==> 1 <= id < currentHeritageInfoId
      ensures r.Some? ==> r.value == heritageInfo[id - 1] && r.value.id == id
    {
      RowWithIdNumbered(heritageInfo, currentHeritageInfoId, id);
      RowWithId(heritageInfo, id)
    }

    method CreateHeritageInfo(info: InsertHeritageInfo) returns (newInfo: HeritageInfo)
      requires Valid()
      modifies this
      ensures Valid()
      ensures newInfo == Row(old(currentHeritageInfoId), info)
      ensures State() == old(State()).(heritageInfo := old(heritageInfo) + [newInfo],
                                       currentHeritageInfoId := old(currentHeritageInfoId) + 1)
      ensures GetHeritageInfoItem(newInfo.id) == Some(newInfo)
    {
      var id := currentHeritageInfoId;
      currentHeritageInfoId := currentHeritageInfoId + 1;
      newInfo := Row(id, info);
      heritageInfo := heritageInfo + [newInfo];
    }

    // ---- carousel items ----

    /** The carousel records sorted by ascending `order`; records sharing an order keep insertion order. */
    function GetCarouselItems(): (r: seq<CarouselItem>)
      reads this
      ensures SortedByOrder(r)
      ensures multiset(r) == multiset(carouselItems)
      ensures forall k :: Filter(r, OrderIs(k)) == Filter(carouselItems, OrderIs(k))
    {
      var r := SortByOrder(carouselItems);
      assert forall k :: Filter(r, OrderIs(k)) == Filter(carouselItems, OrderIs(k)) by {
        forall k ensures Filter(r, OrderIs(k)) == Filter(carouselItems, OrderIs(k)) {
          SortByOrderStable(carouselItems, k);
        }
      }
      r
    }

    function GetCarouselItem(id: int): (r: Option<CarouselItem>)
      reads this
      requires Valid()
      ensures r.Some? <==> 1 <= id < currentCarouselItemId
      ensures r.Some? ==> r.value == carouselItems[id - 1] && r.value.id == id
    {
      RowWithIdNumbered(carouselItems, currentCarouselItemId, id);
      RowWithId(carouselItems, id)
    }

    method CreateCarouselItem(item: InsertCarouselItem) returns (newItem: CarouselItem)
      requires Valid()
      modifies this
      ensures Valid()
      ensures newItem == Row(old(currentCarouselItemId), item)
      ensures State() == old(State()).(carouselItems := old(carouselItems) + [newItem],
                                       currentCarouselItemId := old(currentCarouselItemId) + 1)
      ensures GetCarouselItem(newItem.id) == Some(newItem)
    {
      var id := currentCarouselItemId;
      currentCarouselItemId := currentCarouselItemId + 1;
      newItem := Row(id, item);
      carouselItems := carouselItems + [newItem];
    }

    // ---- subscribers ----

    function GetSubscribers(): (r: seq<Subscriber>)
      reads this
      requires Valid()
      ensures r == subscribers
      ensures |r| == currentSubscriberId - 1
      ensures forall i :: 0 <= i < |r| ==> r[i].id == i + 1
    {
      subscribers
    }

    /** The first subscriber, in insertion order, whose email is exactly `email`. */
    function GetSubscriberByEmail(email: string): (r: Option<Subscriber>)
      reads this
      ensures r.Some? <==> exists i :: 0 <= i < |subscribers| && subscribers[i].fields.email == email
      ensures r.Some? ==> r.value.fields.email == email
      ensures r.Some? ==> exists i :: (0 <= i < |subscribers| && subscribers[i] == r.value &&
                                       forall j :: 0 <= j < i ==> subscribers[j].fields.email != email)
    {
      Find(subscribers, (s: Subscriber) => s.fields.email == email)
    }

    /** Appends a subscriber stamped with `createdAt`. There is no duplicate check here:
        an email already present gets a second record. */
    method CreateSubscriber(subscriber: InsertSubscriber, createdAt: Timestamp) returns (newSubscriber: Subscriber)
      requires Valid()
      modifies this
      ensures Valid()
      ensures newSubscriber == Row(old(currentSubscriberId), SubscriberFields(subscriber.email, createdAt))
      ensures State() == old(State()).(subscribers := old(subscribers) + [newSubscriber],
                                       currentSubscriberId := old(currentSubscriberId) + 1)
      ensures GetSubscriberByEmail(subscriber.email).Some?
    {
      var id := currentSubscriberId;
      currentSubscriberId := currentSubscriberId + 1;
      newSubscriber := Row(id, SubscriberFields(subscriber.email, createdAt));
      subscribers := subscribers + [newSubscriber];
      assert subscribers[|subscribers| - 1].fields.email == subscriber.email;
    }
  }
}
