/** Concrete runs of the store and the handlers, each starting from a freshly constructed store. */
module Scenarios {
  import opened Schema
  import opened Storage
  import opened Routes

  /** Subscribing the same address twice: the first request is created (201), the second is refused
      with 400 and the table still holds one subscriber. */
  method SubscribeTwice(email: string, now: Timestamp) returns (first: int, second: int, count: int)
    ensures first == 201 && second == 400 && count == 1
  {
    var store := new MemStorage();
    var r1 := Subscribe(store, SubscribeBody(Str(email)), now);
    var r2 := Subscribe(store, SubscribeBody(Str(email)), now);
    assert r2 == BadRequest("Email already subscribed") by {
      assert store.subscribers[0].fields.email == email;
    }
    first, second, count := r1.Status(), r2.Status(), |store.subscribers|;
  }

  /** A body without a string email is refused before the store is asked anything. */
  method SubscribeInvalid(now: Timestamp) returns (status: int, message: string, count: int)
    ensures status == 400 && message == "Invalid email address" && count == 0
  {
    var store := new MemStorage();
    var r := Subscribe(store, SubscribeBody(NotText), now);
    status, message, count := r.Status(), r.message, |store.subscribers|;
  }

  /** The store itself does not refuse duplicates: two creates with one address give two records. */
  method CreateSubscriberTwice(email: string, now: Timestamp) returns (ids: seq<int>, count: int)
    ensures ids == [1, 2] && count == 2
  {
    var store := new MemStorage();
    var s1 := store.CreateSubscriber(InsertSubscriber(email), now);
    var s2 := store.CreateSubscriber(InsertSubscriber(email), now);
    ids, count := [s1.id, s2.id], |store.subscribers|;
  }

  /** The users table starts empty, so its records are numbered 1, 2, 3. */
  method ThreeUsers(a: InsertUser, b: InsertUser, c: InsertUser) returns (ids: seq<int>)
    ensures ids == [1, 2, 3]
  {
    var store := new MemStorage();
    var u1 := store.CreateUser(a);
    var u2 := store.CreateUser(b);
    var u3 := store.CreateUser(c);
    ids := [u1.id, u2.id, u3.id];
  }

  /** After seeding, each seeded table continues numbering right after its sample records. */
  method CreatesAfterSeeding(carousel: InsertCarouselItem, cultural: InsertCulturalItem, event: InsertEvent,
                             gallery: InsertGalleryItem, heritage: InsertHeritageInfo)
    returns (ids: seq<int>)
    ensures ids == [4, 10, 7, 13, 9]
  {
    var store := new MemStorage();
    var c := store.CreateCarouselItem(carousel);
    var k := store.CreateCulturalItem(cultural);
    var e := store.CreateEvent(event);
    var g := store.CreateGalleryItem(gallery);
    var h := store.CreateHeritageInfo(heritage);
    ids := [c.id, k.id, e.id, g.id, h.id];
  }

  /** A created event is served by GET /api/events/:id under its id written in decimal. */
  method CreateThenFetchEvent(event: InsertEvent) returns (created: Event, fetched: Response<Event>)
    ensures created.id == 7 && created.fields == event
    ensures fetched == Ok(created)
  {
    var store := new MemStorage();
    created := store.CreateEvent(event);
    EventRouteDecimal(store, 7);
    fetched := EventRoute(store, DecimalText(7));
  }
}
