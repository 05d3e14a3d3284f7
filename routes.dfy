/** The decision logic of the HTTP handlers in server/routes.ts. A handler is modelled by what it asks
    the store and which response it chooses; the HTTP plumbing itself is not part of this model. */
module Routes {
  import opened Seqs
  import opened Text
  import opened Schema
  import opened Storage

  /** The responses the handlers send: `res.json(x)` (200), 201 with a message and the created record,
      and the 400 and 404 error bodies, each with a `message`. The 400 body of a failed schema
      validation also carries the validator's error list, which is not modelled. */
  datatype Response<T> =
    | Ok(body: T)
    | Created(message: string, body: T)
    | BadRequest(message: string)
    | NotFound(message: string)
  {
    function Status(): int
    {
      match this
      case Ok(_) => 200
      case Created(_, _) => 201
      case BadRequest(_) => 400
      case NotFound(_) => 404
    }
  }

  // ---- parseInt on a path segment ----

  /** The value of `c` as a digit in bases up to 36, or 36 when `c` is no digit at all. */
  function DigitValue(c: char): (v: nat)
    ensures v <= 36
    ensures v < 10 <==> '0' <= c <= '9'
  {
    if '0' <= c <= '9' then c as int - '0' as int
    else if 'a' <= c <= 'z' then c as int - 'a' as int + 10
    else if 'A' <= c <= 'Z' then c as int - 'A' as int + 10
    else 36
  }

  predicate IsDigit(c: char, radix: nat)
  {
    DigitValue(c) < radix
  }

  /** The length of the longest prefix of `s` made of digits of the given radix. */
  function DigitRun(s: string, radix: nat): (n: nat)
    ensures n <= |s|
    ensures forall i :: 0 <= i < n ==> IsDigit(s[i], radix)
    ensures n < |s| ==> !IsDigit(s[n], radix)
  {
    if s != [] && IsDigit(s[0], radix) then 1 + DigitRun(s[1..], radix) else 0
  }

  /** The number a run of digits denotes, most significant digit first. */
  function DigitsValue(ds: string, radix: nat): nat
  {
    if ds == [] then 0 else DigitsValue(ds[..|ds| - 1], radix) * radix + DigitValue(ds[|ds| - 1])
  }

  /** The digits after an optional leading sign. */
  function Unsigned(t: string): (u: string)
    ensures u == t || (t != [] && u == t[1..])
  {
    if t != [] && (t[0] == '-' || t[0] == '+') then t[1..] else t
  }

  /** The digits start with `0x` or `0X`, which selects base 16. */
  predicate HexPrefix(u: string)
  {
    |u| >= 2 && u[0] == '0' && (u[1] == 'x' || u[1] == 'X')
  }

  /** The value of the longest digit run at the start of `digits`, or None when there is none. */
  function LeadingNumber(digits: string, radix: nat): (r: Option<nat>)
    ensures r.None? <==> digits == [] || !IsDigit(digits[0], radix)
  {
    var n := DigitRun(digits, radix);
    if n == 0 then None else Some(DigitsValue(digits[..n], radix))
  }

  /** `parseInt(s)` without a radix: leading white space is skipped, one sign is read, a `0x`/`0X`
      prefix selects base 16, and the longest run of digits that follows is the value. None stands
      for NaN, the result when that run is empty. */
  function ParseInt(s: string): (r: Option<int>)
    ensures r.Some? && r.value < 0 ==> TrimStart(s) != [] && TrimStart(s)[0] == '-'
    ensures r.Some? && TrimStart(s) != [] && TrimStart(s)[0] == '-' ==> r.value <= 0
  {
    var t := TrimStart(s);
    var u := Unsigned(t);
    var magnitude := if HexPrefix(u) then LeadingNumber(u[2..], 16) else LeadingNumber(u, 10);
    match magnitude
    case None => None
    case Some(m) =>
      var v: int := m;
      if t != [] && t[0] == '-' then Some(-v) else Some(v)
  }

  function DigitChar(d: nat): (c: char)
    requires d < 10
    ensures '0' <= c <= '9' && DigitValue(c) == d
  {
    ('0' as int + d) as char
  }

  /** `String(n)` for a natural number: its decimal digits without leading zeros. */
  function DecimalText(n: nat): (s: string)
    ensures s != []
    ensures forall i :: 0 <= i < |s| ==> '0' <= s[i] <= '9'
  {
    if n < 10 then [DigitChar(n)] else DecimalText(n / 10) + [DigitChar(n % 10)]
  }

  lemma {:induction false} DecimalTextValue(n: nat)
    ensures DigitsValue(DecimalText(n), 10) == n
  {
    var s := DecimalText(n);
    if n < 10 {
      assert s[..0] == [];
    } else {
      DecimalTextValue(n / 10);
      assert s[..|s| - 1] == DecimalText(n / 10);
    }
  }

  lemma {:induction false} DigitRunAll(s: string, radix: nat)
    requires forall i :: 0 <= i < |s| ==> IsDigit(s[i], radix)
    ensures DigitRun(s, radix) == |s|
  {
    if s != [] {
      DigitRunAll(s[1..], radix);
    }
  }

  /** When every character is a digit, the whole string is the number. */
  lemma LeadingNumberAll(s: string, radix: nat)
    requires s != []
    requires forall i :: 0 <= i < |s| ==> IsDigit(s[i], radix)
    ensures LeadingNumber(s, radix) == Some(DigitsValue(s, radix))
  {
    DigitRunAll(s, radix);
    assert s[..|s|] == s;
  }

  /** A non-empty run of decimal digits parses to the number it denotes. */
  lemma ParseIntDigits(s: string)
    requires s != []
    requires forall i :: 0 <= i < |s| ==> '0' <= s[i] <= '9'
    ensures ParseInt(s) == Some(DigitsValue(s, 10))
  {
    TrimStartKeeps(s);
    assert Unsigned(s) == s && !HexPrefix(s) by {
      assert s[0] != '-' && s[0] != '+';
      assert |s| >= 2 ==> s[1] != 'x' && s[1] != 'X';
    }
    LeadingNumberAll(s, 10);
  }

  /** A path segment written as a natural number in decimal parses back to that number. */
  lemma ParseIntDecimal(n: nat)
    ensures ParseInt(DecimalText(n)) == Some(n)
  {
    ParseIntDigits(DecimalText(n));
    DecimalTextValue(n);
  }

  /** No character of `s` is a decimal digit. */
  predicate NoDigitIn(s: string)
  {
    forall i :: 0 <= i < |s| ==> !('0' <= s[i] <= '9')
  }

  /** A segment without any decimal digit parses to NaN. */
  lemma ParseIntNoDigit(s: string)
    requires NoDigitIn(s)
    ensures ParseInt(s) == None
  {
    var t := TrimStart(s);
    var u := Unsigned(t);
    assert NoDigitIn(u) by {
      assert forall i :: 0 <= i < |t| ==> t[i] == s[|s| - |t| + i];
    }
    assert !HexPrefix(u) && LeadingNumber(u, 10) == None by {
      assert u != [] ==> !('0' <= u[0] <= '9');
    }
  }

  // ---- GET handlers: each only reads the store ----

  /** `if (!record) return 404 { message }; res.json(record)`. */
  function FoundOr<T>(record: Option<T>, missing: string): (r: Response<T>)
    ensures r.Ok? <==> record.Some?
    ensures r.Ok? ==> r.body == record.value
    ensures !r.Ok? ==> r == NotFound(missing)
  {
    match record
    case None => NotFound(missing)
    case Some(x) => Ok(x)
  }

  /** GET /api/cultural-items */
  function CulturalItemsRoute(store: MemStorage): (r: Response<seq<CulturalItem>>)
    reads store
    requires store.Valid()
    ensures r.Ok? && |r.body| == store.currentCulturalItemId - 1
    ensures forall i :: 0 <= i < |r.body| ==> r.body[i] == store.culturalItems[i] && r.body[i].id == i + 1
  {
    Ok(store.GetCulturalItems())
  }

  /** GET /api/cultural-items/category/:category: the raw parameter goes to the store unchanged,
      so the match is exact and case-sensitive. */
  function CulturalItemsByCategoryRoute(store: MemStorage, category: string): (r: Response<seq<CulturalItem>>)
    reads store
    requires store.Valid()
    ensures r.Ok?
    ensures forall i :: 0 <= i < |r.body| ==> r.body[i] in store.culturalItems && r.body[i].fields.category == category
    ensures forall x :: x in store.culturalItems && x.fields.category == category ==> x in r.body
    ensures IdsAscending(r.body)
  {
    Ok(store.GetCulturalItemsByCategory(category))
  }

  /** GET /api/cultural-items/:id */
  function CulturalItemRoute(store: MemStorage, idParam: string): (r: Response<CulturalItem>)
    reads store
    requires store.Valid()
    ensures r.Ok? || r == NotFound("Cultural item not found")
    ensures r.Ok? <==> ParseInt(idParam).Some? && 1 <= ParseInt(idParam).value < store.currentCulturalItemId
    ensures r.Ok? ==> r.body == store.culturalItems[ParseInt(idParam).value - 1]
  {
    match ParseInt(idParam)
    case None => NotFound("Cultural item not found")
    case Some(id) => FoundOr(store.GetCulturalItem(id), "Cultural item not found")
  }

  /** GET /api/events */
  function EventsRoute(store: MemStorage): (r: Response<seq<Event>>)
    reads store
    requires store.Valid()
    ensures r.Ok? && |r.body| == store.currentEventId - 1
    ensures forall i :: 0 <= i < |r.body| ==> r.body[i] == store.events[i] && r.body[i].id == i + 1
  {
    Ok(store.GetEvents())
  }

  /** GET /api/events/month/:month: the raw parameter goes to the store, which ignores case. */
  function EventsByMonthRoute(store: MemStorage, month: string): (r: Response<seq<Event>>)
    reads store
    requires store.Valid()
    ensures r.Ok?
    ensures forall i :: 0 <= i < |r.body| ==> r.body[i] in store.events && Lower(r.body[i].fields.month) == Lower(month)
    ensures forall x :: x in store.events && Lower(x.fields.month) == Lower(month) ==> x in r.body
    ensures IdsAscending(r.body)
  {
    Ok(store.GetEventsByMonth(month))
  }

  /** GET /api/events/:id */
  function EventRoute(store: MemStorage, idParam: string): (r: Response<Event>)
    reads store
    requires store.Valid()
    ensures r.Ok? || r == NotFound("Event not found")
    ensures r.Ok? <==> ParseInt(idParam).Some? && 1 <= ParseInt(idParam).value < store.currentEventId
    ensures r.Ok? ==> r.body == store.events[ParseInt(idParam).value - 1]
  {
    match ParseInt(idParam)
    case None => NotFound("Event not found")
    case Some(id) => FoundOr(store.GetEvent(id), "Event not found")
  }

  /** GET /api/gallery-items */
  function GalleryItemsRoute(store: MemStorage): (r: Response<seq<GalleryItem>>)
    reads store
    requires store.Valid()
    ensures r.Ok? && |r.body| == store.currentGalleryItemId - 1
    ensures forall i :: 0 <= i < |r.body| ==> r.body[i] == store.galleryItems[i] && r.body[i].id == i + 1
  {
    Ok(store.GetGalleryItems())
  }

  /** GET /api/gallery-items/category/:category: exact, case-sensitive. */
  function GalleryItemsByCategoryRoute(store: MemStorage, category: string): (r: Response<seq<GalleryItem>>)
    reads store
    requires store.Valid()
    ensures r.Ok?
    ensures forall i :: 0 <= i < |r.body| ==> r.body[i] in store.galleryItems && r.body[i].fields.category == category
    ensures forall x :: x in store.galleryItems && x.fields.category == category ==> x in r.body
    ensures IdsAscending(r.body)
  {
    Ok(store.GetGalleryItemsByCategory(category))
  }

  /** GET /api/gallery-items/:id */
  function GalleryItemRoute(store: MemStorage, idParam: string): (r: Response<GalleryItem>)
    reads store
    requires store.Valid()
    ensures r.Ok? || r == NotFound("Gallery item not found")
    ensures r.Ok? <==> ParseInt(idParam).Some? && 1 <= ParseInt(idParam).value < store.currentGalleryItemId
    ensures r.Ok? ==> r.body == store.galleryItems[ParseInt(idParam).value - 1]
  {
    match ParseInt(idParam)
    case None => NotFound("Gallery item not found")
    case Some(id) => FoundOr(store.GetGalleryItem(id), "Gallery item not found")
  }

  /** GET /api/heritage-info */
  function HeritageInfoRoute(store: MemStorage): (r: Response<seq<HeritageInfo>>)
    reads store
    requires store.Valid()
    ensures r.Ok? && |r.body| == store.currentHeritageInfoId - 1
    ensures forall i :: 0 <= i < |r.body| ==> r.body[i] == store.heritageInfo[i] && r.body[i].id == i + 1
  {
    Ok(store.GetHeritageInfo())
  }

  /** GET /api/heritage-info/category/:category: exact, case-sensitive. */
  function HeritageInfoByCategoryRoute(store: MemStorage, category: string): (r: Response<seq<HeritageInfo>>)
    reads store
    requires store.Valid()
    ensures r.Ok?
    ensures forall i :: 0 <= i < |r.body| ==> r.body[i] in store.heritageInfo && r.body[i].fields.category == category
    ensures forall x :: x in store.heritageInfo && x.fields.category == category ==> x in r.body
    ensures IdsAscending(r.body)
  {
    Ok(store.GetHeritageInfoByCategory(category))
  }

  /** GET /api/heritage-info/:id */
  function HeritageInfoItemRoute(store: MemStorage, idParam: string): (r: Response<HeritageInfo>)
    reads store
    requires store.Valid()
    ensures r.Ok? || r == NotFound("Heritage info not found")
    ensures r.Ok? <==> ParseInt(idParam).Some? && 1 <= ParseInt(idParam).value < store.currentHeritageInfoId
    ensures r.Ok? ==> r.body == store.heritageInfo[ParseInt(idParam).value - 1]
  {
    match ParseInt(idParam)
    case None => NotFound("Heritage info not found")
    case Some(id) => FoundOr(store.GetHeritageInfoItem(id), "Heritage info not found")
  }

  /** GET /api/carousel-items */
  function CarouselItemsRoute(store: MemStorage): (r: Response<seq<CarouselItem>>)
    reads store
    ensures r.Ok? && SortedByOrder(r.body)
    ensures multiset(r.body) == multiset(store.carouselItems)
    ensures forall k :: Filter(r.body, OrderIs(k)) == Filter(store.carouselItems, OrderIs(k))
  {
    Ok(store.GetCarouselItems())
  }

  /** A numeric id written in decimal reaches exactly the record stored under it. */
  lemma EventRouteDecimal(store: MemStorage, n: nat)
    requires store.Valid()
    ensures EventRoute(store, DecimalText(n)) ==
            if 1 <= n < store.currentEventId then Ok(store.events[n - 1]) else NotFound("Event not found")
  {
    ParseIntDecimal(n);
  }

  // ---- POST /api/subscribe ----

  /** The `email` member of a request body as JSON delivered it. */
  datatype EmailField = Missing | NotText | Str(value: string)

  datatype SubscribeBody = SubscribeBody(email: EmailField)

  /** `insertSubscriberSchema.parse(body)`: the schema is derived from a non-null text column, so it
      accepts exactly a body whose `email` is a string; None stands for the ZodError. */
  function ParseSubscriber(body: SubscribeBody): (r: Option<InsertSubscriber>)
    ensures r.Some? <==> body.email.Str?
    ensures r.Some? ==> r.value.email == body.email.value
  {
    match body.email
    case Str(e) => Some(InsertSubscriber(e))
    case _ => None
  }

  /** No two subscribers share an email. */
  predicate DistinctEmails(subscribers: seq<Subscriber>)
  {
    forall i, j :: 0 <= i < j < |subscribers| ==> subscribers[i].fields.email != subscribers[j].fields.email
  }

  /** Appending a subscriber whose email is new keeps the emails distinct. */
  lemma DistinctEmailsAppend(subscribers: seq<Subscriber>, s: Subscriber)
    requires DistinctEmails(subscribers)
    requires forall i :: 0 <= i < |subscribers| ==> subscribers[i].fields.email != s.fields.email
    ensures DistinctEmails(subscribers + [s])
  {
    var all := subscribers + [s];
    forall i, j | 0 <= i < j < |all| ensures all[i].fields.email != all[j].fields.email {
      assert all[i] == subscribers[i];
      if j < |subscribers| {
        assert all[j] == subscribers[j];
      }
    }
  }

  /** The subscribe handler: validate, refuse a known email, otherwise create. Only the last branch
      touches the store, and it adds exactly one subscriber, so distinct emails stay distinct. */
  method Subscribe(store: MemStorage, body: SubscribeBody, now: Timestamp) returns (r: Response<Subscriber>)
    requires store.Valid()
    modifies store
    ensures store.Valid()
    ensures !body.email.Str? ==>
              r == BadRequest("Invalid email address") && store.State() == old(store.State())
    ensures body.email.Str? && old(store.GetSubscriberByEmail(body.email.value)).Some? ==>
              r == BadRequest("Email already subscribed") && store.State() == old(store.State())
    ensures body.email.Str? && old(store.GetSubscriberByEmail(body.email.value)).None? ==>
              && r == Created("Successfully subscribed to newsletter",
                              Row(old(store.currentSubscriberId), SubscriberFields(body.email.value, now)))
              && store.State() == old(store.State()).(subscribers := old(store.subscribers) + [r.body],
                                                      currentSubscriberId := old(store.currentSubscriberId) + 1)
    ensures old(DistinctEmails(store.subscribers)) ==> DistinctEmails(store.subscribers)
  {
    var validated := ParseSubscriber(body);
    if validated.None? {
      return BadRequest("Invalid email address");
    }
    var existing := store.GetSubscriberByEmail(validated.value.email);
    if existing.Some? {
      return BadRequest("Email already subscribed");
    }
    ghost var distinct := DistinctEmails(store.subscribers);
    if distinct {
      DistinctEmailsAppend(store.subscribers, Row(store.currentSubscriberId, SubscriberFields(validated.value.email, now)));
    }
    var subscriber := store.CreateSubscriber(validated.value, now);
    r := Created("Successfully subscribed to newsletter", subscriber);
  }
}
