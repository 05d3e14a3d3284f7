/** The record shapes of shared/schema.ts. A stored record is the insert shape
    of its table plus the id the store assigned (`{ ...item, id }`). */
module Schema {
  import opened Seqs

  /** A stored record: the id assigned by its table and the caller-supplied fields. */
  datatype Row<T> = Row(id: int, fields: T)

  datatype InsertUser = InsertUser(username: string, password: string)

  /** `featured` has a database default but is optional on insert; the in-memory store keeps it as given. */
  datatype InsertCulturalItem = InsertCulturalItem(
    title: string, description: string, imageUrl: string,
    category: string, state: string, featured: Option<bool>)

  /** A point in time, as the ISO-8601 text a `Date` serialises to. */
  type Timestamp = string

  datatype InsertEvent = InsertEvent(
    title: string, description: string, date: Timestamp, month: string, day: int,
    time: string, location: string, category: string, imageUrl: Option<string>)

  datatype InsertGalleryItem = InsertGalleryItem(
    title: string, location: string, imageUrl: string, category: string)

  datatype InsertHeritageInfo = InsertHeritageInfo(
    title: string, description: string, imageUrl: Option<string>, category: string)

  datatype InsertCarouselItem = InsertCarouselItem(
    title: string, description: string, imageUrl: string, order: int)

  /** The only field a subscription request supplies. */
  datatype InsertSubscriber = InsertSubscriber(email: string)

  /** A stored subscriber also carries the creation time the store stamps on it. */
  datatype SubscriberFields = SubscriberFields(email: string, createdAt: Timestamp)

  type User = Row<InsertUser>
  type CulturalItem = Row<InsertCulturalItem>
  type Event = Row<InsertEvent>
  type GalleryItem = Row<InsertGalleryItem>
  type HeritageInfo = Row<InsertHeritageInfo>
  type CarouselItem = Row<InsertCarouselItem>
  type Subscriber = Row<SubscriberFields>

  /** The shape every table keeps: the record at position i has id i + 1,
      and the table's counter is the id the next record will get. */
  predicate WellNumbered<T>(rows: seq<Row<T>>, next: int)
  {
    next == |rows| + 1 && forall i :: 0 <= i < |rows| ==> rows[i].id == i + 1
  }

  /** Insertion order is ascending id order. */
  predicate IdsAscending<T>(rows: seq<Row<T>>)
  {
    forall i, j :: 0 <= i < j < |rows| ==> rows[i].id < rows[j].id
  }

  /** A well-numbered table lists its records by strictly ascending id. */
  lemma WellNumberedAscending<T>(rows: seq<Row<T>>, next: int)
    requires WellNumbered(rows, next)
    ensures IdsAscending(rows)
  {
  }

  /** `Map.get(id)` over a table: the record stored under `id`, if any. */
  function RowWithId<T>(rows: seq<Row<T>>, id: int): (r: Option<Row<T>>)
    ensures r.Some? ==> r.value in rows && r.value.id == id
    ensures r.None? ==> forall i :: 0 <= i < |rows| ==> rows[i].id != id
  {
    Find(rows, (x: Row<T>) => x.id == id)
  }

  /** In a well-numbered table exactly the ids 1 .. next - 1 are present, id k at position k - 1. */
  lemma RowWithIdNumbered<T>(rows: seq<Row<T>>, next: int, id: int)
    requires WellNumbered(rows, next)
    ensures RowWithId(rows, id) == if 1 <= id < next then Some(rows[id - 1]) else None
  {
    var r := RowWithId(rows, id);
    if r.Some? {
      var i :| 0 <= i < |rows| && rows[i] == r.value;
      assert rows[i].id == i + 1;
    }
  }

  /** A record below every id of an ascending table can be put in front of it. */
  lemma ConsIdsAscending<T>(head: Row<T>, rest: seq<Row<T>>)
    requires IdsAscending(rest)
    requires forall k :: 0 <= k < |rest| ==> head.id < rest[k].id
    ensures IdsAscending([head] + rest)
  {
    var r := [head] + rest;
    forall i, j | 0 <= i < j < |r| ensures r[i].id < r[j].id {
      assert r[j] == rest[j - 1];
      if i > 0 {
        assert r[i] == rest[i - 1];
      }
    }
  }

  /** Filtering a table keeps its records in ascending id order. */
  lemma {:induction false} FilterKeepsIdsAscending<T>(rows: seq<Row<T>>, p: Row<T> -> bool)
    requires IdsAscending(rows)
    ensures IdsAscending(Filter(rows, p))
  {
    if rows != [] {
      var head, tail := rows[0], rows[1..];
      assert IdsAscending(tail) by {
        forall i, j | 0 <= i < j < |tail| ensures tail[i].id < tail[j].id {
          assert tail[i] == rows[i + 1] && tail[j] == rows[j + 1];
        }
      }
      FilterKeepsIdsAscending(tail, p);
      var rest := Filter(tail, p);
      if p(head) {
        assert Filter(rows, p) == [head] + rest;
        forall k | 0 <= k < |rest| ensures head.id < rest[k].id {
          var m :| 0 <= m < |tail| && tail[m] == rest[k];
          assert tail[m] == rows[m + 1];
        }
        ConsIdsAscending(head, rest);
      } else {
        assert Filter(rows, p) == rest;
      }
    }
  }
}
