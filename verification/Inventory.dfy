/** Paged listing of a tenant's keys, newest first. */
module Inventory {
  import opened Prelude
  import opened KeyStore

  const MAX_KEY_LIST_LIMIT: int := 100
  const I64_MAX: int := 0x7FFF_FFFF_FFFF_FFFF

  predicate Matches(row: Row, clientId: nat, kind: Option<KeyKind>) {
    row.clientId == clientId && (kind.None? || row.kind == kind.value)
  }

  /** `ORDER BY created_at DESC, id DESC`. */
  predicate Newer(a: Row, b: Row) {
    a.createdAt > b.createdAt || (a.createdAt == b.createdAt && a.id > b.id)
  }

  /** Strictly newest first: in particular no row twice. */
  predicate NewestFirst(list: seq<Row>) {
    forall i, j :: 0 <= i < j < |list| ==> Newer(list[i], list[j])
  }

  /** The identifiers of the matching rows. */
  function MatchingIds(rows: map<nat, Row>, clientId: nat, kind: Option<KeyKind>): set<nat> {
    set id | id in rows && Matches(rows[id], clientId, kind)
  }

  /** `list` is the tenant's matching keys, each once, newest first. */
  ghost predicate IsListing(rows: map<nat, Row>, clientId: nat, kind: Option<KeyKind>, list: seq<Row>) {
    && NewestFirst(list)
    && (forall row :: row in list <==> row.id in MatchingIds(rows, clientId, kind) && rows[row.id] == row)
  }

  /** The newest of some rows. */
  predicate IsNewest(rows: map<nat, Row>, ids: set<nat>, newest: nat)
    requires ids <= rows.Keys
  {
    newest in ids && forall id :: id in ids && id != newest ==> Newer(rows[newest], rows[id])
  }

  lemma {:induction false} NewestExists(rows: map<nat, Row>, ids: set<nat>) returns (newest: nat)
    requires TableOK(rows) && ids <= rows.Keys && ids != {}
    ensures IsNewest(rows, ids, newest)
    decreases |ids|
  {
    var id :| id in ids;
    if ids == {id} {
      newest := id;
    } else {
      var rest := ids - {id};
      assert rest != {} by {
        assert ids == rest + {id};
      }
      newest := NewestExists(rows, rest);
      if Newer(rows[id], rows[newest]) {
        newest := id;
      }
    }
  }

  function Sorted(rows: map<nat, Row>, ids: set<nat>): seq<Row>
    requires TableOK(rows) && ids <= rows.Keys
    decreases |ids|
  {
    if ids == {} then []
    else
      assert exists newest :: IsNewest(rows, ids, newest) by {
        var newest := NewestExists(rows, ids);
      }
      var newest :| IsNewest(rows, ids, newest);
      [rows[newest]] + Sorted(rows, ids - {newest})
  }

  lemma {:induction false} SortedIsListing(rows: map<nat, Row>, ids: set<nat>)
    requires TableOK(rows) && ids <= rows.Keys
    ensures NewestFirst(Sorted(rows, ids))
    ensures forall row :: row in Sorted(rows, ids) <==> row.id in ids && rows[row.id] == row
    decreases |ids|
  {
    if ids != {} {
      var first := Sorted(rows, ids)[0];
      SortedIsListing(rows, ids - {first.id});
    }
  }

  /** The listing is the only one. */
  lemma {:induction false} ListingUnique(a: seq<Row>, b: seq<Row>)
    requires NewestFirst(a) && NewestFirst(b) && forall row :: row in a <==> row in b
    ensures a == b
    decreases |a|
  {
    if a == [] {
      if b != [] {
        FirstIsIn(b);
      }
    } else {
      assert a[0] in a && a[0] in b;
      assert b[0] in b && b[0] in a;
      assert a[0] == b[0];
      forall row
        ensures row in a[1..] <==> row in b[1..]
      {
        InTail(a, row);
        InTail(b, row);
      }
      ListingUnique(a[1..], b[1..]);
    }
  }

  lemma FirstIsIn(list: seq<Row>)
    requires list != []
    ensures list[0] in list
  {
  }

  lemma InTail(list: seq<Row>, row: Row)
    requires list != [] && NewestFirst(list)
    ensures row in list[1..] <==> row in list && row != list[0]
  {
  }

  function Listing(rows: map<nat, Row>, clientId: nat, kind: Option<KeyKind>): (list: seq<Row>)
    requires TableOK(rows)
    ensures IsListing(rows, clientId, kind, list)
  {
    SortedIsListing(rows, MatchingIds(rows, clientId, kind));
    Sorted(rows, MatchingIds(rows, clientId, kind))
  }

  /** The listing over fields: exactly the tenant's keys of the kind asked for, each once, by creation
      time and then identifier, both descending. */
  lemma {:induction false} ListingSpelled(rows: map<nat, Row>, clientId: nat, kind: Option<KeyKind>)
    requires TableOK(rows)
    ensures var list := Listing(rows, clientId, kind);
            && (forall i :: 0 <= i < |list| ==>
                  && list[i].id in rows && rows[list[i].id] == list[i]
                  && list[i].clientId == clientId && (kind.Some? ==> list[i].kind == kind.value))
            && (forall id :: id in rows && rows[id].clientId == clientId && (kind.Some? ==> rows[id].kind == kind.value) ==> rows[id] in list)
            && (forall i, j :: 0 <= i < j < |list| ==>
                  list[j].createdAt < list[i].createdAt || (list[j].createdAt == list[i].createdAt && list[j].id < list[i].id))
  {
    var list := Listing(rows, clientId, kind);
    forall i | 0 <= i < |list|
      ensures list[i].id in rows && rows[list[i].id] == list[i] && list[i].clientId == clientId && (kind.Some? ==> list[i].kind == kind.value)
    {
      assert list[i] in list;
    }
  }

  // ----- pages -------------------------------------------------------------------------

  datatype Page = Page(keys: seq<Row>, hasMore: bool)

  /** `LIMIT limit OFFSET offset`. */
  function Slice(list: seq<Row>, limit: nat, offset: nat): seq<Row> {
    list[Min(offset, |list|)..Min(offset + limit, |list|)]
  }

  /** What a page says of a listing that does not change: a key follows exactly when told so. */
  predicate IsPage(list: seq<Row>, limit: nat, offset: nat, page: Page) {
    page.keys == Slice(list, limit, offset) && (page.hasMore <==> offset + limit < |list|)
  }

  /** A page of one key is empty exactly at or past the end. */
  lemma PeekTells(list: seq<Row>, offset: nat)
    ensures Slice(list, 1, offset) != [] <==> offset < |list|
  {
  }

  function Concat(pages: seq<Page>): seq<Row> {
    if pages == [] then [] else pages[0].keys + Concat(pages[1..])
  }

  /** Pages read one after another from `offset` on, as long as more was told to follow. */
  predicate Followed(list: seq<Row>, limit: nat, offset: nat, pages: seq<Page>)
    decreases |pages|
  {
    && pages != [] && IsPage(list, limit, offset, pages[0])
    && (if pages[0].hasMore then Followed(list, limit, offset + limit, pages[1..]) else |pages| == 1)
  }

  /** Following pages comes to an end. */
  lemma {:induction false} FollowingEnds(list: seq<Row>, limit: nat, offset: nat) returns (pages: seq<Page>)
    requires limit > 0
    ensures Followed(list, limit, offset, pages)
    decreases |list| - offset
  {
    var page := Page(Slice(list, limit, offset), offset + limit < |list|);
    if page.hasMore {
      var rest := FollowingEnds(list, limit, offset + limit);
      pages := [page] + rest;
      assert pages[1..] == rest;
    } else {
      pages := [page];
    }
  }

  /** Following pages yields the rest of the listing, and takes as many pages as it takes. */
  lemma {:induction false} FollowedYieldsRest(list: seq<Row>, limit: nat, offset: nat, pages: seq<Page>)
    requires limit > 0 && offset <= |list| && Followed(list, limit, offset, pages)
    ensures Concat(pages) == list[offset..]
    ensures (|pages| - 1) * limit <= Max(|list| - offset, 1) - 1 < |pages| * limit
    decreases |pages|
  {
    if pages[0].hasMore {
      FollowedYieldsRest(list, limit, offset + limit, pages[1..]);
      assert list[offset..offset + limit] + list[offset + limit..] == list[offset..];
    } else {
      assert Concat(pages[1..]) == [];
    }
  }
}
