/** The cursor walk over a provider inventory (`_list_resources`,
    kestrel_cloud_runpod/clients.py). Its result is used as proof of absence, so a partial
    inventory must never be mistaken for the whole one. */
module Inventory {

  import opened Results

  /** An inventory item; None stands for an identity that is missing or empty. */
  datatype Item = Item(id: Option<string>, body: int)

  /** The decoded pagination object. `cursor` is None for JSON null. */
  datatype Pagination = Pagination(hasNext: Option<bool>, cursorPresent: bool, cursor: Option<string>)

  /** One response; a transport failure or a malformed envelope has no payload. */
  datatype Response = NoPayload | Payload(items: seq<Item>, pagination: Option<Pagination>)

  /** Any server: it may answer by call count and by the cursor it is given. */
  type Server = (nat, Option<string>) -> Response

  datatype Walk = Complete(items: seq<Item>) | Failed

  /** What `str.strip` removes. */
  predicate WhiteSpace(c: char) {
    var code := c as int;
    || 0x09 <= code <= 0x0D || 0x1C <= code <= 0x20 || code == 0x85 || code == 0xA0 || code == 0x1680
    || 0x2000 <= code <= 0x200A || code == 0x2028 || code == 0x2029 || code == 0x202F || code == 0x205F
    || code == 0x3000
  }

  predicate Blank(s: string) { forall i :: 0 <= i < |s| ==> WhiteSpace(s[i]) }

  predicate HasIdentity(item: Item) { item.id.Some? && item.id.value != "" }

  /** A page whose pagination metadata says that another page follows. */
  predicate MorePage(r: Response) {
    && r.Payload? && r.pagination.Some?
    && r.pagination.value.hasNext == Some(true) && r.pagination.value.cursorPresent
    && r.pagination.value.cursor.Some? && !Blank(r.pagination.value.cursor.value)
  }

  predicate LastPage(r: Response) {
    && r.Payload? && r.pagination.Some?
    && r.pagination.value.hasNext == Some(false) && r.pagination.value.cursorPresent
    && r.pagination.value.cursor.None?
  }

  /** The responses of a walk: each request carries the cursor of the page before it. */
  predicate Followed(server: Server, pages: seq<Response>) {
    forall k :: 0 <= k < |pages| ==> pages[k] == server(k, CursorBefore(pages, k))
  }

  function CursorBefore(pages: seq<Response>, k: nat): Option<string>
    requires k <= |pages|
  {
    if k == 0 then None
    else if pages[k - 1].Payload? && pages[k - 1].pagination.Some? then pages[k - 1].pagination.value.cursor
    else None
  }

  function AllItems(pages: seq<Response>): seq<Item> {
    if pages == [] then []
    else
      var last := pages[|pages| - 1];
      AllItems(pages[..|pages| - 1]) + (if last.Payload? then last.items else [])
  }

  predicate DistinctIds(items: seq<Item>) {
    && (forall i :: 0 <= i < |items| ==> HasIdentity(items[i]))
    && (forall i, j :: 0 <= i < j < |items| ==> items[i].id != items[j].id)
  }

  predicate DistinctCursors(pages: seq<Response>) {
    forall i, j :: 0 <= i < j < |pages| ==> NextCursor(pages[i]) != NextCursor(pages[j])
  }

  /** A walk that stays valid and asks for a further page. */
  predicate OpenWalk(server: Server, pages: seq<Response>) {
    && Followed(server, pages)
    && AllMore(pages)
    && DistinctCursors(pages)
    && DistinctIds(AllItems(pages))
  }

  /** A walk that reached the final page within the page cap. */
  predicate WholeInventory(server: Server, pages: seq<Response>, maxPages: nat) {
    && pages != [] && |pages| <= maxPages
    && Followed(server, pages)
    && (forall k :: 0 <= k < |pages| - 1 ==> MorePage(pages[k]))
    && LastPage(pages[|pages| - 1])
    && DistinctCursors(pages[..|pages| - 1])
    && DistinctIds(AllItems(pages))
  }

  predicate CursorsOf(cursors: set<string>, pages: seq<Response>) {
    && (forall k :: 0 <= k < |pages| ==> MorePage(pages[k]) && NextCursor(pages[k]) in cursors)
    && (forall c :: c in cursors ==> exists k :: 0 <= k < |pages| && NextCursor(pages[k]) == c)
  }

  function NextCursor(r: Response): string {
    if r.Payload? && r.pagination.Some? && r.pagination.value.cursor.Some? then r.pagination.value.cursor.value else ""
  }

  lemma OneMoreCursor(cursors: set<string>, pages: seq<Response>, next: Response)
    requires CursorsOf(cursors, pages) && DistinctCursors(pages) && MorePage(next)
    ensures DistinctCursors(pages + [next]) <==> NextCursor(next) !in cursors
    ensures CursorsOf(cursors + {NextCursor(next)}, pages + [next])
  {
    var longer := pages + [next];
    assert longer[|pages|] == next;
    assert forall i :: 0 <= i < |pages| ==> longer[i] == pages[i];
    if NextCursor(next) in cursors {
      var k :| 0 <= k < |pages| && NextCursor(pages[k]) == NextCursor(next);
      assert longer[k] == pages[k];
    }
  }

  lemma PageAdded(pages: seq<Response>, next: Response)
    requires next.Payload?
    ensures AllItems(pages + [next]) == AllItems(pages) + next.items
  {
    assert (pages + [next])[..|pages|] == pages;
  }

  predicate AllMore(pages: seq<Response>) {
    forall k :: 0 <= k < |pages| ==> MorePage(pages[k])
  }

  lemma MoreAdded(pages: seq<Response>, next: Response)
    requires AllMore(pages)
    ensures MorePage(next) ==> AllMore(pages + [next])
    ensures forall k :: 0 <= k < |pages + [next]| - 1 ==> MorePage((pages + [next])[k])
  {
    assert forall k :: 0 <= k < |pages| ==> (pages + [next])[k] == pages[k];
  }

  /** An open walk stays open over one more distinct page. */
  lemma OneMorePage(server: Server, pages: seq<Response>, next: Response)
    requires OpenWalk(server, pages) && MorePage(next) && DistinctCursors(pages + [next])
    requires next == server(|pages|, CursorBefore(pages, |pages|))
    requires DistinctIds(AllItems(pages + [next]))
    ensures OpenWalk(server, pages + [next])
  {
    StillFollowed(server, pages, next);
    MoreAdded(pages, next);
  }

  /** An open walk becomes the whole inventory when the final page arrives. */
  lemma FinalPage(server: Server, pages: seq<Response>, next: Response, maxPages: nat)
    requires OpenWalk(server, pages) && LastPage(next) && |pages| < maxPages
    requires next == server(|pages|, CursorBefore(pages, |pages|))
    requires DistinctIds(AllItems(pages + [next]))
    ensures WholeInventory(server, pages + [next], maxPages)
  {
    StillFollowed(server, pages, next);
    MoreAdded(pages, next);
    assert (pages + [next])[..|pages|] == pages;
  }

  /** Whether the page can follow the walk so far, and the cursor set it leaves. */
  method CheckPagination(ghost server: Server, ghost before: seq<Response>, payload: Response, seen: set<string>,
    ghost maxPages: nat)
    returns (valid: bool, seenCursors: set<string>)
    requires OpenWalk(server, before) && CursorsOf(seen, before)
    requires payload == server(|before|, CursorBefore(before, |before|))
    ensures valid ==> LastPage(payload) || (MorePage(payload) && DistinctCursors(before + [payload]))
    ensures valid && MorePage(payload) ==> CursorsOf(seenCursors, before + [payload])
    ensures !valid ==> forall whole :: !WholeInventory(server, whole, maxPages)
  {
    seenCursors := seen;
    ghost var pages := before + [payload];
    StillFollowed(server, before, payload);
    MoreAdded(before, payload);
    if payload.NoPayload? || payload.pagination.None?
       || payload.pagination.value.hasNext.None? || !payload.pagination.value.cursorPresent {
      StuckWalk(server, pages, maxPages);
      return false, seen;
    }
    var hasNext, next := payload.pagination.value.hasNext.value, payload.pagination.value.cursor;
    if hasNext {
      if next.None? || Blank(next.value) {
        StuckWalk(server, pages, maxPages);
        return false, seen;
      }
      OneMoreCursor(seen, before, payload);
      if next.value in seen {
        RepeatedCursor(server, pages, maxPages);
        return false, seen;
      }
      seenCursors := seen + {next.value};
    } else if next.Some? {
      StuckWalk(server, pages, maxPages);
      return false, seen;
    }
    return true, seenCursors;
  }

  /** What the walk remembers between two requests. */
  predicate Walking(server: Server, pages: seq<Response>, items: seq<Item>, seenCursors: set<string>,
    seenIds: set<string>)
  {
    && OpenWalk(server, pages) && CursorsOf(seenCursors, pages)
    && items == AllItems(pages) && IdsOf(seenIds, items)
  }

  /** Checks one page against the walk so far. */
  method TakePage(ghost server: Server, ghost before: seq<Response>, payload: Response, items: seq<Item>,
    seenCursors: set<string>, seenIds: set<string>, ghost maxPages: nat)
    returns (valid: bool, cursors: set<string>, ids: set<string>)
    requires |before| < maxPages && Walking(server, before, items, seenCursors, seenIds)
    requires payload == server(|before|, CursorBefore(before, |before|))
    ensures valid ==> MorePage(payload) || LastPage(payload)
    ensures valid && MorePage(payload) ==> Walking(server, before + [payload], items + payload.items, cursors, ids)
    ensures valid && LastPage(payload) ==> (
      WholeInventory(server, before + [payload], maxPages)
      && items + payload.items == AllItems(before + [payload]))
    ensures !valid ==> forall whole :: !WholeInventory(server, whole, maxPages)
  {
    valid, cursors := CheckPagination(server, before, payload, seenCursors, maxPages);
    ids := seenIds;
    if valid {
      PageAdded(before, payload);
      valid, ids := CheckIdentities(items, seenIds, payload.items);
      if !valid {
        StillFollowed(server, before, payload);
        MoreAdded(before, payload);
        BadIdentities(server, before + [payload], maxPages);
      } else if payload.pagination.value.hasNext.value {
        OneMorePage(server, before, payload);
      } else {
        FinalPage(server, before, payload, maxPages);
      }
    }
  }

  /** The walk ends within the page cap, returns the concatenation of every page up to
      the final one, and does so exactly when such a walk exists. */
  method ListResources(server: Server, maxPages: nat) returns (r: Walk, ghost pages: seq<Response>)
    requires maxPages >= 1
    ensures r.Complete? ==> WholeInventory(server, pages, maxPages) && r.items == AllItems(pages)
    ensures r.Complete? <==> exists whole :: WholeInventory(server, whole, maxPages)
  {
    pages := [];
    var count := 0;
    var cursor: Option<string> := None;
    var seenCursors: set<string> := {};
    var seenIds: set<string> := {};
    var items: seq<Item> := [];
    while true
      invariant count == |pages| <= maxPages && cursor == CursorBefore(pages, |pages|)
      invariant Walking(server, pages, items, seenCursors, seenIds)
      decreases maxPages - count
    {
      if count >= maxPages {
        NoLongerWalk(server, pages, maxPages);
        return Failed, pages;
      }
      var payload := server(count, cursor);
      var valid;
      valid, seenCursors, seenIds := TakePage(server, pages, payload, items, seenCursors, seenIds, maxPages);
      count, pages := count + 1, pages + [payload];
      if !valid { return Failed, pages; }
      items := items + payload.items;
      if !payload.pagination.value.hasNext.value { return Complete(items), pages; }
      cursor := payload.pagination.value.cursor;
    }
  }

  /** The item has an identity that was not seen before. */
  predicate Unseen(seenIds: set<string>, item: Item) {
    HasIdentity(item) && item.id.value !in seenIds
  }

  predicate IdsOf(seenIds: set<string>, items: seq<Item>) {
    && (forall i :: 0 <= i < |items| ==> HasIdentity(items[i]) && items[i].id.value in seenIds)
    && (forall id :: id in seenIds ==> exists i :: 0 <= i < |items| && items[i].id == Some(id))
  }

  lemma OneMore(seenIds: set<string>, items: seq<Item>, item: Item)
    requires DistinctIds(items) && IdsOf(seenIds, items)
    ensures DistinctIds(items + [item]) <==> Unseen(seenIds, item)
    ensures Unseen(seenIds, item) ==> IdsOf(seenIds + {item.id.value}, items + [item])
  {
    var longer := items + [item];
    assert longer[|items|] == item;
    assert forall i :: 0 <= i < |items| ==> longer[i] == items[i];
    if HasIdentity(item) && item.id.value in seenIds {
      var i :| 0 <= i < |items| && items[i].id == Some(item.id.value);
      assert longer[i].id == longer[|items|].id;
    }
  }

  /** Adds the identities of one page to those already seen. */
  method CheckIdentities(seen: seq<Item>, ids: set<string>, page: seq<Item>)
    returns (distinct: bool, seenIds: set<string>)
    requires DistinctIds(seen) && IdsOf(ids, seen)
    ensures distinct <==> DistinctIds(seen + page)
    ensures distinct ==> IdsOf(seenIds, seen + page)
  {
    seenIds := ids;
    assert seen + page[..0] == seen;
    for k := 0 to |page|
      invariant DistinctIds(seen + page[..k]) && IdsOf(seenIds, seen + page[..k])
    {
      OneMore(seenIds, seen + page[..k], page[k]);
      assert seen + page[..k + 1] == (seen + page[..k]) + [page[k]];
      if page[k].id.None? || page[k].id.value == "" || page[k].id.value in seenIds {
        if DistinctIds(seen + page) { PrefixOfDistinct(seen + page[..k + 1], seen + page); }
        return false, seenIds;
      }
      seenIds := seenIds + {page[k].id.value};
    }
    assert page[..|page|] == page;
    return true, seenIds;
  }

  lemma StillFollowed(server: Server, pages: seq<Response>, next: Response)
    requires Followed(server, pages) && next == server(|pages|, CursorBefore(pages, |pages|))
    ensures Followed(server, pages + [next])
  {
    forall k | 0 <= k < |pages| + 1 ensures (pages + [next])[k] == server(k, CursorBefore(pages + [next], k)) {
      assert CursorBefore(pages + [next], k) == CursorBefore(pages, k);
    }
  }

  /** A server answers a walk in one way only, so two walks agree where both exist. */
  lemma {:induction false} WalksAgree(server: Server, a: seq<Response>, b: seq<Response>, k: nat)
    requires Followed(server, a) && Followed(server, b) && k < |a| && k < |b|
    ensures a[k] == b[k]
  {
    if k > 0 { WalksAgree(server, a, b, k - 1); }
  }

  predicate Begins(pages: seq<Response>, longer: seq<Response>) {
    |pages| <= |longer| && forall k :: 0 <= k < |pages| ==> longer[k] == pages[k]
  }

  /** A whole inventory continues past any walk whose earlier pages ask for more. */
  lemma WholeContinues(server: Server, pages: seq<Response>, whole: seq<Response>, maxPages: nat)
    requires Followed(server, pages) && WholeInventory(server, whole, maxPages)
    requires forall k :: 0 <= k < |pages| - 1 ==> MorePage(pages[k])
    ensures Begins(pages, whole)
    ensures |pages| == |whole| && pages != [] ==> LastPage(pages[|pages| - 1])
  {
    if |whole| < |pages| { WalksAgree(server, pages, whole, |whole| - 1); }
    forall k | 0 <= k < |pages| && k < |whole| ensures whole[k] == pages[k] {
      WalksAgree(server, pages, whole, k);
    }
  }

  lemma NoLongerWalk(server: Server, pages: seq<Response>, maxPages: nat)
    requires OpenWalk(server, pages) && |pages| >= maxPages && pages != []
    ensures forall whole :: !WholeInventory(server, whole, maxPages)
  {
    forall whole ensures !WholeInventory(server, whole, maxPages) {
      if WholeInventory(server, whole, maxPages) { WholeContinues(server, pages, whole, maxPages); }
    }
  }

  /** A page that is neither a valid further page nor a valid last one ends every walk. */
  lemma StuckWalk(server: Server, pages: seq<Response>, maxPages: nat)
    requires pages != [] && Followed(server, pages)
    requires forall k :: 0 <= k < |pages| - 1 ==> MorePage(pages[k])
    requires !MorePage(pages[|pages| - 1]) && !LastPage(pages[|pages| - 1])
    ensures forall whole :: !WholeInventory(server, whole, maxPages)
  {
    forall whole ensures !WholeInventory(server, whole, maxPages) {
      if WholeInventory(server, whole, maxPages) { WholeContinues(server, pages, whole, maxPages); }
    }
  }

  lemma DistinctFront(pages: seq<Response>, longer: seq<Response>)
    requires Begins(pages, longer)
    ensures |pages| < |longer| && DistinctCursors(longer[..|longer| - 1]) ==> DistinctCursors(pages)
  {
    if |pages| < |longer| {
      assert forall k :: 0 <= k < |pages| ==> longer[..|longer| - 1][k] == pages[k];
    }
  }

  lemma RepeatedCursor(server: Server, pages: seq<Response>, maxPages: nat)
    requires pages != [] && Followed(server, pages) && AllMore(pages)
    requires !DistinctCursors(pages)
    ensures forall whole :: !WholeInventory(server, whole, maxPages)
  {
    forall whole ensures !WholeInventory(server, whole, maxPages) {
      if WholeInventory(server, whole, maxPages) {
        WholeContinues(server, pages, whole, maxPages);
        assert |pages| < |whole|;
        DistinctFront(pages, whole);
      }
    }
  }

  lemma {:induction false} ItemsBegin(pages: seq<Response>, longer: seq<Response>)
    requires Begins(pages, longer)
    ensures AllItems(pages) <= AllItems(longer)
  {
    if |pages| == |longer| {
      assert pages == longer;
    } else {
      ItemsBegin(pages, longer[..|longer| - 1]);
    }
  }

  lemma PrefixOfDistinct(items: seq<Item>, longer: seq<Item>)
    requires items <= longer && DistinctIds(longer)
    ensures DistinctIds(items)
  {
    assert forall i :: 0 <= i < |items| ==> items[i] == longer[i];
  }

  lemma BadIdentities(server: Server, pages: seq<Response>, maxPages: nat)
    requires pages != [] && Followed(server, pages)
    requires forall k :: 0 <= k < |pages| - 1 ==> MorePage(pages[k])
    requires !DistinctIds(AllItems(pages))
    ensures forall whole :: !WholeInventory(server, whole, maxPages)
  {
    forall whole ensures !WholeInventory(server, whole, maxPages) {
      if WholeInventory(server, whole, maxPages) {
        WholeContinues(server, pages, whole, maxPages);
        ItemsBegin(pages, whole);
        PrefixOfDistinct(AllItems(pages), AllItems(whole));
      }
    }
  }

  /** The inventory is unique: any two complete walks list the same pages. */
  lemma InventoryIsUnique(server: Server, a: seq<Response>, b: seq<Response>, maxPages: nat)
    requires WholeInventory(server, a, maxPages) && WholeInventory(server, b, maxPages)
    ensures a == b
  {
    WholeContinues(server, a, b, maxPages);
    WholeContinues(server, b, a, maxPages);
  }
}
