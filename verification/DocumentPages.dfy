/**
 * Walking an owner's documents page by page, newest first, while other writers
 * create, edit, share and archive. A page continues strictly below the last
 * key of the page before it.
 */
module DocumentPages {
  import opened Wrappers

  type DocumentId = nat
  type Time = int

  // The order of the list: by update time, then by id.
  datatype Key = Key(updated: Time, id: DocumentId)

  predicate Below(a: Key, b: Key) {
    a.updated < b.updated || (a.updated == b.updated && a.id < b.id)
  }

  // Unarchived documents and when each was last updated.
  type Listing = map<DocumentId, Time>

  function KeyOf(l: Listing, id: DocumentId): Key
    requires id in l
  {
    Key(l[id], id)
  }

  // What lies below a cursor; without a cursor, everything.
  function Remaining(l: Listing, cursor: Option<Key>): set<Key> {
    set id | id in l && (cursor.None? || Below(KeyOf(l, id), cursor.value)) :: KeyOf(l, id)
  }

  ghost predicate Descending(keys: seq<Key>) {
    forall i, j :: 0 <= i < j < |keys| ==> Below(keys[j], keys[i])
  }

  /** Later updates come first, and among those of one time higher ids. */
  lemma NewestFirst(keys: seq<Key>)
    ensures Descending(keys) <==>
            forall i, j :: 0 <= i < j < |keys| ==>
                             || keys[j].updated < keys[i].updated
                             || (keys[j].updated == keys[i].updated && keys[j].id < keys[i].id)
  {
  }

  // The answer to a page query: the highest `limit` remaining keys in order.
  ghost predicate IsPage(l: Listing, cursor: Option<Key>, limit: nat, page: seq<Key>) {
    && Descending(page)
    && (forall k :: k in page ==> k in Remaining(l, cursor))
    && |page| <= limit
    && (forall k :: k in Remaining(l, cursor) && k !in page ==>
          |page| == limit && forall p :: p in page ==> Below(k, p))
  }

  method Highest(keys: set<Key>) returns (top: Key)
    requires keys != {}
    ensures top in keys && forall k :: k in keys && k != top ==> Below(k, top)
  {
    top :| top in keys;
    var rest := keys - {top};
    while rest != {}
      invariant rest <= keys && top in keys
      invariant forall k :: k in keys && k !in rest && k != top ==> Below(k, top)
    {
      var k :| k in rest;
      if Below(top, k) {
        top := k;
      }
      rest := rest - {k};
    }
  }

  method ListPage(l: Listing, cursor: Option<Key>, limit: nat) returns (page: seq<Key>)
    ensures IsPage(l, cursor, limit, page)
  {
    page := [];
    var rest := Remaining(l, cursor);
    while rest != {} && |page| < limit
      invariant rest <= Remaining(l, cursor)
      invariant Descending(page) && |page| <= limit
      invariant forall k :: k in page ==> k in Remaining(l, cursor)
      invariant forall k :: k in Remaining(l, cursor) ==> k in rest || k in page
      invariant forall k, p :: k in rest && p in page ==> Below(k, p)
    {
      var top := Highest(rest);
      page := page + [top];
      rest := rest - {top};
    }
  }

  // A page with its next cursor: the last key shown, as long as more remain.
  ghost predicate Served(l: Listing, cursor: Option<Key>, limit: nat, page: seq<Key>, next: Option<Key>) {
    && IsPage(l, cursor, limit, page)
    && (next.Some? ==> |page| == limit >= 1 && next.value == page[limit - 1])
    && (next.None? <==> forall k :: k in Remaining(l, cursor) ==> k in page)
  }

  // The handler asks for one more than it shows, to learn whether there is a
  // next page, and continues from the last one shown.
  method ServePage(l: Listing, cursor: Option<Key>, limit: nat) returns (page: seq<Key>, next: Option<Key>)
    requires limit >= 1
    ensures Served(l, cursor, limit, page, next)
  {
    page := ListPage(l, cursor, limit + 1);
    next := None;
    if |page| > limit {
      var extra := page[limit];
      page := page[..limit];
      next := Some(page[limit - 1]);
      assert extra in Remaining(l, cursor) && extra !in page;
    }
  }

  // ----- The walk -----

  // The listing each page request of a walk finds. Other writers may add and
  // archive documents, and no document's update time falls.
  ghost predicate NeverFalls(listings: seq<Listing>) {
    forall i, j, id :: 0 <= i < j < |listings| && id in listings[i] && id in listings[j] ==>
                         listings[i][id] <= listings[j][id]
  }

  // Nobody touches the document from one page request on.
  ghost predicate Still(listings: seq<Listing>, from: nat, pages: nat, id: DocumentId)
    requires from < pages <= |listings|
  {
    && id in listings[from]
    && forall i :: from <= i < pages ==> id in listings[i] && listings[i][id] == listings[from][id]
  }

  ghost predicate Untouched(listings: seq<Listing>, pages: nat, id: DocumentId)
    requires 1 <= pages <= |listings|
  {
    Still(listings, 0, pages, id)
  }

  // The cursor of a page request: the last key shown before it.
  function CursorAt(shown: seq<Key>, limit: nat, page: nat): Option<Key> {
    if page == 0 || !(1 <= page * limit <= |shown|) then None else Some(shown[page * limit - 1])
  }

  predicate Ahead(cursor: Option<Key>, k: Key) { cursor.None? || Below(k, cursor.value) }

  // From that request on the document stays where it is, below the cursor.
  ghost predicate WaitsAhead(listings: seq<Listing>, from: nat, pages: nat, id: DocumentId, shown: seq<Key>,
                             limit: nat)
  {
    && from < pages <= |listings| && Still(listings, from, pages, id)
    && Ahead(CursorAt(shown, limit, from), KeyOf(listings[from], id))
  }

  /**
   * Follows next cursors until there is none, or the requests run out. A
   * finished walk has shown every document that nobody touched meanwhile.
   * Without other writers the pages add up to the whole list in order, and
   * ceil(n / limit) requests are enough. A document shown twice is one whose
   * update time fell in between; one that falls below the cursor and stays
   * there is shown, again if it was before. If none falls, none is repeated.
   */
  method Walk(listings: seq<Listing>, limit: nat)
    returns (shown: seq<Key>, pages: nat, finished: bool, ghost found: seq<nat>)
    requires limit >= 1 && listings != []
    ensures 1 <= pages <= |listings| && (!finished ==> pages == |listings|)
    ensures Descending(shown) && Sources(listings, pages, shown, found)
    ensures OnlyFallenRepeat(listings, shown, found)
    ensures NeverFalls(listings) ==> forall a, b :: 0 <= a < b < |shown| ==> shown[a].id != shown[b].id
    ensures finished ==> forall id :: Untouched(listings, pages, id) ==> KeyOf(listings[0], id) in shown
    ensures finished ==>
              forall from: nat, id :: WaitsAhead(listings, from, pages, id, shown, limit) ==>
                                        KeyOf(listings[from], id) in shown
    ensures (forall i :: 0 <= i < |listings| ==> listings[i] == listings[0]) ==>
              && (forall k :: k in shown ==> k in Remaining(listings[0], None))
              && (finished ==> forall k :: k in Remaining(listings[0], None) ==> k in shown)
              && (|listings| * limit >= |listings[0]| ==> finished)
  {
    shown, pages, finished, found := [], 0, false, [];
    var cursor: Option<Key> := None;
    while pages < |listings| && !finished
      invariant SoFar(listings, pages, shown, found, cursor, limit, finished)
    {
      var page, next := ServePage(listings[pages], cursor, limit);
      OnePageFurther(listings, pages, shown, found, cursor, limit, page, next);
      shown, found := shown + page, found + seq(|page|, _ => pages);
      pages := pages + 1;
      if next.None? {
        finished := true;
      } else {
        cursor := next;
      }
    }
    RepeatsFell(listings, pages, shown, found);
    if NeverFalls(listings) {
      NothingShownTwice(listings, pages, shown, found);
    }
    if finished {
      AllWaitingShown(listings, pages, shown, limit);
    }
    if forall i :: 0 <= i < |listings| ==> listings[i] == listings[0] {
      WholeList(listings, pages, shown, found, finished);
      if !finished {
        ShownIsFewer(listings[0], shown);
      }
    }
  }

  ghost predicate SoFar(listings: seq<Listing>, pages: nat, shown: seq<Key>, found: seq<nat>, cursor: Option<Key>,
                        limit: nat, finished: bool)
  {
    && pages <= |listings| && (finished ==> pages >= 1)
    && (!finished ==>
          |shown| == pages * limit && cursor == CursorAt(shown, limit, pages) && (pages == 0 <==> cursor.None?))
    && Sources(listings, pages, shown, found)
    && Descending(shown) && (!finished ==> DownTo(shown, cursor))
    && WaitingAreShownOrBelow(listings, pages, shown, limit, if finished then None else cursor)
    && (!finished && pages >= 1 ==> exists k :: k in Remaining(listings[pages - 1], None) && k !in shown)
  }

  ghost predicate WaitingAreShownOrBelow(listings: seq<Listing>, pages: nat, shown: seq<Key>, limit: nat,
                                         cursor: Option<Key>)
  {
    forall from: nat, id :: WaitsAhead(listings, from, pages, id, shown, limit) ==>
                              ShownOrBelow(shown, cursor, KeyOf(listings[from], id))
  }

  lemma AllWaitingShown(listings: seq<Listing>, pages: nat, shown: seq<Key>, limit: nat)
    requires 1 <= pages <= |listings| && WaitingAreShownOrBelow(listings, pages, shown, limit, None)
    ensures forall from: nat, id :: WaitsAhead(listings, from, pages, id, shown, limit) ==>
                                      KeyOf(listings[from], id) in shown
    ensures forall id :: Untouched(listings, pages, id) ==> KeyOf(listings[0], id) in shown
  {
    forall id | Untouched(listings, pages, id) ensures KeyOf(listings[0], id) in shown {
      assert WaitsAhead(listings, 0, pages, id, shown, limit);
    }
  }

  // Everything shown lies at or above the cursor.
  ghost predicate DownTo(shown: seq<Key>, cursor: Option<Key>) {
    && (cursor.None? ==> shown == [])
    && (cursor.Some? ==> forall k :: k in shown ==> k == cursor.value || Below(cursor.value, k))
  }

  ghost predicate ShownOrBelow(shown: seq<Key>, cursor: Option<Key>, k: Key) {
    k in shown || (cursor.Some? && Below(k, cursor.value))
  }

  lemma OnePageFurther(listings: seq<Listing>, pages: nat, shown: seq<Key>, found: seq<nat>, cursor: Option<Key>,
                       limit: nat, page: seq<Key>, next: Option<Key>)
    requires limit >= 1 && pages < |listings| && SoFar(listings, pages, shown, found, cursor, limit, false)
    requires Served(listings[pages], cursor, limit, page, next)
    ensures SoFar(listings, pages + 1, shown + page, found + seq(|page|, _ => pages),
                  if next.None? then cursor else next, limit, next.None?)
  {
    SourcesGrow(listings, pages, shown, found, cursor, limit, page);
    StaysDescending(listings[pages], shown, cursor, limit, page, next);
    WaitingMovesOn(listings, pages, shown, cursor, limit, page, next);
    if next.Some? {
      LeftBehind(listings[pages], shown, cursor, limit, page, next);
      NextCursor(shown, page, limit, pages);
    }
  }

  lemma WaitingMovesOn(listings: seq<Listing>, pages: nat, shown: seq<Key>, cursor: Option<Key>, limit: nat,
                       page: seq<Key>, next: Option<Key>)
    requires pages < |listings| && Served(listings[pages], cursor, limit, page, next)
    requires |shown| == pages * limit && cursor == CursorAt(shown, limit, pages)
    requires WaitingAreShownOrBelow(listings, pages, shown, limit, cursor)
    ensures WaitingAreShownOrBelow(listings, pages + 1, shown + page, limit, next)
  {
    forall from: nat, id | WaitsAhead(listings, from, pages + 1, id, shown + page, limit)
      ensures ShownOrBelow(shown + page, next, KeyOf(listings[from], id))
    {
      CursorStays(shown, page, limit, pages, from);
      WaitingIsShown(listings, pages, from, id, shown, cursor, limit, page, next);
    }
  }

  lemma NextCursor(shown: seq<Key>, page: seq<Key>, limit: nat, pages: nat)
    requires |shown| == pages * limit && |page| == limit >= 1
    ensures |shown + page| == (pages + 1) * limit
    ensures CursorAt(shown + page, limit, pages + 1) == Some(page[limit - 1])
  {
    assert (pages + 1) * limit == pages * limit + limit;
    assert (shown + page)[|shown| + limit - 1] == page[limit - 1];
  }

  lemma CursorStays(shown: seq<Key>, page: seq<Key>, limit: nat, pages: nat, from: nat)
    requires from <= pages && |shown| == pages * limit
    ensures CursorAt(shown + page, limit, from) == CursorAt(shown, limit, from)
  {
    assert from * limit <= pages * limit;
  }

  lemma StaysDescending(l: Listing, shown: seq<Key>, cursor: Option<Key>, limit: nat, page: seq<Key>, next: Option<Key>)
    requires Descending(shown) && DownTo(shown, cursor) && Served(l, cursor, limit, page, next)
    ensures Descending(shown + page) && (next.Some? ==> DownTo(shown + page, next))
  {
    forall i, j | 0 <= i < |shown| && 0 <= j < |page| ensures Below(page[j], shown[i]) {
      assert shown[i] in shown && page[j] in page;
    }
    if next.Some? {
      assert page[limit - 1] in page;
      forall k | k in shown + page ensures k == next.value || Below(next.value, k) {
        if k in page {
          var j :| 0 <= j < |page| && page[j] == k;
          assert j < limit - 1 ==> Below(page[limit - 1], page[j]);
        } else {
          var i :| 0 <= i < |shown| && shown[i] == k;
        }
      }
    }
  }

  // Which page request each shown key came from.
  ghost predicate Sources(listings: seq<Listing>, pages: nat, shown: seq<Key>, found: seq<nat>)
    requires pages <= |listings|
  {
    && |found| == |shown|
    && (forall a :: 0 <= a < |found| ==>
          found[a] < pages && shown[a].id in listings[found[a]] && shown[a] == KeyOf(listings[found[a]], shown[a].id))
    && (forall a, b :: 0 <= a < b < |found| ==> found[a] <= found[b])
  }

  lemma SourcesGrow(listings: seq<Listing>, pages: nat, shown: seq<Key>, found: seq<nat>, cursor: Option<Key>,
                    limit: nat, page: seq<Key>)
    requires pages < |listings| && Sources(listings, pages, shown, found)
             && IsPage(listings[pages], cursor, limit, page)
    ensures Sources(listings, pages + 1, shown + page, found + seq(|page|, _ => pages))
  {
    forall i | 0 <= i < |page| ensures page[i].id in listings[pages] && page[i] == KeyOf(listings[pages], page[i].id) {
      assert page[i] in page;
    }
  }

  // A document shown by two page requests had its update time fall in between.
  ghost predicate OnlyFallenRepeat(listings: seq<Listing>, shown: seq<Key>, found: seq<nat>) {
    forall a, b :: 0 <= a < b < |shown| && |found| == |shown| && shown[a].id == shown[b].id ==>
                     found[a] < found[b] && Fell(listings, found[a], found[b], shown[a].id)
  }

  predicate Fell(listings: seq<Listing>, i: nat, j: nat, id: DocumentId) {
    i < |listings| && j < |listings| && id in listings[i] && id in listings[j] && listings[j][id] < listings[i][id]
  }

  lemma RepeatsFell(listings: seq<Listing>, pages: nat, shown: seq<Key>, found: seq<nat>)
    requires pages <= |listings| && Sources(listings, pages, shown, found) && Descending(shown)
    ensures OnlyFallenRepeat(listings, shown, found)
  {
    forall a, b | 0 <= a < b < |shown| && shown[a].id == shown[b].id
      ensures found[a] < found[b] && Fell(listings, found[a], found[b], shown[a].id)
    {
      assert Below(shown[b], shown[a]) && found[a] <= found[b];
    }
  }

  lemma NothingShownTwice(listings: seq<Listing>, pages: nat, shown: seq<Key>, found: seq<nat>)
    requires NeverFalls(listings) && pages <= |listings| && Sources(listings, pages, shown, found) && Descending(shown)
    ensures forall a, b :: 0 <= a < b < |shown| ==> shown[a].id != shown[b].id
  {
    RepeatsFell(listings, pages, shown, found);
    forall a, b | 0 <= a < b < |shown| ensures shown[a].id != shown[b].id {
      assert !Fell(listings, found[a], found[b], shown[a].id);
    }
  }

  // A document that waits was shown or is still below the cursor; the page
  // moves it across or leaves it below the next one.
  lemma WaitingIsShown(listings: seq<Listing>, pages: nat, from: nat, id: DocumentId, shown: seq<Key>,
                       cursor: Option<Key>, limit: nat, page: seq<Key>, next: Option<Key>)
    requires pages < |listings| && WaitsAhead(listings, from, pages + 1, id, shown, limit)
    requires Served(listings[pages], cursor, limit, page, next) && cursor == CursorAt(shown, limit, pages)
    requires WaitingAreShownOrBelow(listings, pages, shown, limit, cursor)
    ensures ShownOrBelow(shown + page, next, KeyOf(listings[from], id))
  {
    var k := KeyOf(listings[from], id);
    assert k == KeyOf(listings[pages], id);
    if from < pages { assert WaitsAhead(listings, from, pages, id, shown, limit); }
    if k !in shown && k !in page {
      assert k in Remaining(listings[pages], cursor);
      assert next.value in page;
    }
  }

  // While a walk goes on, some document is still unseen.
  lemma LeftBehind(l: Listing, shown: seq<Key>, cursor: Option<Key>, limit: nat, page: seq<Key>, next: Option<Key>)
    requires DownTo(shown, cursor) && Served(l, cursor, limit, page, next) && next.Some?
    ensures exists k :: k in Remaining(l, None) && k !in shown + page
  {
    var k :| k in Remaining(l, cursor) && k !in page;
    assert k in Remaining(l, None) && k !in shown + page;
  }

  lemma WholeList(listings: seq<Listing>, pages: nat, shown: seq<Key>, found: seq<nat>, finished: bool)
    requires 1 <= pages <= |listings| && forall i :: 0 <= i < |listings| ==> listings[i] == listings[0]
    requires Sources(listings, pages, shown, found)
    requires finished ==> forall id :: Untouched(listings, pages, id) ==> KeyOf(listings[0], id) in shown
    ensures forall k :: k in shown ==> k in Remaining(listings[0], None)
    ensures finished ==> forall k :: k in Remaining(listings[0], None) ==> k in shown
  {
    forall k | k in Remaining(listings[0], None) ensures finished ==> k in shown {
      assert Untouched(listings, pages, k.id);
    }
  }

  lemma ShownIsFewer(l: Listing, shown: seq<Key>)
    requires Descending(shown) && forall k :: k in shown ==> k in Remaining(l, None)
    requires exists k :: k in Remaining(l, None) && k !in shown
    ensures |shown| < |l|
  {
    var k :| k in Remaining(l, None) && k !in shown;
    var ids := set k | k in shown :: k.id;
    DistinctIds(l, shown);
    forall other | other in shown ensures other.id != k.id {
      assert other == KeyOf(l, other.id) && k == KeyOf(l, k.id);
    }
    assert ids < l.Keys;
    Proper(ids, l.Keys);
  }

  lemma {:induction false} DistinctIds(l: Listing, shown: seq<Key>)
    requires Descending(shown) && forall k :: k in shown ==> k in Remaining(l, None)
    ensures |set k | k in shown :: k.id| == |shown|
  {
    if shown != [] {
      var last, earlier := shown[|shown| - 1], shown[..|shown| - 1];
      DistinctIds(l, earlier);
      assert (set k | k in shown :: k.id) == (set k | k in earlier :: k.id) + {last.id};
      assert last.id !in set k | k in earlier :: k.id by {
        forall i | 0 <= i < |earlier| ensures earlier[i].id != last.id {
          assert earlier[i] in shown && last in shown && Below(last, earlier[i]);
        }
      }
    }
  }

  lemma Proper(a: set<DocumentId>, b: set<DocumentId>)
    requires a < b
    ensures |a| < |b|
  {
    assert |b| == |a| + |b - a| by { assert b == a + (b - a); }
    assert b - a != {};
  }
}
