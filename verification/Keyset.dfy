/**
 Keyset pagination over (created_at, id): one page of the queue or project list, and
 whole walks along next_cursor while the table changes underneath.
 */
module Keyset {
  import opened Domain

  const DEFAULT_LIMIT := 20
  const MAX_LIMIT := 100

  /** The cursor's content; encoding and decoding it are inverse to each other. */
  datatype Key = Key(createdAt: Time, id: int)

  datatype Row = Row(createdAt: Time, org: int, project: int, name: string, paused: bool)

  type Table = map<int, Row>

  datatype Page = Page(items: seq<Key>, next: Option<Key>)

  predicate Less(a: Key, b: Key) {
    a.createdAt < b.createdAt || (a.createdAt == b.createdAt && a.id < b.id)
  }

  predicate After(k: Key, cursor: Option<Key>) {
    cursor.Some? ==> Less(cursor.value, k)
  }

  /** The table has this row and the filter lets it through. */
  predicate Matches(t: Table, p: Row -> bool, k: Key) {
    k.id in t && t[k.id].createdAt == k.createdAt && p(t[k.id])
  }

  predicate Ascending(s: seq<Key>) {
    forall i, j | 0 <= i < j < |s| :: Less(s[i], s[j])
  }

  /** By time of creation, and by id where that is the same. */
  predicate OldestFirst(s: seq<Key>) {
    forall i, j | 0 <= i < j < |s| ::
      s[i].createdAt <= s[j].createdAt && (s[i].createdAt == s[j].createdAt ==> s[i].id < s[j].id)
  }

  lemma AscendingIsOldestFirst(s: seq<Key>)
    ensures Ascending(s) <==> OldestFirst(s)
  {
    forall i, j | 0 <= i < j < |s|
      ensures Less(s[i], s[j])
         <==> s[i].createdAt <= s[j].createdAt && (s[i].createdAt == s[j].createdAt ==> s[i].id < s[j].id)
    {
    }
  }

  function ClampLimit(limit: int): (r: nat)
    ensures 1 <= r <= MAX_LIMIT
    ensures 1 <= limit <= 100 ==> r == limit
    ensures limit <= 0 ==> r == 20
    ensures limit > 100 ==> r == 100
  {
    if limit <= 0 then DEFAULT_LIMIT else if limit > MAX_LIMIT then MAX_LIMIT else limit
  }

  /** The query's answer: the first `n` matching rows past the cursor, ascending. */
  ghost predicate Answer(t: Table, p: Row -> bool, cursor: Option<Key>, n: nat, rows: seq<Key>) {
    && Ascending(rows) && |rows| <= n
    && (forall i | 0 <= i < |rows| :: Matches(t, p, rows[i]) && After(rows[i], cursor))
    && (forall k | Matches(t, p, k) && After(k, cursor) && k !in rows ::
          |rows| == n && forall i | 0 <= i < n :: Less(rows[i], k))
  }

  /** What a page promises about the table it was read from. */
  ghost predicate GoodPage(t: Table, p: Row -> bool, cursor: Option<Key>, limit: nat, page: Page) {
    && Ascending(page.items) && |page.items| <= limit
    && (forall i | 0 <= i < |page.items| :: Matches(t, p, page.items[i]) && After(page.items[i], cursor))
    && (page.next.Some? ==>
          |page.items| == limit >= 1 && page.next.value == page.items[limit - 1])
    && (forall k | Matches(t, p, k) && After(k, cursor) && k !in page.items ::
          page.next.Some? && Less(page.next.value, k))
  }

  /** The list endpoint: ask for one row more than the page holds, then cut it off. */
  method List(
    ghost t: Table, ghost p: Row -> bool, ghost cursor: Option<Key>, requested: int, fetched: seq<Key>)
    returns (page: Page)
    requires Answer(t, p, cursor, ClampLimit(requested) + 1, fetched)
    ensures GoodPage(t, p, cursor, ClampLimit(requested), page)
    ensures OldestFirst(page.items)
    ensures cursor.Some? ==> OldestFirst([cursor.value] + page.items)
    ensures page.next.Some? ==> exists k :: Matches(t, p, k) && Less(page.next.value, k)
  {
    var limit := ClampLimit(requested);
    var items: seq<Key> := [];
    var i := 0;
    while i < |fetched|
      invariant 0 <= i <= |fetched| && items == fetched[..i]
    {
      items := items + [fetched[i]];
      i := i + 1;
    }
    var hasMore := |items| > limit;
    if hasMore {
      items := items[..limit];
    }
    var next: Option<Key> := None;
    if |items| > 0 && hasMore {
      next := Some(items[|items| - 1]);
    }
    page := Page(items, next);
    CutIsGood(t, p, cursor, limit, fetched, page);
    AscendingIsOldestFirst(page.items);
    if cursor.Some? {
      AscendingIsOldestFirst([cursor.value] + page.items);
    }
  }

  lemma CutIsGood(
    t: Table, p: Row -> bool, cursor: Option<Key>, limit: nat, fetched: seq<Key>, page: Page)
    requires 1 <= limit && Answer(t, p, cursor, limit + 1, fetched)
    requires page.items == if |fetched| > limit then fetched[..limit] else fetched
    requires page.next == if |fetched| > limit then Some(fetched[limit - 1]) else None
    ensures GoodPage(t, p, cursor, limit, page)
    ensures page.next.Some? ==> exists k :: Matches(t, p, k) && Less(page.next.value, k)
  {
    if |fetched| > limit {
      assert Matches(t, p, fetched[limit]) && Less(page.next.value, fetched[limit]);
      forall k | Matches(t, p, k) && After(k, cursor) && k !in page.items ensures Less(page.next.value, k) {
        if k in fetched {
          var i :| 0 <= i < |fetched| && fetched[i] == k;
          assert k !in fetched[..limit];
        }
      }
    }
  }

  // ---- walks ----

  /** One request of a walk: the table it saw, the limit it used, the page it got. */
  datatype Visit = Visit(table: Table, limit: nat, page: Page)

  function CursorBefore(walk: seq<Visit>, k: nat): Option<Key>
    requires k <= |walk|
  {
    if k == 0 then None else walk[k - 1].page.next
  }

  ghost predicate VisitOk(p: Row -> bool, walk: seq<Visit>, k: nat)
    requires k < |walk|
  {
    walk[k].limit >= 1 && GoodPage(walk[k].table, p, CursorBefore(walk, k), walk[k].limit, walk[k].page)
  }

  /** Each request follows the previous page's cursor; the tables may differ freely. */
  ghost predicate Walk(p: Row -> bool, walk: seq<Visit>) {
    && (forall k | 0 <= k < |walk| :: VisitOk(p, walk, k))
    && (forall k | 0 <= k < |walk| - 1 :: walk[k].page.next.Some?)
  }

  predicate Finished(walk: seq<Visit>) {
    |walk| > 0 && walk[|walk| - 1].page.next.None?
  }

  /** created_at is written once: a row has the same key in every table that has it. */
  predicate KeysFixed(walk: seq<Visit>) {
    forall a, b, id | 0 <= a < |walk| && 0 <= b < |walk| && id in walk[a].table && id in walk[b].table ::
      walk[a].table[id].createdAt == walk[b].table[id].createdAt
  }

  /** A later page's rows all come after an earlier page's. */
  lemma {:induction false} PagesAscend(p: Row -> bool, walk: seq<Visit>, a: nat, i: nat, b: nat, j: nat)
    requires Walk(p, walk) && a < b < |walk| && i < |walk[a].page.items| && j < |walk[b].page.items|
    ensures Less(walk[a].page.items[i], walk[b].page.items[j])
    decreases b
  {
    var last := walk[b - 1].page;
    assert VisitOk(p, walk, b);
    assert VisitOk(p, walk, b - 1);
    assert After(walk[b].page.items[j], last.next);
    var m := |last.items| - 1;
    assert last.next == Some(last.items[m]);
    if a < b - 1 {
      PagesAscend(p, walk, a, i, b - 1, m);
    }
  }

  /** No row is returned twice, whatever happens to the table between requests. */
  lemma NeverTwice(p: Row -> bool, walk: seq<Visit>, a: nat, i: nat, b: nat, j: nat)
    requires Walk(p, walk) && KeysFixed(walk)
    requires a < |walk| && i < |walk[a].page.items| && b < |walk| && j < |walk[b].page.items|
    requires walk[a].page.items[i].id == walk[b].page.items[j].id
    ensures a == b && i == j
  {
    assert VisitOk(p, walk, a);
    assert VisitOk(p, walk, b);
    assert walk[a].page.items[i] == walk[b].page.items[j];
    if a < b {
      PagesAscend(p, walk, a, i, b, j);
    } else if b < a {
      PagesAscend(p, walk, b, j, a, i);
    }
  }

  /** A matching row not yet returned still lies ahead of the cursor. */
  lemma {:induction false} StillAhead(p: Row -> bool, walk: seq<Visit>, key: Key, k: nat)
    requires Walk(p, walk) && k <= |walk| && (k == |walk| ==> !Finished(walk))
    requires forall m | 0 <= m < k :: Matches(walk[m].table, p, key) && key !in walk[m].page.items
    ensures After(key, CursorBefore(walk, k))
  {
    if k > 0 {
      StillAhead(p, walk, key, k - 1);
      assert VisitOk(p, walk, k - 1);
    }
  }

  /** A row that is there and matches throughout a finished walk is returned. */
  lemma {:induction false} NeverMissed(p: Row -> bool, walk: seq<Visit>, key: Key) returns (a: nat, i: nat)
    requires Walk(p, walk) && Finished(walk)
    requires forall m | 0 <= m < |walk| :: Matches(walk[m].table, p, key)
    ensures a < |walk| && i < |walk[a].page.items| && walk[a].page.items[i] == key
  {
    var n := |walk| - 1;
    assert VisitOk(p, walk, n);
    if forall m | 0 <= m < |walk| :: key !in walk[m].page.items {
      StillAhead(p, walk, key, n);
      assert false;
    }
    a :| a < |walk| && key in walk[a].page.items;
    i :| i < |walk[a].page.items| && walk[a].page.items[i] == key;
  }

  // ---- a table that stays put ----

  function Returned(walk: seq<Visit>): seq<Key> {
    if walk == [] then [] else Returned(walk[..|walk| - 1]) + walk[|walk| - 1].page.items
  }

  lemma WalkPrefix(p: Row -> bool, walk: seq<Visit>)
    requires Walk(p, walk) && walk != []
    ensures Walk(p, walk[..|walk| - 1])
  {
    var w := walk[..|walk| - 1];
    forall k | 0 <= k < |w|
      ensures VisitOk(p, w, k)
    {
      assert VisitOk(p, walk, k);
      assert w[k] == walk[k] && CursorBefore(w, k) == CursorBefore(walk, k);
    }
  }

  lemma {:induction false} ReturnedFrom(walk: seq<Visit>, x: nat) returns (a: nat, i: nat)
    requires x < |Returned(walk)|
    ensures a < |walk| && i < |walk[a].page.items| && walk[a].page.items[i] == Returned(walk)[x]
    decreases |walk|
  {
    var n := |walk| - 1;
    var front := Returned(walk[..n]);
    if x < |front| {
      a, i := ReturnedFrom(walk[..n], x);
    } else {
      a, i := n, x - |front|;
    }
  }

  lemma {:induction false} ReturnedHas(walk: seq<Visit>, a: nat, i: nat)
    requires a < |walk| && i < |walk[a].page.items|
    ensures walk[a].page.items[i] in Returned(walk)
    decreases |walk|
  {
    var n := |walk| - 1;
    if a < n {
      ReturnedHas(walk[..n], a, i);
    }
  }

  /** The rows of a walk come out in ascending order, page after page. */
  lemma {:induction false} ReturnedAscends(p: Row -> bool, walk: seq<Visit>)
    requires Walk(p, walk)
    ensures Ascending(Returned(walk))
    decreases |walk|
  {
    if walk != [] {
      var n := |walk| - 1;
      WalkPrefix(p, walk);
      ReturnedAscends(p, walk[..n]);
      var front, last := Returned(walk[..n]), walk[n].page.items;
      assert VisitOk(p, walk, n);
      forall x, j | 0 <= x < |front| && 0 <= j < |last| ensures Less(front[x], last[j]) {
        var a, i := ReturnedFrom(walk[..n], x);
        PagesAscend(p, walk, a, i, n, j);
      }
    }
  }

  /** On a fixed table a finished walk returns the filtered rows, sorted, each exactly once. */
  lemma {:induction false} FixedTableWalk(p: Row -> bool, walk: seq<Visit>, t: Table, key: Key)
    requires Walk(p, walk) && Finished(walk)
    requires forall k | 0 <= k < |walk| :: walk[k].table == t
    ensures Ascending(Returned(walk)) && OldestFirst(Returned(walk))
    ensures key in Returned(walk) <==> Matches(t, p, key)
    ensures key in Returned(walk) <==> key.id in t && t[key.id].createdAt == key.createdAt && p(t[key.id])
  {
    ReturnedAscends(p, walk);
    AscendingIsOldestFirst(Returned(walk));
    if key in Returned(walk) {
      var x :| 0 <= x < |Returned(walk)| && Returned(walk)[x] == key;
      var a, i := ReturnedFrom(walk, x);
      assert VisitOk(p, walk, a);
    }
    if Matches(t, p, key) {
      var a, i := NeverMissed(p, walk, key);
      ReturnedHas(walk, a, i);
    }
  }

  /** That pins the result down: two ascending lists with the same rows are equal. */
  lemma {:induction false} AscendingUnique(a: seq<Key>, b: seq<Key>)
    requires Ascending(a) && Ascending(b)
    requires forall k :: k in a <==> k in b
    ensures a == b
    decreases |a|
  {
    assert b != [] ==> b[0] in b;
    if a == [] {
      if b != [] {
        assert false;
      }
    } else {
      assert a[0] in b;
      assert b[0] in a;
      assert a[0] == b[0];
      forall k ensures k in a[1..] <==> k in b[1..] {
        assert k in a[1..] ==> k in a && k != a[0];
        assert k in b[1..] ==> k in b && k != b[0];
        assert a == [a[0]] + a[1..] && b == [b[0]] + b[1..];
      }
      AscendingUnique(a[1..], b[1..]);
      assert a == [a[0]] + a[1..] && b == [b[0]] + b[1..];
    }
  }

  /** A walk along a fixed table of n rows ends: it makes at most n + 1 requests. */
  lemma WalkTerminates(p: Row -> bool, walk: seq<Visit>, t: Table)
    requires Walk(p, walk) && forall k | 0 <= k < |walk| :: walk[k].table == t
    ensures |walk| <= |t| + 1
  {
    ReturnedAscends(p, walk);
    ReturnedGrows(p, walk);
    var keys := Returned(walk);
    forall x | 0 <= x < |keys| ensures Matches(t, p, keys[x]) {
      var a, i := ReturnedFrom(walk, x);
      assert VisitOk(p, walk, a);
    }
    IdsBounded(p, keys, t, |keys|);
  }

  lemma {:induction false} ReturnedGrows(p: Row -> bool, walk: seq<Visit>)
    requires Walk(p, walk)
    ensures |walk| <= |Returned(walk)| + 1
    ensures walk != [] && walk[|walk| - 1].page.next.Some? ==> |walk| <= |Returned(walk)|
    decreases |walk|
  {
    if walk != [] {
      var n := |walk| - 1;
      WalkPrefix(p, walk);
      ReturnedGrows(p, walk[..n]);
      assert VisitOk(p, walk, n);
      if n > 0 {
        assert walk[..n][n - 1] == walk[n - 1];
      }
    }
  }

  lemma {:induction false} IdsBounded(p: Row -> bool, keys: seq<Key>, t: Table, n: nat)
    requires Ascending(keys) && n <= |keys|
    requires forall x | 0 <= x < |keys| :: Matches(t, p, keys[x])
    ensures n <= |t|
  {
    var ids := set x | 0 <= x < n :: keys[x].id;
    IdsCard(p, keys, t, n);
    assert ids <= t.Keys;
    assert t.Keys == ids + (t.Keys - ids);
  }

  lemma {:induction false} IdsCard(p: Row -> bool, keys: seq<Key>, t: Table, n: nat)
    requires Ascending(keys) && n <= |keys|
    requires forall x | 0 <= x < |keys| :: Matches(t, p, keys[x])
    ensures |set x | 0 <= x < n :: keys[x].id| == n
  {
    if n > 0 {
      IdsCard(p, keys, t, n - 1);
      var before := set x | 0 <= x < n - 1 :: keys[x].id;
      assert (set x | 0 <= x < n :: keys[x].id) == before + {keys[n - 1].id};
      forall x | 0 <= x < n - 1 ensures keys[x].id != keys[n - 1].id {
        assert Less(keys[x], keys[n - 1]);
      }
    }
  }
}
