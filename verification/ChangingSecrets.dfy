/** The walk over the secrets list while the store changes between its requests. */
module ChangingSecrets {
  import opened SecretPages

  /** Different names sort apart. */
  ghost predicate Strict(le: Order) {
    Total(le) && forall a, b :: le(a, b) && le(b, a) ==> a == b
  }

  predicate Before(le: Order, a: string, b: string) {
    le(a, b) && a != b
  }

  predicate Rising(all: seq<Listed>, le: Order) {
    forall i, j | 0 <= i < j < |all| :: Before(le, all[i].name, all[j].name)
  }

  predicate AllAfter(items: seq<Listed>, cursor: string, le: Order) {
    forall i | 0 <= i < |items| :: Before(le, cursor, items[i].name)
  }

  predicate ListsName(all: seq<Listed>, name: string) {
    exists i :: 0 <= i < |all| && all[i].name == name
  }

  /** A sorted list that a request meets. */
  ghost predicate Sorted(xs: seq<Secret>, le: Order) {
    Named(xs) && Ordered(xs, le)
  }

  lemma SortIsSorted(values: seq<Secret>, le: Order)
    requires Strict(le) && Named(values)
    ensures Sorted(SortByName(values, le), le) && Names(SortByName(values, le)) == Names(values)
  {
    SortSorts(values, le);
    SortNames(values, le);
  }

  // -------------------------------------------------------------- one request

  /** Where a page begins. */
  function StartOf(xs: seq<Secret>, cursor: string): (k: nat)
    ensures k <= |xs|
  {
    if cursor == "" then 0 else FindIndex(xs, cursor) + 1
  }

  lemma StartIsAfter(xs: seq<Secret>, cursor: string, le: Order)
    requires Strict(le) && Sorted(xs, le)
    ensures forall i | 0 <= i < StartOf(xs, cursor) :: le(xs[i].name, cursor)
    ensures cursor in Names(xs) ==> forall i | StartOf(xs, cursor) <= i < |xs| :: Before(le, cursor, xs[i].name)
    ensures cursor !in Names(xs) ==> StartOf(xs, cursor) == 0
  {
    if cursor in Names(xs) {
      var p :| 0 <= p < |xs| && xs[p].name == cursor;
      FindAt(xs, p);
      assert le(cursor, cursor);
    } else {
      NotFound(xs, cursor);
    }
  }

  function EndOf(xs: seq<Secret>, start: nat, limit: nat): nat {
    if start + limit < |xs| then start + limit else |xs|
  }

  lemma PageItems(xs: seq<Secret>, start: nat, limit: nat)
    requires start <= |xs| && limit > 0 && Named(xs)
    ensures var page, end := PageFrom(xs, start, limit), EndOf(xs, start, limit);
      && start <= end <= |xs| && |page.items| == end - start
      && (forall i | start <= i < end :: page.items[i - start].name == xs[i].name)
      && (if end < |xs| then end > start && page.nextPageId == xs[end - 1].name != "" else page.nextPageId == "")
  {
  }

  /** A cursor that the store can continue from: its secret is there, or no secret
      sorts before it. */
  ghost predicate Answerable(xs: seq<Secret>, cursor: string, le: Order) {
    cursor in Names(xs) || forall i | 0 <= i < |xs| :: Before(le, cursor, xs[i].name)
  }

  /** One request continues after its cursor if and only if the store can. */
  lemma ContinuesIffAnswerable(xs: seq<Secret>, cursor: string, limit: nat, le: Order)
    requires Strict(le) && Sorted(xs, le) && limit > 0
    ensures Answerable(xs, cursor, le) <==> AllAfter(PageOf(xs, cursor, limit).items, cursor, le)
  {
    var start := StartOf(xs, cursor);
    var items, end := PageOf(xs, cursor, limit).items, EndOf(xs, start, limit);
    StartIsAfter(xs, cursor, le);
    PageItems(xs, start, limit);
    forall i | 0 <= i < |items| ensures items[i].name == xs[start + i].name {
      assert items[start + i - start].name == xs[start + i].name;
    }
    if cursor !in Names(xs) && xs != [] && Before(le, cursor, items[0].name) {
      forall i | 0 <= i < |xs| ensures Before(le, cursor, xs[i].name) {
        assert i > 0 ==> le(xs[0].name, xs[i].name);
      }
    }
  }

  /** A page leaves no gap: what sorts up to its cursor, but not to the one it was asked
      with, is on it. */
  lemma PageHasNoGap(xs: seq<Secret>, cursor: string, limit: nat, le: Order, name: string)
    requires Strict(le) && Sorted(xs, le) && limit > 0 && name in Names(xs) && (cursor != "" ==> !le(name, cursor))
    requires var next := PageOf(xs, cursor, limit).nextPageId; next == "" || le(name, next)
    ensures ListsName(PageOf(xs, cursor, limit).items, name)
  {
    var start := StartOf(xs, cursor);
    var page, end := PageOf(xs, cursor, limit), EndOf(xs, start, limit);
    StartIsAfter(xs, cursor, le);
    PageItems(xs, start, limit);
    var q :| 0 <= q < |xs| && xs[q].name == name;
    assert q >= start;
    assert page.items[q - start].name == name;
  }

  // ----------------------------------------------------------------- the walk

  lemma ListsAppend(all: seq<Listed>, more: seq<Listed>, name: string)
    requires ListsName(all, name) || ListsName(more, name)
    ensures ListsName(all + more, name)
  {
    if ListsName(all, name) {
      var i :| 0 <= i < |all| && all[i].name == name;
      assert (all + more)[i].name == name;
    } else {
      var i :| 0 <= i < |more| && more[i].name == name;
      assert (all + more)[|all| + i].name == name;
    }
  }

  /** What the map held at each of the first `n` requests had distinct names, none empty. */
  predicate AllNamed(stores: Stores, n: nat) {
    n == 0 || (AllNamed(stores, n - 1) && Named(stores(n - 1)))
  }

  /** The secret was there at each of the first `n` requests. */
  predicate AlwaysThere(stores: Stores, n: nat, name: string) {
    n == 0 || (AlwaysThere(stores, n - 1, name) && name in Names(stores(n - 1)))
  }

  /** Whatever changes between the requests: a secret that was there at every one of them is
      listed once the walk has come to its name, and so when it ends. */
  lemma {:induction false} NothingIsLost(stores: Stores, n: nat, limit: nat, le: Order, name: string)
    requires Strict(le) && limit > 0 && n > 0 && AllNamed(stores, n) && Asks(stores, n, limit, le)
    requires AlwaysThere(stores, n, name)
    requires var cursor := Walk(stores, n, limit, le).1; cursor == "" || le(name, cursor)
    ensures ListsName(Walk(stores, n, limit, le).0, name)
  {
    var (all, cursor) := Walk(stores, n - 1, limit, le);
    var xs := SortByName(stores(n - 1), le);
    SortIsSorted(stores(n - 1), le);
    if n > 1 && le(name, cursor) {
      NothingIsLost(stores, n - 1, limit, le, name);
    } else {
      PageHasNoGap(xs, cursor, limit, le, name);
    }
    ListsAppend(all, PageOf(xs, cursor, limit).items, name);
  }

  /** The cursor is the last name that the client has. */
  predicate EndsAtCursor(so: (seq<Listed>, string)) {
    so.0 != [] && so.0[|so.0| - 1].name == so.1
  }

  lemma CursorIsLast(so: (seq<Listed>, string), values: seq<Secret>, limit: nat, le: Order)
    requires limit > 0 && Fetch(so, values, limit, le).1 != ""
    ensures EndsAtCursor(Fetch(so, values, limit, le))
  {
  }

  /** The cursor of each request after the first can be continued from. */
  ghost predicate AlwaysAnswerable(stores: Stores, n: nat, limit: nat, le: Order) {
    n <= 1
    || (AlwaysAnswerable(stores, n - 1, limit, le)
        && Answerable(SortByName(stores(n - 1), le), Walk(stores, n - 1, limit, le).1, le))
  }

  lemma PageRises(xs: seq<Secret>, cursor: string, limit: nat, le: Order)
    requires Sorted(xs, le) && limit > 0
    ensures Rising(PageOf(xs, cursor, limit).items, le)
  {
    var start := StartOf(xs, cursor);
    var items, end := PageOf(xs, cursor, limit).items, EndOf(xs, start, limit);
    PageItems(xs, start, limit);
    forall i, j | 0 <= i < j < |items| ensures Before(le, items[i].name, items[j].name) {
      assert items[start + i - start].name == xs[start + i].name;
      assert items[start + j - start].name == xs[start + j].name;
    }
  }

  lemma RisingAppend(all: seq<Listed>, more: seq<Listed>, le: Order)
    requires Strict(le) && all != [] && Rising(more, le)
    ensures Rising(all + more, le) <==> Rising(all, le) && AllAfter(more, all[|all| - 1].name, le)
  {
    var both, last := all + more, all[|all| - 1];
    if Rising(both, le) {
      assert forall i | 0 <= i < |all| :: both[i] == all[i];
      assert forall i | 0 <= i < |more| :: both[|all| + i] == more[i];
    }
    if Rising(all, le) && AllAfter(more, last.name, le) {
      forall i, j | 0 <= i < j < |both| ensures Before(le, both[i].name, both[j].name) {
        if i < |all| <= j {
          assert i < |all| - 1 ==> Before(le, all[i].name, last.name);
          assert Before(le, last.name, more[j - |all|].name);
        }
      }
    }
  }

  lemma FirstRises(values: seq<Secret>, limit: nat, le: Order)
    requires Strict(le) && limit > 0 && Named(values)
    ensures Rising(Fetch(([], ""), values, limit, le).0, le)
  {
    var xs := SortByName(values, le);
    SortIsSorted(values, le);
    PageRises(xs, "", limit, le);
    assert [] + PageOf(xs, "", limit).items == PageOf(xs, "", limit).items;
  }

  lemma NextRises(so: (seq<Listed>, string), values: seq<Secret>, limit: nat, le: Order)
    requires Strict(le) && limit > 0 && Named(values)
    requires EndsAtCursor(so)
    ensures Rising(Fetch(so, values, limit, le).0, le)
      <==> Rising(so.0, le) && Answerable(SortByName(values, le), so.1, le)
  {
    var xs := SortByName(values, le);
    SortIsSorted(values, le);
    PageRises(xs, so.1, limit, le);
    RisingAppend(so.0, PageOf(xs, so.1, limit).items, le);
    ContinuesIffAnswerable(xs, so.1, limit, le);
  }

  /** Whatever changes between the requests: the names that the client gets rise strictly, so
      that nothing is listed twice, if and only if every cursor could be continued from. */
  lemma {:induction false} RisingIffAnswerable(stores: Stores, n: nat, limit: nat, le: Order)
    requires Strict(le) && limit > 0 && n > 0 && AllNamed(stores, n) && Asks(stores, n, limit, le)
    ensures Rising(Walk(stores, n, limit, le).0, le) <==> AlwaysAnswerable(stores, n, limit, le)
  {
    if n == 1 {
      FirstRises(stores(0), limit, le);
    } else {
      RisingIffAnswerable(stores, n - 1, limit, le);
      CursorIsLast(Walk(stores, n - 2, limit, le), stores(n - 2), limit, le);
      NextRises(Walk(stores, n - 1, limit, le), stores(n - 1), limit, le);
    }
  }

  /** Deleting the secret of the cursor between two requests is enough to break the order. */
  lemma DeletedCursorBreaksOrder(before: seq<Secret>, after: seq<Secret>, limit: nat, le: Order)
    requires Strict(le) && Named(before) && Named(after) && 2 <= limit < |before|
    requires var cursor := Fetch(([], ""), before, limit, le).1;
      Names(after) == Names(before) - {cursor}
    ensures Fetch(([], ""), before, limit, le).1 != ""
    ensures !Rising(Fetch(Fetch(([], ""), before, limit, le), after, limit, le).0, le)
  {
    var xs, ys := SortByName(before, le), SortByName(after, le);
    var so := Fetch(([], ""), before, limit, le);
    SortNames(before, le);
    SortIsSorted(before, le);
    SortIsSorted(after, le);
    PageItems(xs, 0, limit);
    CursorIsLast(([], ""), before, limit, le);
    assert so.1 == xs[limit - 1].name && le(xs[0].name, so.1) && xs[0].name in Names(ys);
    var k :| 0 <= k < |ys| && ys[k].name == xs[0].name;
    assert !Before(le, so.1, ys[k].name);
    NextRises(so, after, limit, le);
  }
}
