/** The cursor pages of the secrets list, and the client loop that walks them. */
module SecretPages {
  import opened Common
  import opened Selections

  datatype Secret = Secret(name: string, value: string, description: Option<string>)

  /** A secret without its value. */
  datatype Listed = Listed(name: string, description: Option<string>)

  /** A page; the empty cursor stands for none, as it does for both sides. */
  datatype Page = Page(items: seq<Listed>, nextPageId: string)

  /** Whether a name does not sort after another. */
  type Order = (string, string) -> bool

  ghost predicate Total(le: Order) {
    && (forall a, b :: le(a, b) || le(b, a))
    && (forall a, b, c :: le(a, b) && le(b, c) ==> le(a, c))
  }

  predicate DistinctNames(xs: seq<Secret>) {
    forall i, j | 0 <= i < j < |xs| :: xs[i].name != xs[j].name
  }

  /** The first index of a name, or -1. */
  function FindIndex(xs: seq<Secret>, name: string): (i: int)
    ensures -1 <= i < |xs|
  {
    if xs == [] then -1
    else if xs[0].name == name then 0
    else
      var i := FindIndex(xs[1..], name);
      if i < 0 then -1 else i + 1
  }

  predicate Named(xs: seq<Secret>) {
    DistinctNames(xs) && forall i | 0 <= i < |xs| :: xs[i].name != ""
  }

  function Names(xs: seq<Secret>): set<string> {
    set i | 0 <= i < |xs| :: xs[i].name
  }

  lemma AppendNames(xs: seq<Secret>, s: Secret)
    requires Named(xs) && s.name != "" && s.name !in Names(xs)
    ensures Named(xs + [s]) && Names(xs + [s]) == Names(xs) + {s.name}
  {
    var ys := xs + [s];
    assert forall i | 0 <= i < |xs| :: ys[i] == xs[i] && xs[i].name in Names(xs);
    assert ys[|xs|] == s;
    forall name | name in Names(xs) ensures name in Names(ys) {
      var i :| 0 <= i < |xs| && xs[i].name == name;
      assert ys[i].name == name;
    }
  }

  lemma SplitNames(xs: seq<Secret>)
    requires Named(xs) && xs != []
    ensures var n := |xs| - 1;
      Named(xs[..n]) && xs[n].name !in Names(xs[..n]) && xs == xs[..n] + [xs[n]]
  {
    var n := |xs| - 1;
    assert forall i | 0 <= i < n :: xs[..n][i] == xs[i];
  }

  // ----------------------------------------------------------------- sorting

  function Insert(xs: seq<Secret>, s: Secret, le: Order): seq<Secret> {
    if xs == [] || le(xs[|xs| - 1].name, s.name) then xs + [s]
    else Insert(xs[..|xs| - 1], s, le) + [xs[|xs| - 1]]
  }

  /** A stable sort by name. */
  function SortByName(xs: seq<Secret>, le: Order): seq<Secret> {
    if xs == [] then [] else Insert(SortByName(xs[..|xs| - 1], le), xs[|xs| - 1], le)
  }

  ghost predicate Ordered(xs: seq<Secret>, le: Order) {
    forall i, j | 0 <= i < j < |xs| :: le(xs[i].name, xs[j].name)
  }

  lemma InsertedBelow(xs: seq<Secret>, ys: seq<Secret>, s: Secret, last: Secret, le: Order)
    requires multiset(ys) == multiset(xs) + multiset{s} && le(s.name, last.name)
    requires forall x | x in xs :: le(x.name, last.name)
    ensures forall y | y in ys :: le(y.name, last.name)
  {
    forall y | y in ys ensures le(y.name, last.name) {
      assert y in multiset(ys);
    }
  }

  lemma {:induction false} InsertSorts(xs: seq<Secret>, s: Secret, le: Order)
    requires Total(le) && Ordered(xs, le)
    ensures Ordered(Insert(xs, s, le), le)
    ensures multiset(Insert(xs, s, le)) == multiset(xs) + multiset{s}
  {
    if xs == [] {
    } else {
      var n := |xs| - 1;
      var prior, last := xs[..n], xs[n];
      assert xs == prior + [last];
      if le(last.name, s.name) {
      } else {
        InsertSorts(prior, s, le);
        InsertedBelow(prior, Insert(prior, s, le), s, last, le);
      }
    }
  }

  /** The sorted list is in order and holds the same secrets. */
  lemma {:induction false} SortSorts(xs: seq<Secret>, le: Order)
    requires Total(le)
    ensures Ordered(SortByName(xs, le), le)
    ensures multiset(SortByName(xs, le)) == multiset(xs)
  {
    if xs == [] {
    } else {
      var n := |xs| - 1;
      SortSorts(xs[..n], le);
      InsertSorts(SortByName(xs[..n], le), xs[n], le);
      assert xs == xs[..n] + [xs[n]];
    }
  }

  lemma {:induction false} InsertNames(xs: seq<Secret>, s: Secret, le: Order)
    requires Named(xs) && s.name != "" && s.name !in Names(xs)
    ensures Named(Insert(xs, s, le)) && |Insert(xs, s, le)| == |xs| + 1
    ensures Names(Insert(xs, s, le)) == Names(xs) + {s.name}
  {
    if xs == [] || le(xs[|xs| - 1].name, s.name) {
      AppendNames(xs, s);
    } else {
      var n := |xs| - 1;
      SplitNames(xs);
      AppendNames(xs[..n], xs[n]);
      InsertNames(xs[..n], s, le);
      AppendNames(Insert(xs[..n], s, le), xs[n]);
    }
  }

  lemma {:induction false} SortNames(xs: seq<Secret>, le: Order)
    requires Named(xs)
    ensures Named(SortByName(xs, le)) && |SortByName(xs, le)| == |xs|
    ensures Names(SortByName(xs, le)) == Names(xs)
  {
    if xs == [] {
    } else {
      var n := |xs| - 1;
      SplitNames(xs);
      AppendNames(xs[..n], xs[n]);
      SortNames(xs[..n], le);
      InsertNames(SortByName(xs[..n], le), xs[n], le);
    }
  }

  // ------------------------------------------------------------------- pages

  function Shown(xs: seq<Secret>): seq<Listed> {
    seq(|xs|, i requires 0 <= i < |xs| => Listed(xs[i].name, xs[i].description))
  }

  predicate Includes(s: string, part: string) {
    exists i :: 0 <= i <= |s| - |part| && part <= s[i..]
  }

  function Filtered(xs: seq<Secret>, nameContains: string, lower: string -> string): seq<Secret> {
    if nameContains == "" || xs == [] then xs
    else
      var n := |xs| - 1;
      Filtered(xs[..n], nameContains, lower)
      + if Includes(lower(xs[n].name), lower(nameContains)) then [xs[n]] else []
  }

  /** The page from an index on; its cursor is the last name, when more follows. */
  function PageFrom(sorted: seq<Secret>, start: nat, limit: nat): Page
    requires start <= |sorted|
  {
    var hasMore := start + limit < |sorted|;
    var items := Shown(sorted[start..if hasMore then start + limit else |sorted|]);
    Page(items, if hasMore && items != [] then items[|items| - 1].name else "")
  }

  /** A page of a sorted list: what follows the cursor, or the start for an unknown one. */
  function PageOf(sorted: seq<Secret>, pageId: string, limit: nat): Page {
    PageFrom(sorted, if pageId == "" then 0 else FindIndex(sorted, pageId) + 1, limit)
  }

  const PAGE_LIMIT := 100

  /** What the server's map holds when it answers each of a client's requests. */
  type Stores = nat -> seq<Secret>

  function Unchanging(values: seq<Secret>): Stores {
    _ => values
  }

  /** One more request. */
  function Fetch(so: (seq<Listed>, string), values: seq<Secret>, limit: nat, le: Order): (seq<Listed>, string) {
    var page := PageOf(SortByName(values, le), so.1, limit);
    (so.0 + page.items, page.nextPageId)
  }

  /** What the client has, and its cursor, after `n` requests. */
  function Walk(stores: Stores, n: nat, limit: nat, le: Order): (seq<Listed>, string) {
    if n == 0 then ([], "") else Fetch(Walk(stores, n - 1, limit, le), stores(n - 1), limit, le)
  }

  /** The client asks again only when it was given a cursor. */
  predicate Asks(stores: Stores, n: nat, limit: nat, le: Order) {
    n <= 1 || (Asks(stores, n - 1, limit, le) && Walk(stores, n - 1, limit, le).1 != "")
  }

  /** The secrets of a map as a list, in any order. */
  ghost predicate Enumerates(values: seq<Secret>, secrets: map<string, Secret>) {
    && Named(values) && Names(values) == secrets.Keys
    && forall x | x in values :: x.name in secrets && secrets[x.name] == x
  }

  /** The server's map and its handlers, and the client's loop over them. */
  class SecretServer {
    var secrets: map<string, Secret>
    const le: Order
    const lower: string -> string

    ghost predicate Valid()
      reads this
    {
      Total(le) && forall name | name in secrets :: name != "" && secrets[name].name == name
    }

    constructor (le: Order, lower: string -> string)
      requires Total(le)
      ensures Valid() && secrets == map[] && this.le == le && this.lower == lower
    {
      secrets := map[];
      this.le, this.lower := le, lower;
    }

    method Create(s: Secret) returns (created: bool)
      requires Valid()
      modifies this`secrets
      ensures Valid()
      ensures created <==> s.name != ""
      ensures secrets == if created then old(secrets)[s.name := s] else old(secrets)
    {
      created := s.name != "";
      if created {
        secrets := secrets[s.name := s];
      }
    }

    /** Renames a secret and keeps its value; another secret of the new name is replaced. */
    method Update(id: string, newName: string, description: Option<string>) returns (found: bool)
      requires Valid()
      modifies this`secrets
      ensures Valid()
      ensures found <==> id in old(secrets) && newName != ""
      ensures !found ==> secrets == old(secrets)
      ensures found ==>
        && secrets.Keys == old(secrets).Keys - {id} + {newName}
        && secrets[newName].value == old(secrets)[id].value
        && secrets[newName].description == (if description.Some? then description else old(secrets)[id].description)
        && forall name | name in secrets && name != newName :: secrets[name] == old(secrets)[name]
    {
      found := id in secrets && newName != "";
      if found {
        var s := secrets[id].(name := newName);
        if description.Some? {
          s := s.(description := description);
        }
        secrets := secrets - {id};
        secrets := secrets[newName := s];
      }
    }

    method Delete(id: string)
      requires Valid()
      modifies this`secrets
      ensures Valid() && secrets == old(secrets) - {id}
    {
      secrets := secrets - {id};
    }

    /** The handler's pagination. */
    method SearchSecrets(values: seq<Secret>, nameContains: string, pageId: string, limit: nat) returns (page: Page)
      ensures page == PageOf(SortByName(Filtered(values, nameContains, lower), le), pageId, limit)
    {
      var sorted := SortByName(Filtered(values, nameContains, lower), le);
      var startIndex := 0;
      if pageId != "" {
        var pageIndex := FindIndex(sorted, pageId);
        if pageIndex >= 0 {
          startIndex := pageIndex + 1;
        }
      }
      page := PageFrom(sorted, startIndex, limit);
    }

    /** Over a store that does not change, the client ends with every secret exactly once, in
        the order of the names, after one request for each hundred of them. */
    method GetSecrets(values: seq<Secret>) returns (all: seq<Listed>, requests: nat)
      requires Valid() && Enumerates(values, secrets)
      ensures all == Shown(SortByName(values, le))
      ensures RequestsFor(|all|, requests)
      ensures forall i, j | 0 <= i < j < |all| :: all[i].name != all[j].name && le(all[i].name, all[j].name)
      ensures forall x :: x in all <==> x.name in secrets && secrets[x.name].description == x.description
    {
      var pageId;
      all, requests, pageId := FetchPages(Unchanging(values), |values| + 1);
      SameStoreEnds(values, requests, le);
      ShownInOrder(values, le);
      ShownAreStore(values, secrets, le);
    }

    /** The loop, over whatever the map held at each request. It ends with the first answer
        without a cursor; `most` is how many requests are looked at. */
    method FetchPages(stores: Stores, most: nat) returns (all: seq<Listed>, requests: nat, pageId: string)
      requires most > 0
      ensures 1 <= requests <= most && (all, pageId) == Walk(stores, requests, PAGE_LIMIT, le)
      ensures Asks(stores, requests, PAGE_LIMIT, le)
      ensures requests < most ==> pageId == ""
    {
      all, requests, pageId := [], 0, "";
      while requests < most
        invariant requests <= most && (all, pageId) == Walk(stores, requests, PAGE_LIMIT, le)
        invariant Asks(stores, requests, PAGE_LIMIT, le) && (requests > 0 ==> pageId != "")
      {
        var page := SearchSecrets(stores(requests), "", pageId, PAGE_LIMIT);
        assert Walk(stores, requests + 1, PAGE_LIMIT, le) == (all + page.items, page.nextPageId);
        all := all + page.items;
        requests := requests + 1;
        pageId := page.nextPageId;
        if pageId == "" {
          break;
        }
      }
    }
  }

  /** The least number of requests, at least one, whose pages hold `n` secrets. */
  predicate RequestsFor(n: nat, requests: nat) {
    requests >= 1 && n <= 100 * requests && (requests > 1 ==> n > 100 * (requests - 1))
  }

  /** After the pages of the first `k` secrets. */
  ghost predicate FetchedSo(sorted: seq<Secret>, all: seq<Listed>, pageId: string, k: nat) {
    if k == 0 then pageId == "" && all == []
    else if k < |sorted| then pageId == sorted[k - 1].name != "" && all == Shown(sorted[..k])
    else pageId == "" && all == Shown(sorted)
  }

  lemma FetchStep(sorted: seq<Secret>, all: seq<Listed>, pageId: string, k: nat, limit: nat)
    requires Named(sorted) && limit > 0 && FetchedSo(sorted, all, pageId, k) && (k == 0 || k < |sorted|)
    ensures var page := PageOf(sorted, pageId, limit);
      FetchedSo(sorted, all + page.items, page.nextPageId, k + limit)
  {
    PageAfter(sorted, k, limit);
    assert Shown(sorted[..0]) == [];
  }

  lemma {:induction false} SameStore(values: seq<Secret>, n: nat, le: Order)
    requires Named(values) && n > 0 && Asks(Unchanging(values), n, PAGE_LIMIT, le)
    ensures n > 1 ==> 100 * (n - 1) < |values|
    ensures FetchedSo(SortByName(values, le), Walk(Unchanging(values), n, PAGE_LIMIT, le).0,
                      Walk(Unchanging(values), n, PAGE_LIMIT, le).1, 100 * n)
  {
    if n == 1 {
    } else {
      SameStore(values, n - 1, le);
    }
    FetchedMore(values, Walk(Unchanging(values), n - 1, PAGE_LIMIT, le), 100 * (n - 1), le);
  }

  lemma FetchedMore(values: seq<Secret>, so: (seq<Listed>, string), k: nat, le: Order)
    requires Named(values) && FetchedSo(SortByName(values, le), so.0, so.1, k) && (k == 0 || so.1 != "")
    ensures k == 0 || k < |values|
    ensures var more := Fetch(so, values, PAGE_LIMIT, le);
      FetchedSo(SortByName(values, le), more.0, more.1, k + 100)
  {
    var sorted := SortByName(values, le);
    SortNames(values, le);
    FetchStep(sorted, so.0, so.1, k, PAGE_LIMIT);
  }

  /** Over an unchanging store the walk ends, with the sorted list. */
  lemma SameStoreEnds(values: seq<Secret>, n: nat, le: Order)
    requires Named(values) && 1 <= n <= |values| + 1 && Asks(Unchanging(values), n, PAGE_LIMIT, le)
    requires n <= |values| ==> Walk(Unchanging(values), n, PAGE_LIMIT, le).1 == ""
    ensures Walk(Unchanging(values), n, PAGE_LIMIT, le).0 == Shown(SortByName(values, le))
    ensures RequestsFor(|values|, n) && |Shown(SortByName(values, le))| == |values|
  {
    SameStore(values, n, le);
    SortNames(values, le);
  }

  lemma SortedInStore(values: seq<Secret>, secrets: map<string, Secret>, le: Order, i: nat)
    requires Total(le) && Enumerates(values, secrets) && i < |SortByName(values, le)|
    ensures var s := SortByName(values, le)[i];
      s.name in secrets && secrets[s.name] == s
  {
    SortSorts(values, le);
    assert SortByName(values, le)[i] in multiset(values);
  }

  /** What the client shows is the map, once each and in order. */
  lemma ShownIsStore(values: seq<Secret>, secrets: map<string, Secret>, le: Order, x: Listed)
    requires Total(le) && Enumerates(values, secrets)
    ensures x in Shown(SortByName(values, le)) <==> x.name in secrets && secrets[x.name].description == x.description
  {
    var sorted := SortByName(values, le);
    var all := Shown(sorted);
    if x in all {
      var i :| 0 <= i < |all| && all[i] == x;
      SortedInStore(values, secrets, le, i);
    }
    if x.name in secrets && secrets[x.name].description == x.description {
      SortNames(values, le);
      var i :| 0 <= i < |sorted| && sorted[i].name == x.name;
      SortedInStore(values, secrets, le, i);
      assert all[i] == x;
    }
  }

  lemma ShownAreStore(values: seq<Secret>, secrets: map<string, Secret>, le: Order)
    requires Total(le) && Enumerates(values, secrets)
    ensures forall x :: x in Shown(SortByName(values, le)) <==>
      x.name in secrets && secrets[x.name].description == x.description
  {
    forall x ensures x in Shown(SortByName(values, le))
      <==> x.name in secrets && secrets[x.name].description == x.description {
      ShownIsStore(values, secrets, le, x);
    }
  }

  lemma ShownInOrder(values: seq<Secret>, le: Order)
    requires Total(le) && Named(values)
    ensures var all := Shown(SortByName(values, le));
      forall i, j | 0 <= i < j < |all| :: all[i].name != all[j].name && le(all[i].name, all[j].name)
  {
    SortSorts(values, le);
    SortNames(values, le);
  }

  lemma {:induction false} FindAt(xs: seq<Secret>, i: nat)
    requires DistinctNames(xs) && i < |xs|
    ensures FindIndex(xs, xs[i].name) == i
  {
    if i == 0 {
    } else {
      assert xs[0].name != xs[i].name;
      FindAt(xs[1..], i - 1);
    }
  }

  lemma {:induction false} NotFound(xs: seq<Secret>, name: string)
    requires name !in Names(xs)
    ensures FindIndex(xs, name) == -1
  {
    if xs == [] {
    } else {
      assert xs[0].name in Names(xs);
      assert forall i | 0 <= i < |xs| - 1 :: xs[1..][i] == xs[i + 1];
      NotFound(xs[1..], name);
    }
  }

  lemma PageFromAfter(sorted: seq<Secret>, k: nat, limit: nat)
    requires Named(sorted) && k <= |sorted| && limit > 0
    ensures var page := PageFrom(sorted, k, limit);
      FetchedSo(sorted, Shown(sorted[..k]) + page.items, page.nextPageId, k + limit)
  {
    if k + limit < |sorted| {
      assert sorted[..k] + sorted[k..k + limit] == sorted[..k + limit];
      ShownAppend(sorted[..k], sorted[k..k + limit]);
    } else {
      assert sorted[..k] + sorted[k..|sorted|] == sorted;
      ShownAppend(sorted[..k], sorted[k..|sorted|]);
    }
  }

  /** The page after the first `k` secrets: the next ones, and a cursor exactly when more follow. */
  lemma PageAfter(sorted: seq<Secret>, k: nat, limit: nat)
    requires Named(sorted) && (k == 0 || k < |sorted|) && limit > 0
    ensures var page := PageOf(sorted, if k == 0 then "" else sorted[k - 1].name, limit);
      FetchedSo(sorted, Shown(sorted[..k]) + page.items, page.nextPageId, k + limit)
  {
    PageFromAfter(sorted, k, limit);
    if k > 0 {
      FindAt(sorted, k - 1);
    }
  }

  lemma ShownAppend(xs: seq<Secret>, ys: seq<Secret>)
    ensures Shown(xs + ys) == Shown(xs) + Shown(ys)
  {
  }

  /** Once the cursor's secret is gone, the next request starts over with the first page. */
  lemma LostCursorRestarts(sorted: seq<Secret>, pageId: string, limit: nat)
    requires pageId !in Names(sorted)
    ensures PageOf(sorted, pageId, limit) == PageOf(sorted, "", limit)
  {
    NotFound(sorted, pageId);
  }

  // ------------------------------------------------------------ search and order

  /** A part of a text is what stands between two others. */
  lemma IncludesIff(s: string, part: string)
    ensures Includes(s, part) <==> exists before: string, after: string :: s == before + part + after
  {
    if Includes(s, part) {
      var i :| 0 <= i <= |s| - |part| && part <= s[i..];
      assert s == s[..i] + part + s[i + |part|..];
    }
    if before: string, after: string :| s == before + part + after {
      assert s[|before|..] == part + after;
    }
  }

  /** Whether a search for a part of a name, in any case, finds a secret. */
  function Finds(nameContains: string, lower: string -> string): Secret -> bool {
    (s: Secret) => Includes(lower(s.name), lower(nameContains))
  }

  /** A search keeps exactly the secrets it finds, in order; without one all are kept. */
  lemma {:induction false} FilteredAre(xs: seq<Secret>, nameContains: string, lower: string -> string)
    returns (at: seq<nat>)
    ensures nameContains == "" ==> Filtered(xs, nameContains, lower) == xs
    ensures nameContains != "" ==>
      Selected(xs, Finds(nameContains, lower), Same, Filtered(xs, nameContains, lower), at)
  {
    at := [];
    if nameContains != "" && xs != [] {
      var n := |xs| - 1;
      var before := FilteredAre(xs[..n], nameContains, lower);
      var prior := Filtered(xs[..n], nameContains, lower);
      SelectedNext(xs[..n], xs[n], Finds(nameContains, lower), Same, prior, before);
      assert xs[..n] + [xs[n]] == xs && prior + [] == prior;
      at := if Finds(nameContains, lower)(xs[n]) then before + [n] else before;
    }
  }

  ghost predicate Before(xs: seq<Secret>, a: Secret, b: Secret) {
    exists p, q :: 0 <= p < q < |xs| && xs[p] == a && xs[q] == b
  }

  lemma BeforeAppend(xs: seq<Secret>, a: Secret, b: Secret, s: Secret)
    ensures Before(xs, a, b) ==> Before(xs + [s], a, b)
    ensures a in xs ==> Before(xs + [s], a, s)
  {
    var ys := xs + [s];
    if Before(xs, a, b) {
      var p, q :| 0 <= p < q < |xs| && xs[p] == a && xs[q] == b;
      assert ys[p] == a && ys[q] == b;
    }
    if a in xs {
      var p :| 0 <= p < |xs| && xs[p] == a;
      assert ys[p] == a && ys[|xs|] == s;
    }
  }

  lemma {:induction false} InsertKeepsBefore(xs: seq<Secret>, s: Secret, le: Order, a: Secret, b: Secret)
    requires Before(xs, a, b)
    ensures Before(Insert(xs, s, le), a, b)
  {
    if xs == [] || le(xs[|xs| - 1].name, s.name) {
      BeforeAppend(xs, a, b, s);
    } else {
      var n := |xs| - 1;
      if Before(xs[..n], a, b) {
        InsertKeepsBefore(xs[..n], s, le, a, b);
      } else {
        InsertKeeps(xs[..n], s, le, a);
      }
      BeforeAppend(Insert(xs[..n], s, le), a, b, xs[n]);
    }
  }

  lemma {:induction false} InsertKeeps(xs: seq<Secret>, s: Secret, le: Order, a: Secret)
    ensures a in Insert(xs, s, le) <==> a in xs || a == s
  {
    if xs == [] || le(xs[|xs| - 1].name, s.name) {
    } else {
      InsertKeeps(xs[..|xs| - 1], s, le, a);
      assert xs == xs[..|xs| - 1] + [xs[|xs| - 1]];
    }
  }

  lemma {:induction false} InsertAfterTies(xs: seq<Secret>, s: Secret, le: Order, a: Secret)
    requires a in xs && le(a.name, s.name)
    ensures Before(Insert(xs, s, le), a, s)
  {
    if le(xs[|xs| - 1].name, s.name) {
      BeforeAppend(xs, a, s, s);
    } else {
      var n := |xs| - 1;
      assert xs == xs[..n] + [xs[n]] && a != xs[n];
      InsertAfterTies(xs[..n], s, le, a);
      BeforeAppend(Insert(xs[..n], s, le), a, s, xs[n]);
    }
  }

  lemma {:induction false} SortKeeps(xs: seq<Secret>, le: Order, a: Secret)
    ensures a in SortByName(xs, le) <==> a in xs
  {
    if xs == [] {
    } else {
      var n := |xs| - 1;
      SortKeeps(xs[..n], le, a);
      InsertKeeps(SortByName(xs[..n], le), xs[n], le, a);
      assert xs == xs[..n] + [xs[n]];
    }
  }

  /** The sort is stable: of two secrets, the one that comes first in the map stays first
      unless it sorts strictly after the other. */
  lemma {:induction false} SortIsStable(xs: seq<Secret>, le: Order, i: nat, j: nat)
    requires i < j < |xs| && le(xs[i].name, xs[j].name)
    ensures Before(SortByName(xs, le), xs[i], xs[j])
  {
    var n := |xs| - 1;
    if j == n {
      SortKeeps(xs[..n], le, xs[i]);
      assert xs[..n][i] == xs[i];
      InsertAfterTies(SortByName(xs[..n], le), xs[n], le, xs[i]);
    } else {
      SortIsStable(xs[..n], le, i, j);
      InsertKeepsBefore(SortByName(xs[..n], le), xs[n], le, xs[i], xs[j]);
    }
  }
}
