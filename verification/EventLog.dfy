/** The durable event log (src/doppel_agent/persistence/events.py): one table whose rows get ever
    growing sequence numbers, read per run, in order, after a given number. */
module EventLog {
  datatype Item<P> = Item(number: nat, run: string, body: P)

  /** Strictly growing, positive sequence numbers. */
  ghost predicate Ascending<P>(items: seq<Item<P>>) {
    && (forall i | 0 <= i < |items| :: items[i].number > 0)
    && (forall i, j | 0 <= i < j < |items| :: items[i].number < items[j].number)
  }

  /** The rows of one run. */
  function Own<P>(items: seq<Item<P>>, run: string): (own: seq<Item<P>>)
    ensures forall item | item in own :: item in items && item.run == run
  {
    if items == [] then []
    else if items[0].run == run then [items[0]] + Own(items[1..], run)
    else Own(items[1..], run)
  }

  /** The rows after a sequence number. */
  function After<P>(items: seq<Item<P>>, seen: nat): (later: seq<Item<P>>)
    ensures forall item | item in later :: item in items && item.number > seen
  {
    if items == [] then []
    else if items[0].number > seen then [items[0]] + After(items[1..], seen)
    else After(items[1..], seen)
  }

  /** The rows up to a sequence number. */
  function UpTo<P>(items: seq<Item<P>>, seen: nat): seq<Item<P>> {
    if items == [] then []
    else if items[0].number <= seen then [items[0]] + UpTo(items[1..], seen)
    else UpTo(items[1..], seen)
  }

  function LastSeq<P>(items: seq<Item<P>>): nat {
    if items == [] then 0 else items[|items| - 1].number
  }

  lemma {:induction false} OwnAscending<P>(items: seq<Item<P>>, run: string)
    requires Ascending(items)
    ensures Ascending(Own(items, run))
  {
    if items != [] {
      OwnAscending(items[1..], run);
      var own := Own(items, run);
      forall i, j | 0 <= i < j < |own| ensures own[i].number < own[j].number {
        if items[0].run == run {
          assert own[j] in Own(items[1..], run);
          if i == 0 {
            var k :| 0 <= k < |items[1..]| && items[1..][k] == own[j];
            assert items[0].number < items[k + 1].number;
          }
        }
      }
    }
  }

  lemma {:induction false} OwnAppend<P>(items: seq<Item<P>>, more: seq<Item<P>>, run: string)
    ensures Own(items + more, run) == Own(items, run) + Own(more, run)
  {
    if items == [] {
      assert items + more == more;
    } else {
      assert (items + more)[1..] == items[1..] + more;
      OwnAppend(items[1..], more, run);
    }
  }

  lemma {:induction false} AfterAppend<P>(items: seq<Item<P>>, more: seq<Item<P>>, seen: nat)
    ensures After(items + more, seen) == After(items, seen) + After(more, seen)
  {
    if items == [] {
      assert items + more == more;
    } else {
      assert (items + more)[1..] == items[1..] + more;
      AfterAppend(items[1..], more, seen);
    }
  }

  lemma {:induction false} AllAfter<P>(items: seq<Item<P>>, seen: nat)
    requires forall i | 0 <= i < |items| :: items[i].number > seen
    ensures After(items, seen) == items && UpTo(items, seen) == []
  {
    if items != [] { AllAfter(items[1..], seen); }
  }

  lemma {:induction false} SplitAt<P>(items: seq<Item<P>>, seen: nat, k: nat)
    requires k <= |items| && (forall i | 0 <= i < k :: items[i].number <= seen)
    requires forall i | k <= i < |items| :: items[i].number > seen
    ensures UpTo(items, seen) == items[..k] && After(items, seen) == items[k..]
    decreases k
  {
    if k == 0 {
      AllAfter(items, seen);
    } else {
      SplitAt(items[1..], seen, k - 1);
      assert items[..k] == [items[0]] + items[1..][..k - 1] && items[k..] == items[1..][k - 1..];
    }
  }

  /** In an ascending log, the rows up to a number are a prefix, and reading after it drops that prefix. */
  lemma AfterIsSuffix<P>(items: seq<Item<P>>, seen: nat) returns (k: nat)
    requires Ascending(items)
    ensures k <= |items| && UpTo(items, seen) == items[..k] && After(items, seen) == items[k..]
    ensures forall i | 0 <= i < k :: items[i].number <= seen
    ensures forall i | k <= i < |items| :: items[i].number > seen
  {
    k := 0;
    while k < |items| && items[k].number <= seen
      invariant k <= |items| && forall i | 0 <= i < k :: items[i].number <= seen
    {
      k := k + 1;
    }
    SplitAt(items, seen, k);
  }

  // ----- mergeEvents (frontend/src/runtime.ts) -----

  /** The map filled from a list: a later item replaces an earlier one of the same number. */
  function BySequence<P>(items: seq<Item<P>>): (m: map<nat, Item<P>>)
    ensures forall k | k in m :: m[k].number == k && m[k] in items
    ensures forall item | item in items :: item.number in m
  {
    if items == [] then map[]
    else BySequence(items[..|items| - 1])[items[|items| - 1].number := items[|items| - 1]]
  }

  ghost predicate Keyed<P>(m: map<nat, Item<P>>) {
    forall k | k in m :: m[k].number == k
  }

  /** `items` lists the values of `m` in the order of their numbers. */
  ghost predicate Lists<P>(items: seq<Item<P>>, m: map<nat, Item<P>>) {
    && (forall i, j | 0 <= i < j < |items| :: items[i].number < items[j].number)
    && (forall i | 0 <= i < |items| :: items[i].number in m && m[items[i].number] == items[i])
    && (forall k | k in m :: m[k] in items)
  }

  lemma ListsTogether<P>(a: seq<Item<P>>, b: seq<Item<P>>, m: map<nat, Item<P>>)
    requires a != [] && Lists(a, m) && Lists(b, m)
    ensures b != [] && a[|a| - 1].number <= b[|b| - 1].number
  {
    var last := a[|a| - 1];
    assert m[last.number] in b;
    var i :| 0 <= i < |b| && b[i] == last;
    assert i < |b| - 1 ==> b[i].number < b[|b| - 1].number;
  }

  /** There is only one such list. */
  lemma {:induction false} ListsUnique<P>(a: seq<Item<P>>, b: seq<Item<P>>, m: map<nat, Item<P>>)
    requires Lists(a, m) && Lists(b, m) && Keyed(m)
    ensures a == b
    decreases |a|
  {
    if a != [] { ListsTogether(a, b, m); }
    if b != [] { ListsTogether(b, a, m); }
    if |a| > 0 {
      var fewer: map<nat, Item<P>> := m - {a[|a| - 1].number};
      ListsInit(a, m);
      ListsInit(b, m);
      ListsUnique(a[..|a| - 1], b[..|b| - 1], fewer);
    }
  }

  lemma ListsInit<P>(a: seq<Item<P>>, m: map<nat, Item<P>>)
    requires a != [] && Lists(a, m) && Keyed(m)
    ensures Lists(a[..|a| - 1], m - {a[|a| - 1].number})
  {
    var init, last := a[..|a| - 1], a[|a| - 1];
    forall k | k in m && k != last.number ensures m[k] in init {
      assert m[k] in a && m[k] != last;
    }
  }

  /** Put one item in its place: the plain meaning of merging. */
  function Insert<P>(items: seq<Item<P>>, item: Item<P>): seq<Item<P>> {
    if items == [] then [item]
    else
      var init, last := items[..|items| - 1], items[|items| - 1];
      if item.number > last.number then items + [item]
      else if item.number == last.number then init + [item]
      else Insert(init, item) + [last]
  }

  function InsertAll<P>(items: seq<Item<P>>, incoming: seq<Item<P>>): seq<Item<P>>
    decreases |incoming|
  {
    if incoming == [] then items
    else Insert(InsertAll(items, incoming[..|incoming| - 1]), incoming[|incoming| - 1])
  }

  lemma ListsBelow<P>(items: seq<Item<P>>, m: map<nat, Item<P>>, bound: nat)
    requires forall i | 0 <= i < |items| :: items[i].number < bound
    ensures forall item | item in items :: item.number < bound
  {
  }

  lemma ListsAppend<P>(items: seq<Item<P>>, m: map<nat, Item<P>>, item: Item<P>)
    requires Lists(items, m) && forall k | k in m :: k < item.number
    ensures Lists(items + [item], m[item.number := item])
  {
    var longer, after := items + [item], m[item.number := item];
    forall k | k in after ensures after[k] in longer {
      if k != item.number { assert m[k] in items; }
      assert longer[|items|] == item;
    }
  }

  /** Inserting at or after the end. */
  lemma InsertAtEnd<P>(items: seq<Item<P>>, item: Item<P>, m: map<nat, Item<P>>)
    requires Lists(items, m) && Keyed(m) && items != [] && items[|items| - 1].number <= item.number
    ensures Lists(Insert(items, item), m[item.number := item])
  {
    var init, last := items[..|items| - 1], items[|items| - 1];
    if item.number == last.number {
      ListsInit(items, m);
      var fewer: map<nat, Item<P>> := m - {last.number};
      ListsBelow(init, m, last.number);
      assert m[item.number := item] == fewer[item.number := item];
      ListsAppend(init, fewer, item);
    } else {
      ListsAppend(items, m, item);
    }
  }

  lemma {:induction false} InsertLists<P>(items: seq<Item<P>>, item: Item<P>, m: map<nat, Item<P>>)
    requires Lists(items, m) && Keyed(m)
    ensures Lists(Insert(items, item), m[item.number := item])
  {
    if items != [] {
      var init, last := items[..|items| - 1], items[|items| - 1];
      if item.number >= last.number {
        InsertAtEnd(items, item, m);
      } else {
        ListsInit(items, m);
        var fewer: map<nat, Item<P>> := m - {last.number};
        var rest: map<nat, Item<P>> := fewer[item.number := item];
        InsertLists(init, item, fewer);
        assert m[item.number := item] == rest[last.number := last];
        ListsAppend(Insert(init, item), rest, last);
      }
    }
  }

  lemma {:induction false} InsertAllLists<P>(items: seq<Item<P>>)
    ensures Lists(InsertAll([], items), BySequence(items))
  {
    if items != [] {
      InsertAllLists(items[..|items| - 1]);
      InsertLists(InsertAll([], items[..|items| - 1]), items[|items| - 1], BySequence(items[..|items| - 1]));
    }
  }

  method MergeEvents<P>(current: seq<Item<P>>, incoming: seq<Item<P>>) returns (merged: seq<Item<P>>)
    ensures merged == InsertAll([], current + incoming)
  {
    var all := current + incoming;
    var m := FillMap(all);
    merged := SortBySequence(m);
    InsertAllLists(all);
    ListsUnique(merged, InsertAll([], all), m);
  }

  method FillMap<P>(all: seq<Item<P>>) returns (m: map<nat, Item<P>>)
    ensures m == BySequence(all)
  {
    m := map[];
    for i := 0 to |all|
      invariant m == BySequence(all[..i])
    {
      m := m[all[i].number := all[i]];
      assert all[..i + 1][..i] == all[..i];
    }
    assert all[..|all|] == all;
  }

  /** The values of the keys no longer in `left`, sorted, all below what is left. */
  ghost predicate SortedSoFar<P>(sorted: seq<Item<P>>, m: map<nat, Item<P>>, left: set<nat>) {
    && left <= m.Keys && Lists(sorted, m - left)
    && forall i, k | 0 <= i < |sorted| && k in left :: sorted[i].number < k
  }

  lemma SortNext<P>(sorted: seq<Item<P>>, m: map<nat, Item<P>>, left: set<nat>, least: nat)
    requires Keyed(m) && SortedSoFar(sorted, m, left) && least in left && forall k | k in left :: least <= k
    ensures SortedSoFar(sorted + [m[least]], m, left - {least})
  {
    ListsAppend(sorted, m - left, m[least]);
    assert m - (left - {least}) == (m - left)[least := m[least]];
  }

  /** Sorting the distinct numbers of the map's values. */
  method SortBySequence<P>(m: map<nat, Item<P>>) returns (sorted: seq<Item<P>>)
    requires Keyed(m)
    ensures Lists(sorted, m)
  {
    sorted := [];
    var left := m.Keys;
    while left != {}
      invariant SortedSoFar(sorted, m, left)
      decreases |left|
    {
      var least := Least(left);
      SortNext(sorted, m, left, least);
      sorted := sorted + [m[least]];
      left := left - {least};
    }
    assert m - left == m;
  }

  method Least(keys: set<nat>) returns (least: nat)
    requires keys != {}
    ensures least in keys && forall k | k in keys :: least <= k
  {
    least :| least in keys;
    var left := keys - {least};
    while left != {}
      invariant least in keys && left <= keys
      invariant forall k | k in keys :: k in left || least <= k
      decreases |left|
    {
      var k :| k in left;
      if k < least { least := k; }
      left := left - {k};
    }
  }

  // ----- merging stretches of a log -----

  lemma {:induction false} InsertKnown<P>(log: seq<Item<P>>, n: nat, i: nat)
    requires Ascending(log) && i < n <= |log|
    ensures Insert(log[..n], log[i]) == log[..n]
    decreases n
  {
    assert log[..n][..n - 1] == log[..n - 1];
    if i < n - 1 {
      InsertKnown(log, n - 1, i);
    }
  }

  function Max(a: nat, b: nat): nat {
    if a < b then b else a
  }

  lemma InsertNext<P>(log: seq<Item<P>>, items: seq<Item<P>>, n: nat, i: nat)
    requires Ascending(log) && i <= n <= |log| && i < |log| && items == log[..n]
    ensures Insert(items, log[i]) == log[..Max(n, i + 1)]
  {
    if i < n { InsertKnown(log, n, i); }
  }

  /** Inserting a stretch that starts inside or right after a prefix of the log gives the longer prefix. */
  lemma {:induction false} InsertStretch<P>(log: seq<Item<P>>, items: seq<Item<P>>, incoming: seq<Item<P>>, n: nat, k: nat)
    requires Ascending(log) && k <= n <= |log| && k + |incoming| <= |log|
    requires items == log[..n] && incoming == log[k..k + |incoming|]
    ensures InsertAll(items, incoming) == log[..Max(n, k + |incoming|)]
    decreases |incoming|
  {
    if incoming != [] {
      var init, last := incoming[..|incoming| - 1], incoming[|incoming| - 1];
      var i := k + |init|;
      assert init == log[k..i] && last == log[i];
      InsertStretch(log, items, init, n, k);
      var before := InsertAll(items, init);
      InsertNext(log, before, Max(n, i), i);
    }
  }

  lemma {:induction false} InsertSplit<P>(items: seq<Item<P>>, more: seq<Item<P>>)
    ensures InsertAll([], items + more) == InsertAll(InsertAll([], items), more)
    decreases |more|
  {
    if more == [] {
      assert items + more == items;
    } else {
      assert (items + more)[..|items + more| - 1] == items + more[..|more| - 1];
      InsertSplit(items, more[..|more| - 1]);
    }
  }

  /** mergeEvents on two stretches of one log: what is held, and what was read from inside it. */
  lemma MergeStretch<P>(log: seq<Item<P>>, held: seq<Item<P>>, page: seq<Item<P>>, k: nat)
    requires Ascending(log) && held <= log && k <= |held| && k + |page| <= |log| && page == log[k..k + |page|]
    ensures InsertAll([], held + page) == log[..Max(|held|, k + |page|)]
  {
    InsertSplit(held, page);
    InsertStretch(log, [], held, 0, 0);
    InsertStretch(log, held, page, |held|, k);
  }

  lemma {:induction false} OwnOfOwn<P>(items: seq<Item<P>>, run: string)
    requires forall i | 0 <= i < |items| :: items[i].run == run
    ensures Own(items, run) == items
  {
    if items != [] { OwnOfOwn(items[1..], run); }
  }

  lemma BeyondHeld<P>(own: seq<Item<P>>, held: seq<Item<P>>, seen: nat)
    requires Ascending(own) && held <= own && seen <= LastSeq(held)
    ensures forall i | |held| <= i < |own| :: own[i].number > seen
  {
    assert held != [] ==> held[|held| - 1] == own[|held| - 1];
  }

  /** A page read from inside what is held is a stretch of the log that starts inside it. */
  lemma PageIndex<P>(own: seq<Item<P>>, held: seq<Item<P>>, seen: nat, page: seq<Item<P>>) returns (k: nat)
    requires Ascending(own) && held <= own && seen <= LastSeq(held) && page <= After(own, seen)
    ensures k <= |held| && k + |page| <= |own| && page == own[k..k + |page|] && After(own, seen) == own[k..]
  {
    k := AfterIsSuffix(own, seen);
    BeyondHeld(own, held, seen);
    assert |held| < |own| ==> own[|held|].number > seen;
    SliceOfSuffix(own, After(own, seen), page, k);
  }

  lemma SliceOfSuffix<P>(own: seq<Item<P>>, later: seq<Item<P>>, page: seq<Item<P>>, k: nat)
    requires k <= |own| && later == own[k..] && page <= later
    ensures k + |page| <= |own| && page == own[k..k + |page|]
  {
  }

  lemma LastSeqMonotone<P>(own: seq<Item<P>>, n: nat, m: nat)
    requires Ascending(own) && n <= m <= |own|
    ensures LastSeq(own[..n]) <= LastSeq(own[..m])
  {
    assert 0 < n < m ==> own[n - 1].number < own[m - 1].number;
  }

  lemma StretchFacts<P>(own: seq<Item<P>>, held: seq<Item<P>>, page: seq<Item<P>>, k: nat, merged: seq<Item<P>>)
    requires Ascending(own) && held <= own && k <= |held| && k + |page| <= |own| && page == own[k..k + |page|]
    requires merged == own[..Max(|held|, k + |page|)]
    ensures held <= merged && LastSeq(held) <= LastSeq(merged)
    ensures page != [] ==> page[|page| - 1].number <= LastSeq(merged)
    ensures page == own[k..] ==> merged == own
  {
    var m := Max(|held|, k + |page|);
    assert held == own[..|held|];
    LastSeqMonotone(own, |held|, m);
    LastSeqMonotone(own, k + |page|, m);
    assert page != [] ==> page[|page| - 1] == own[k + |page| - 1];
    assert own[..|own|] == own;
  }

  /** Merging such a page keeps a prefix of the log, and grows it to whichever end is further. */
  lemma MergePage<P>(own: seq<Item<P>>, held: seq<Item<P>>, seen: nat, page: seq<Item<P>>, merged: seq<Item<P>>)
    requires Ascending(own) && held <= own && seen <= LastSeq(held) && page <= After(own, seen)
    requires merged == InsertAll([], held + page)
    ensures merged <= own && held <= merged && LastSeq(held) <= LastSeq(merged)
    ensures page != [] ==> page[|page| - 1].number <= LastSeq(merged)
    ensures page == After(own, seen) ==> merged == own
  {
    var k := PageIndex(own, held, seen, page);
    MergeStretch(own, held, page, k);
    StretchFacts(own, held, page, k, merged);
  }
}
