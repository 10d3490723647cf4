/** The item catalog and the player's inventory: an ordered list of catalog
    items in which duplicates are allowed. */
module Items {
  import opened Options
  import opened Text

  /** The five entries of the static item table. Items carry no per-instance
      state, so an inventory entry is just the catalog entry it refers to. */
  datatype Item = DreamElixir | CalmMist | FearShard | HopeSeed | BrokerLedger
  {
    function Name(): string {
      match this
      case DreamElixir => "Dream Elixir"
      case CalmMist => "Calm Mist"
      case FearShard => "Fear Shard"
      case HopeSeed => "Hope Seed"
      case BrokerLedger => "Broker Ledger"
    }

    function Desc(): string {
      match this
      case DreamElixir => "Restores 30 HP."
      case CalmMist => "Restores 25 Sanity."
      case FearShard => "A sliver of dread. Use in combat to damage enemies."
      case HopeSeed => "A tiny mote of hope. Can pacify weak nightmares."
      case BrokerLedger => "Record of transactions; required for one ending."
    }
  }

  /** `ITEMS[name]` / `name in ITEMS`: exact, case-sensitive lookup by name. */
  function ItemNamed(name: string): (r: Option<Item>)
    ensures r.Some? ==> r.value.Name() == name
    ensures forall it: Item :: it.Name() == name ==> r == Some(it)
  {
    if name == "Dream Elixir" then Some(DreamElixir)
    else if name == "Calm Mist" then Some(CalmMist)
    else if name == "Fear Shard" then Some(FearShard)
    else if name == "Hope Seed" then Some(HopeSeed)
    else if name == "Broker Ledger" then Some(BrokerLedger)
    else None
  }

  /** The test `it.name.lower() == item_name.lower()` used by removal. */
  predicate Matches(it: Item, name: string) {
    Lower(it.Name()) == Lower(name)
  }

  /** Index of the first item whose name matches `name` case-insensitively. */
  function FirstMatch(items: seq<Item>, name: string): (r: Option<nat>)
    ensures r.Some? ==> r.value < |items| && Matches(items[r.value], name)
    ensures r.Some? ==> forall j :: 0 <= j < r.value ==> !Matches(items[j], name)
    ensures r.None? ==> forall j :: 0 <= j < |items| ==> !Matches(items[j], name)
  {
    if items == [] then None
    else if Matches(items[0], name) then Some(0)
    else
      match FirstMatch(items[1..], name)
      case None => None
      case Some(k) => Some(k + 1)
  }

  /** The first match is the one a left-to-right scan stops at. */
  lemma FirstMatchAt(items: seq<Item>, name: string, i: nat)
    requires i <= |items|
    requires forall j :: 0 <= j < i ==> !Matches(items[j], name)
    ensures i < |items| && Matches(items[i], name) ==> FirstMatch(items, name) == Some(i)
    ensures i == |items| ==> FirstMatch(items, name) == None
  {
  }

  function RemoveAt(items: seq<Item>, i: nat): seq<Item>
    requires i < |items|
  {
    items[..i] + items[i + 1..]
  }

  /** Matching ignores letter case on both sides. */
  lemma {:induction false} MatchIgnoresCase(items: seq<Item>, name: string)
    ensures FirstMatch(items, Lower(name)) == FirstMatch(items, name)
  {
    if items != [] {
      LowerIdempotent(name);
      assert Matches(items[0], Lower(name)) == Matches(items[0], name);
      MatchIgnoresCase(items[1..], name);
    }
  }

  // ----- grouping used by Inventory.list -----

  function NamesOf(items: seq<Item>): (ns: seq<string>)
    ensures |ns| == |items|
    ensures forall i :: 0 <= i < |items| ==> ns[i] == items[i].Name()
  {
    seq(|items|, i requires 0 <= i < |items| => items[i].Name())
  }

  /** How many entries of the list carry exactly this name. */
  function Count(items: seq<Item>, name: string): nat {
    multiset(NamesOf(items))[name]
  }

  predicate Distinct(ns: seq<string>) {
    forall i, j :: 0 <= i < j < |ns| ==> ns[i] != ns[j]
  }

  /** The distinct names of `names`, each where it first occurs: the key order
      of the `counts` dict built by one pass over the list. */
  function FirstSeen(names: seq<string>): (fs: seq<string>)
    ensures Distinct(fs)
    ensures forall n :: n in fs <==> n in names
  {
    if names == [] then []
    else
      var fs := FirstSeen(names[..|names| - 1]);
      var last := names[|names| - 1];
      assert forall n :: n in names <==> n in names[..|names| - 1] || n == last by {
        assert names == names[..|names| - 1] + [last];
      }
      if last in fs then fs else fs + [last]
  }

  /** Position of the first occurrence of `n`. */
  function FirstIndex(names: seq<string>, n: string): (k: nat)
    requires n in names
    ensures k < |names| && names[k] == n
    ensures forall j :: 0 <= j < k ==> names[j] != n
  {
    if names[0] == n then 0 else 1 + FirstIndex(names[1..], n)
  }

  /** The description shown for a name: that of the first item carrying it. */
  function DescOf(items: seq<Item>, name: string): string {
    if items == [] then ""
    else if items[0].Name() == name then items[0].Desc()
    else DescOf(items[1..], name)
  }

  /** One line of the listing: a name, how often it occurs, its description. */
  datatype Entry = Entry(name: string, count: nat, desc: string)

  function Summary(items: seq<Item>): seq<Entry> {
    var fs := FirstSeen(NamesOf(items));
    seq(|fs|, i requires 0 <= i < |fs| => Entry(fs[i], Count(items, fs[i]), DescOf(items, fs[i])))
  }

  function TotalCount(es: seq<Entry>): nat {
    if es == [] then 0 else TotalCount(es[..|es| - 1]) + es[|es| - 1].count
  }

  const EmptyMessage := "Your inventory is empty."

  function RenderEntry(e: Entry): string {
    e.name + " x" + NatToString(e.count) + " - " + e.desc
  }

  /** The text returned by `Inventory.list`. */
  function Listing(items: seq<Item>): string {
    if items == [] then EmptyMessage
    else
      var es := Summary(items);
      JoinLines(seq(|es|, i requires 0 <= i < |es| => RenderEntry(es[i])))
  }

  // ----- lemmas about the grouping -----

  lemma FirstIndexOfPrefix(names: seq<string>, x: string, n: string)
    requires n in names
    ensures FirstIndex(names + [x], n) == FirstIndex(names, n)
  {
    if names[0] != n {
      assert (names + [x])[1..] == names[1..] + [x];
      FirstIndexOfPrefix(names[1..], x, n);
    }
  }

  lemma FirstIndexOfLast(names: seq<string>, x: string)
    requires x !in names
    ensures FirstIndex(names + [x], x) == |names|
  {
  }

  /** The listing's names come in order of first appearance in the list. */
  lemma {:induction false} FirstSeenOrder(names: seq<string>)
    ensures forall i, j :: 0 <= i < j < |FirstSeen(names)| ==>
      FirstIndex(names, FirstSeen(names)[i]) < FirstIndex(names, FirstSeen(names)[j])
  {
    if names != [] {
      var pre, last := names[..|names| - 1], names[|names| - 1];
      assert names == pre + [last];
      FirstSeenOrder(pre);
      var fs0 := FirstSeen(pre);
      var fs := FirstSeen(names);
      forall n | n in pre ensures FirstIndex(names, n) == FirstIndex(pre, n) {
        FirstIndexOfPrefix(pre, last, n);
      }
      if last !in fs0 {
        assert fs == fs0 + [last];
        FirstIndexOfLast(pre, last);
        forall i, j | 0 <= i < j < |fs|
          ensures FirstIndex(names, fs[i]) < FirstIndex(names, fs[j])
        {
          assert fs[i] == fs0[i] && fs[i] in pre;
          if j < |fs0| {
            assert fs[j] == fs0[j] && fs[j] in pre;
          } else {
            assert fs[j] == last;
          }
        }
      } else {
        assert fs == fs0;
        forall i, j | 0 <= i < j < |fs|
          ensures FirstIndex(names, fs[i]) < FirstIndex(names, fs[j])
        {
          assert fs[i] in pre && fs[j] in pre;
        }
      }
    }
  }

  lemma DistinctCountsOnce(ns: seq<string>, m: string)
    requires Distinct(ns)
    ensures multiset(ns)[m] == if m in ns then 1 else 0
  {
    if ns != [] {
      assert ns == [ns[0]] + ns[1..];
      assert Distinct(ns[1..]);
      DistinctCountsOnce(ns[1..], m);
      if ns[0] == m {
        assert m !in ns[1..];
      }
    }
  }

  function SumCounts(items: seq<Item>, ns: seq<string>): nat {
    if ns == [] then 0 else SumCounts(items, ns[..|ns| - 1]) + Count(items, ns[|ns| - 1])
  }

  lemma {:induction false} SumCountsExtend(pre: seq<Item>, x: Item, ns: seq<string>)
    ensures SumCounts(pre + [x], ns) == SumCounts(pre, ns) + multiset(ns)[x.Name()]
  {
    if ns != [] {
      var init, last := ns[..|ns| - 1], ns[|ns| - 1];
      assert ns == init + [last];
      SumCountsExtend(pre, x, init);
      assert NamesOf(pre + [x]) == NamesOf(pre) + [x.Name()];
    }
  }

  lemma {:induction false} TotalOfSummary(items: seq<Item>, fs: seq<string>)
    ensures TotalCount(seq(|fs|, i requires 0 <= i < |fs| => Entry(fs[i], Count(items, fs[i]), DescOf(items, fs[i]))))
         == SumCounts(items, fs)
  {
    var es := seq(|fs|, i requires 0 <= i < |fs| => Entry(fs[i], Count(items, fs[i]), DescOf(items, fs[i])));
    if fs != [] {
      var init := fs[..|fs| - 1];
      TotalOfSummary(items, init);
      assert es[..|es| - 1] == seq(|init|, i requires 0 <= i < |init| => Entry(init[i], Count(items, init[i]), DescOf(items, init[i])));
    }
  }

  /** Adding up the listed counts gives the number of items. */
  lemma {:induction false} SumCountsOfFirstSeen(items: seq<Item>)
    ensures SumCounts(items, FirstSeen(NamesOf(items))) == |items|
  {
    if items != [] {
      var pre, x := items[..|items| - 1], items[|items| - 1];
      assert items == pre + [x];
      assert NamesOf(items) == NamesOf(pre) + [x.Name()];
      assert NamesOf(items)[..|items| - 1] == NamesOf(pre);
      SumCountsOfFirstSeen(pre);
      var fs0 := FirstSeen(NamesOf(pre));
      SumCountsExtend(pre, x, fs0);
      DistinctCountsOnce(fs0, x.Name());
      if x.Name() !in fs0 {
        assert FirstSeen(NamesOf(items)) == fs0 + [x.Name()];
        assert (fs0 + [x.Name()])[..|fs0|] == fs0;
        assert x.Name() !in NamesOf(pre);
        assert Count(items, x.Name()) == 1;
      }
    }
  }

  lemma FirstSeenHead(names: seq<string>)
    requires names != []
    ensures FirstSeen(names) != [] && FirstSeen(names)[0] == names[0]
    decreases |names|
  {
    if |names| > 1 {
      var pre := names[..|names| - 1];
      FirstSeenHead(pre);
      assert pre[0] == names[0];
    }
  }

  lemma {:induction false} DescOfFirst(items: seq<Item>, name: string)
    requires name in NamesOf(items)
    ensures DescOf(items, name) == items[FirstIndex(NamesOf(items), name)].Desc()
  {
    var ns := NamesOf(items);
    if ns[0] != name {
      var rest := NamesOf(items[1..]);
      assert ns[1..] == rest;
      assert name in rest;
      DescOfFirst(items[1..], name);
      assert FirstIndex(ns, name) == 1 + FirstIndex(rest, name);
    }
  }

  /** An empty list gives an empty summary and the other way round. */
  lemma SummaryEmptyIff(items: seq<Item>)
    ensures items == [] <==> Summary(items) == []
  {
    if items != [] {
      FirstSeenHead(NamesOf(items));
    }
  }

  /** Every item's name has its entry, and no name has two. */
  lemma SummaryCoversNames(items: seq<Item>)
    ensures forall k :: 0 <= k < |items| ==> exists e :: e in Summary(items) && e.name == items[k].Name()
    ensures forall i, j :: 0 <= i < j < |Summary(items)| ==> Summary(items)[i].name != Summary(items)[j].name
  {
    var ns := NamesOf(items);
    var fs := FirstSeen(ns);
    var es := Summary(items);
    forall k | 0 <= k < |items|
      ensures exists e :: e in es && e.name == items[k].Name()
    {
      assert ns[k] in fs;
      var i :| 0 <= i < |fs| && fs[i] == ns[k];
      assert es[i] in es && es[i].name == items[k].Name();
    }
  }

  /** Entries come in order of each name's first appearance in the list. */
  lemma SummaryInFirstSeenOrder(items: seq<Item>)
    ensures forall i, j :: 0 <= i < j < |Summary(items)| ==>
      FirstIndex(NamesOf(items), Summary(items)[i].name) < FirstIndex(NamesOf(items), Summary(items)[j].name)
  {
    FirstSeenOrder(NamesOf(items));
  }

  /** Each entry counts the occurrences of its name and shows the description
      of the first item with that name. */
  lemma SummaryEntries(items: seq<Item>)
    ensures forall e :: e in Summary(items) ==>
      e.name in NamesOf(items) && e.count == Count(items, e.name) && e.count > 0
      && e.desc == items[FirstIndex(NamesOf(items), e.name)].Desc()
  {
    var ns := NamesOf(items);
    var fs := FirstSeen(ns);
    var es := Summary(items);
    forall e | e in es
      ensures e.name in ns && e.count == Count(items, e.name) && e.count > 0
      ensures e.desc == items[FirstIndex(ns, e.name)].Desc()
    {
      var i :| 0 <= i < |es| && es[i] == e;
      assert e.name == fs[i];
      DescOfFirst(items, e.name);
    }
  }

  /** The listed counts add up to the number of items. */
  lemma SummaryTotal(items: seq<Item>)
    ensures TotalCount(Summary(items)) == |items|
  {
    TotalOfSummary(items, FirstSeen(NamesOf(items)));
    SumCountsOfFirstSeen(items);
  }

  lemma RenderedLineStart(e: Entry, it: Item)
    requires e.name == it.Name()
    ensures RenderEntry(e) != [] && RenderEntry(e)[0] != 'Y'
  {
    assert RenderEntry(e) == it.Name() + (" x" + NatToString(e.count) + " - " + e.desc);
  }

  /** The listing is the fixed message exactly when the inventory is empty. */
  lemma ListingEmptyIff(items: seq<Item>)
    ensures Listing(items) == EmptyMessage <==> items == []
  {
    if items != [] {
      var ns := NamesOf(items);
      FirstSeenHead(ns);
      var es := Summary(items);
      assert es[0].name == items[0].Name();
      var lines := seq(|es|, i requires 0 <= i < |es| => RenderEntry(es[i]));
      RenderedLineStart(es[0], items[0]);
      JoinLinesHead(lines);
      assert Listing(items)[0] != 'Y';
      assert EmptyMessage[0] == 'Y';
    }
  }

  /** Taking an item out and putting it back leaves every count, and hence
      every listed count, as it was. */
  lemma RemoveThenAddKeepsCounts(items: seq<Item>, i: nat, n: string)
    requires i < |items|
    ensures Count(RemoveAt(items, i) + [items[i]], n) == Count(items, n)
  {
    var pre, x, post := items[..i], items[i], items[i + 1..];
    assert items == pre + [x] + post;
    NamesOfAppend(pre + [x], post);
    NamesOfAppend(pre, [x]);
    NamesOfAppend(pre + post, [x]);
    NamesOfAppend(pre, post);
    assert multiset(NamesOf(pre + post + [x])) == multiset(NamesOf(items));
  }

  lemma NamesOfAppend(a: seq<Item>, b: seq<Item>)
    ensures NamesOf(a + b) == NamesOf(a) + NamesOf(b)
  {
  }

  /** The player's inventory: `items` is the list the source appends to and
      pops from. */
  class Inventory {
    var items: seq<Item>

    constructor ()
      ensures items == []
    {
      items := [];
    }

    method Add(it: Item)
      modifies this
      ensures items == old(items) + [it]
    {
      items := items + [it];
    }

    /** Takes out the first item whose name matches case-insensitively and
        returns it; with no match nothing changes. */
    method Remove(name: string) returns (r: Option<Item>)
      modifies this
      ensures match FirstMatch(old(items), name)
        case None => r == None && items == old(items)
        case Some(i) => r == Some(old(items)[i]) && items == RemoveAt(old(items), i)
    {
      var i := 0;
      while i < |items|
        invariant 0 <= i <= |items|
        invariant items == old(items)
        invariant forall j :: 0 <= j < i ==> !Matches(items[j], name)
      {
        if Lower(items[i].Name()) == Lower(name) {
          FirstMatchAt(items, name, i);
          r := Some(items[i]);
          items := items[..i] + items[i + 1..];
          return;
        }
        i := i + 1;
      }
      FirstMatchAt(items, name, i);
      r := None;
    }

    /** The fixed message exactly when the inventory is empty; otherwise one
        line per distinct name (see `SummaryEntries`). */
    function List(): (s: string)
      reads this
      ensures s == EmptyMessage <==> items == []
    {
      ListingEmptyIff(items);
      Listing(items)
    }
  }
}
