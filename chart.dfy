/** The "Stock by Location" chart (components/InventoryChart.tsx): units are
    summed per location into a dictionary whose entries, in insertion order,
    become the bars. */
module Chart {
  import opened Types
  import opened Totals

  /** `curr.location || "Unknown"`: an empty location is bucketed as "Unknown". */
  function LocationKey(p: Product): (k: string)
    ensures k != ""
    ensures p.location != "" ==> k == p.location
    ensures p.location == "" ==> k == "Unknown"
  {
    if p.location == "" then "Unknown" else p.location
  }

  /** One dictionary entry, and one `{ name, qty }` row of the chart data. */
  datatype Entry = Entry(name: string, qty: int)

  function Names(es: seq<Entry>): set<string> {
    set i | 0 <= i < |es| :: es[i].name
  }

  lemma NamesCons(e: Entry, es: seq<Entry>)
    ensures Names([e] + es) == {e.name} + Names(es)
  {
    var l := [e] + es;
    forall k | k in Names(l) ensures k in {e.name} + Names(es) {
      var i :| 0 <= i < |l| && l[i].name == k;
      if i > 0 {
        assert es[i - 1].name == k;
      }
    }
    forall k | k in Names(es) ensures k in Names(l) {
      var i :| 0 <= i < |es| && es[i].name == k;
      assert l[i + 1].name == k;
    }
    assert l[0].name == e.name;
  }

  /** A dictionary holds each key once. */
  predicate DistinctNames(es: seq<Entry>) {
    forall i, j :: 0 <= i < j < |es| ==> es[i].name != es[j].name
  }

  function SumQty(es: seq<Entry>): int {
    if es == [] then 0 else es[0].qty + SumQty(es[1..])
  }

  /** `acc[key] || 0`. */
  function Lookup(es: seq<Entry>, key: string): int {
    if es == [] then 0 else if es[0].name == key then es[0].qty else Lookup(es[1..], key)
  }

  /** `acc[key] = (acc[key] || 0) + d`: an existing key keeps its place and
      grows by `d`, a new key is appended; the dictionary total grows by `d`. */
  function Upsert(acc: seq<Entry>, key: string, d: int): (r: seq<Entry>)
    ensures Names(r) == Names(acc) + {key}
    ensures key in Names(acc) ==> |r| == |acc|
    ensures key !in Names(acc) ==> r == acc + [Entry(key, d)]
    ensures forall i :: 0 <= i < |acc| ==> r[i].name == acc[i].name
    ensures forall k :: Lookup(r, k) == Lookup(acc, k) + (if k == key then d else 0)
    ensures SumQty(r) == SumQty(acc) + d
    ensures DistinctNames(acc) ==> DistinctNames(r)
  {
    if acc == [] then
      NamesCons(Entry(key, d), []);
      assert Names([]) == {};
      [Entry(key, d)]
    else if acc[0].name == key then
      NamesCons(acc[0], acc[1..]);
      NamesCons(acc[0].(qty := acc[0].qty + d), acc[1..]);
      assert acc == [acc[0]] + acc[1..];
      [acc[0].(qty := acc[0].qty + d)] + acc[1..]
    else
      var tail := Upsert(acc[1..], key, d);
      NamesCons(acc[0], acc[1..]);
      NamesCons(acc[0], tail);
      assert acc == [acc[0]] + acc[1..];
      [acc[0]] + tail
  }

  /** The `locationData` reduce, folded left to right from `{}`. */
  function LocationData(ps: seq<Product>): (data: seq<Entry>)
    ensures DistinctNames(data)
    ensures |data| <= |ps|
    ensures data == [] <==> ps == []
  {
    if ps == [] then []
    else
      var p := ps[|ps| - 1];
      Upsert(LocationData(ps[..|ps| - 1]), LocationKey(p), p.qty)
  }

  /** Units of the products whose bucket is `key`. */
  function SumAt(ps: seq<Product>, key: string): int {
    if ps == [] then 0
    else SumAt(ps[..|ps| - 1], key) + (if LocationKey(ps[|ps| - 1]) == key then ps[|ps| - 1].qty else 0)
  }

  /** The bucket keys that occur among the products. */
  function Keys(ps: seq<Product>): set<string> {
    set i | 0 <= i < |ps| :: LocationKey(ps[i])
  }

  /** The fold builds a dictionary with one entry per occurring location key,
      each holding that key's units; together they hold every unit. */
  lemma {:induction false} LocationDataSpec(ps: seq<Product>)
    ensures DistinctNames(LocationData(ps))
    ensures Names(LocationData(ps)) == Keys(ps)
    ensures forall k :: Lookup(LocationData(ps), k) == SumAt(ps, k)
    ensures SumQty(LocationData(ps)) == TotalItems(ps)
    decreases |ps|
  {
    if ps == [] {
      assert Keys(ps) == {};
    } else {
      var init := ps[..|ps| - 1];
      LocationDataSpec(init);
      KeysSnoc(ps);
      var data, p := LocationData(init), ps[|ps| - 1];
      assert LocationData(ps) == Upsert(data, LocationKey(p), p.qty);
      assert |Keys(init)| <= |init| by {
        NamesCardinality(data);
      }
      assert TotalItems(ps) == TotalItems(init) + p.qty;
    }
  }

  lemma KeysSnoc(ps: seq<Product>)
    requires ps != []
    ensures Keys(ps) == Keys(ps[..|ps| - 1]) + {LocationKey(ps[|ps| - 1])}
  {
    var init := ps[..|ps| - 1];
    forall k | k in Keys(ps) ensures k in Keys(init) + {LocationKey(ps[|ps| - 1])} {
      var i :| 0 <= i < |ps| && LocationKey(ps[i]) == k;
      if i < |ps| - 1 {
        assert LocationKey(init[i]) == k;
      }
    }
    forall k | k in Keys(init) ensures k in Keys(ps) {
      var i :| 0 <= i < |init| && LocationKey(init[i]) == k;
      assert LocationKey(ps[i]) == k;
    }
  }

  /** A dictionary has as many entries as keys. */
  lemma {:induction false} NamesCardinality(es: seq<Entry>)
    requires DistinctNames(es)
    ensures |Names(es)| == |es|
    decreases |es|
  {
    if es == [] {
      assert Names(es) == {};
    } else {
      NamesCons(es[0], es[1..]);
      assert es == [es[0]] + es[1..];
      NamesCardinality(es[1..]);
    }
  }

  /** In a dictionary, looking up an entry's key finds that entry. */
  lemma {:induction false} LookupDistinct(es: seq<Entry>, i: nat)
    requires DistinctNames(es) && i < |es|
    ensures Lookup(es, es[i].name) == es[i].qty
    decreases |es|
  {
    if i > 0 {
      LookupDistinct(es[1..], i - 1);
    }
  }

  /** Each chart row carries exactly the units stored at its location; the
      rows add up to the total units; there are no more rows than products
      and no rows exactly when there are no products. */
  lemma ChartRows(ps: seq<Product>)
    ensures forall i :: 0 <= i < |LocationData(ps)| ==>
      LocationData(ps)[i].qty == SumAt(ps, LocationData(ps)[i].name)
    ensures SumQty(LocationData(ps)) == TotalItems(ps)
    ensures |LocationData(ps)| <= |ps|
    ensures LocationData(ps) == [] <==> ps == []
  {
    var data := LocationData(ps);
    LocationDataSpec(ps);
    forall i | 0 <= i < |data| ensures data[i].qty == SumAt(ps, data[i].name) {
      LookupDistinct(data, i);
    }
    if ps != [] {
      assert LocationKey(ps[0]) in Keys(ps);
    }
  }

  const Colors: seq<string> := ["#3b82f6", "#8b5cf6", "#10b981", "#f59e0b", "#ef4444"]

  /** A bar of the chart. */
  datatype Bar = Bar(name: string, qty: int, fill: string)

  /** What the component renders: the placeholder, or one coloured bar per row. */
  datatype ChartView = Placeholder | BarChart(bars: seq<Bar>)

  function Render(ps: seq<Product>): (v: ChartView)
    ensures v.Placeholder? <==> ps == []
    ensures v.BarChart? ==> |v.bars| == |LocationData(ps)|
    ensures v.BarChart? ==> forall i :: 0 <= i < |v.bars| ==>
      && v.bars[i].name == LocationData(ps)[i].name
      && v.bars[i].qty == SumAt(ps, v.bars[i].name)
      && v.bars[i].fill == Colors[i % 5]
  {
    ChartRows(ps);
    var data := LocationData(ps);
    if |data| == 0 then Placeholder
    else BarChart(seq(|data|, i requires 0 <= i < |data| => Bar(data[i].name, data[i].qty, Colors[i % |Colors|])))
  }
}
