/**
 * The two derivations of the admin dashboard: the stock grouped by waste
 * type (wasteByType, built with an accumulator that is searched, bumped
 * and pushed to) and the first five connections projected for the
 * activity chart (activityData).
 */
module AdminPage {
  import opened EcoTypes
  import opened EcoStats

  /** One entry of wasteByType: `{ name: w.type, value }`. */
  datatype TypeTotal = TypeTotal(name: WasteType, value: int)

  /** One item of activityData. */
  datatype Activity = Activity(name: WasteType, amount: int, status: Status)

  function Names(acc: seq<TypeTotal>): seq<WasteType>
  {
    seq(|acc|, k requires 0 <= k < |acc| => acc[k].name)
  }

  function TypesOf(ws: seq<WasteData>): seq<WasteType>
  {
    seq(|ws|, k requires 0 <= k < |ws| => ws[k].wasteType)
  }

  /** `acc.find(a => a.name === t)`, as the position of the entry found. */
  function Find(acc: seq<TypeTotal>, t: WasteType): (r: Option<nat>)
    ensures r.None? <==> forall k :: 0 <= k < |acc| ==> acc[k].name != t
    ensures r.Some? ==> r.value < |acc| && acc[r.value].name == t
    ensures r.Some? ==> forall k :: 0 <= k < r.value ==> acc[k].name != t
  {
    if acc == [] then None
    else if acc[0].name == t then Some(0)
    else match Find(acc[1..], t)
      case None => None
      case Some(k) => Some(k + 1)
  }

  /**
   * One step of the forEach: bump the entry for w's type, or push a new one;
   * the accumulator grows by at most one entry.
   */
  function Absorb(acc: seq<TypeTotal>, w: WasteData): (r: seq<TypeTotal>)
    ensures |acc| <= |r| <= |acc| + 1
  {
    match Find(acc, w.wasteType)
    case Some(k) => acc[k := TypeTotal(acc[k].name, acc[k].value + w.amount)]
    case None => acc + [TypeTotal(w.wasteType, w.amount)]
  }

  /** The accumulator after absorbing the entries in order: never longer than the input. */
  function Grouped(ws: seq<WasteData>): (r: seq<TypeTotal>)
    ensures |r| <= |ws|
  {
    if ws == [] then [] else Absorb(Grouped(ws[..|ws| - 1]), ws[|ws| - 1])
  }

  /** Each type once, in the order of its first appearance. */
  function FirstOccurrences(ts: seq<WasteType>): seq<WasteType>
  {
    if ts == [] then []
    else
      var p := FirstOccurrences(ts[..|ts| - 1]);
      if ts[|ts| - 1] in p then p else p + [ts[|ts| - 1]]
  }

  /** Sum of the amounts of the entries of type t. */
  function TypeSum(ws: seq<WasteData>, t: WasteType): int
  {
    if ws == [] then 0
    else TypeSum(ws[..|ws| - 1], t) + (if ws[|ws| - 1].wasteType == t then ws[|ws| - 1].amount else 0)
  }

  function ValueSum(acc: seq<TypeTotal>): int
  {
    if acc == [] then 0 else ValueSum(acc[..|acc| - 1]) + acc[|acc| - 1].value
  }

  /** acc is the grouping of ws: one entry per type, first-seen order, per-type sums. */
  ghost predicate Summarizes(acc: seq<TypeTotal>, ws: seq<WasteData>)
  {
    && Names(acc) == FirstOccurrences(TypesOf(ws))
    && forall k :: 0 <= k < |acc| ==> acc[k].value == TypeSum(ws, acc[k].name)
  }

  lemma {:induction false} FirstOccurrencesSpec(ts: seq<WasteType>)
    ensures Distinct(FirstOccurrences(ts))
    ensures forall t :: t in FirstOccurrences(ts) <==> t in ts
    decreases |ts|
  {
    if ts != [] {
      var pre := ts[..|ts| - 1];
      FirstOccurrencesSpec(pre);
      assert ts == pre + [ts[|ts| - 1]];
    }
  }

  lemma {:induction false} TypeSumAbsent(ws: seq<WasteData>, t: WasteType)
    requires forall k :: 0 <= k < |ws| ==> ws[k].wasteType != t
    ensures TypeSum(ws, t) == 0
    decreases |ws|
  {
    if ws != [] {
      TypeSumAbsent(ws[..|ws| - 1], t);
    }
  }

  lemma TypesOfSnoc(ws: seq<WasteData>, w: WasteData)
    ensures TypesOf(ws + [w]) == TypesOf(ws) + [w.wasteType]
  {
  }

  lemma TypeSumSnoc(ws: seq<WasteData>, w: WasteData, t: WasteType)
    ensures TypeSum(ws + [w], t) == TypeSum(ws, t) + (if w.wasteType == t then w.amount else 0)
  {
    assert (ws + [w])[..|ws|] == ws;
  }

  lemma FirstOccurrencesSnoc(ts: seq<WasteType>, t: WasteType)
    ensures FirstOccurrences(ts + [t])
            == if t in FirstOccurrences(ts) then FirstOccurrences(ts) else FirstOccurrences(ts) + [t]
  {
    assert (ts + [t])[..|ts|] == ts;
  }

  /** Bumping the entry already present for w's type keeps the accumulator a grouping. */
  lemma AbsorbBump(acc: seq<TypeTotal>, ws: seq<WasteData>, w: WasteData, i: nat)
    requires Summarizes(acc, ws)
    requires i < |acc| && acc[i].name == w.wasteType
    ensures Summarizes(acc[i := TypeTotal(acc[i].name, acc[i].value + w.amount)], ws + [w])
  {
    var ws' := ws + [w];
    var acc' := acc[i := TypeTotal(acc[i].name, acc[i].value + w.amount)];
    var names := Names(acc);
    TypesOfSnoc(ws, w);
    FirstOccurrencesSnoc(TypesOf(ws), w.wasteType);
    FirstOccurrencesSpec(TypesOf(ws));
    assert names[i] == w.wasteType;
    assert Names(acc') == names;
    forall k | 0 <= k < |acc'|
      ensures acc'[k].value == TypeSum(ws', acc'[k].name)
    {
      TypeSumSnoc(ws, w, acc'[k].name);
      if k != i {
        assert names[k] != names[i] by {
          if k < i { assert names[k] != names[i]; } else { assert names[i] != names[k]; }
        }
      }
    }
  }

  /** Pushing a new entry for a type not seen yet keeps the accumulator a grouping. */
  lemma AbsorbPush(acc: seq<TypeTotal>, ws: seq<WasteData>, w: WasteData)
    requires Summarizes(acc, ws)
    requires forall k :: 0 <= k < |acc| ==> acc[k].name != w.wasteType
    ensures Summarizes(acc + [TypeTotal(w.wasteType, w.amount)], ws + [w])
  {
    var ws' := ws + [w];
    var acc' := acc + [TypeTotal(w.wasteType, w.amount)];
    var names := Names(acc);
    TypesOfSnoc(ws, w);
    FirstOccurrencesSnoc(TypesOf(ws), w.wasteType);
    FirstOccurrencesSpec(TypesOf(ws));
    assert w.wasteType !in names;
    assert Names(acc') == names + [w.wasteType];
    forall k | 0 <= k < |ws| ensures ws[k].wasteType != w.wasteType {
      assert TypesOf(ws)[k] == ws[k].wasteType;
    }
    TypeSumAbsent(ws, w.wasteType);
    forall k | 0 <= k < |acc'|
      ensures acc'[k].value == TypeSum(ws', acc'[k].name)
    {
      TypeSumSnoc(ws, w, acc'[k].name);
    }
  }

  /** Absorbing one more entry keeps the accumulator a grouping. */
  lemma AbsorbStep(acc: seq<TypeTotal>, ws: seq<WasteData>, w: WasteData)
    requires Summarizes(acc, ws)
    ensures Summarizes(Absorb(acc, w), ws + [w])
  {
    match Find(acc, w.wasteType)
    case Some(i) => AbsorbBump(acc, ws, w, i);
    case None => AbsorbPush(acc, ws, w);
  }

  lemma {:induction false} GroupedSummarizes(ws: seq<WasteData>)
    ensures Summarizes(Grouped(ws), ws)
    decreases |ws|
  {
    if ws != [] {
      var pre := ws[..|ws| - 1];
      GroupedSummarizes(pre);
      AbsorbStep(Grouped(pre), pre, ws[|ws| - 1]);
      assert pre + [ws[|ws| - 1]] == ws;
    }
  }

  lemma {:induction false} ValueSumUpdate(acc: seq<TypeTotal>, i: nat, x: TypeTotal)
    requires i < |acc|
    ensures ValueSum(acc[i := x]) == ValueSum(acc) - acc[i].value + x.value
    decreases |acc|
  {
    var n := |acc|;
    if i < n - 1 {
      assert acc[i := x][..n - 1] == acc[..n - 1][i := x];
      ValueSumUpdate(acc[..n - 1], i, x);
    } else {
      assert acc[i := x][..n - 1] == acc[..n - 1];
    }
  }

  /** The grouped values add up to the sum of all amounts. */
  lemma {:induction false} GroupedTotal(ws: seq<WasteData>)
    ensures ValueSum(Grouped(ws)) == StockSum(ws)
    decreases |ws|
  {
    if ws != [] {
      var pre := ws[..|ws| - 1];
      var w := ws[|ws| - 1];
      var acc := Grouped(pre);
      GroupedTotal(pre);
      match Find(acc, w.wasteType)
      case Some(i) =>
        ValueSumUpdate(acc, i, TypeTotal(acc[i].name, acc[i].value + w.amount));
      case None =>
        assert (acc + [TypeTotal(w.wasteType, w.amount)])[..|acc|] == acc;
    }
  }

  /** A list of distinct waste types has at most six elements. */
  lemma DistinctTypesAtMostSix(ts: seq<WasteType>)
    requires Distinct(ts)
    ensures |ts| <= 6
  {
    var all := {Plastic, Metal, Organic, Paper, EWaste, Glass};
    assert |all| == 6;
    var s := set t | t in ts;
    forall t | t in s ensures t in all {
      match t
      case Plastic =>
      case Metal =>
      case Organic =>
      case Paper =>
      case EWaste =>
      case Glass =>
    }
    SubsetCard(s, all);
    DistinctCard(ts);
  }

  lemma {:induction false} SubsetCard(a: set<WasteType>, b: set<WasteType>)
    requires a <= b
    ensures |a| <= |b|
    decreases |a|
  {
    if a != {} {
      var x :| x in a;
      SubsetCard(a - {x}, b - {x});
    }
  }

  lemma {:induction false} DistinctCard(ts: seq<WasteType>)
    requires Distinct(ts)
    ensures |set t | t in ts| == |ts|
    decreases |ts|
  {
    if ts != [] {
      var pre := ts[..|ts| - 1];
      DistinctCard(pre);
      assert ts == pre + [ts[|ts| - 1]];
      assert (set t | t in ts) == (set t | t in pre) + {ts[|ts| - 1]};
    }
  }

  lemma GroupedSnoc(ws: seq<WasteData>, w: WasteData)
    ensures Grouped(ws + [w]) == Absorb(Grouped(ws), w)
  {
    assert (ws + [w])[..|ws|] == ws;
  }

  lemma AllStockSnoc(ds: seq<Drumyard>, i: nat)
    requires i < |ds|
    ensures AllStock(ds[..i + 1]) == AllStock(ds[..i]) + ds[i].wasteStock
  {
    assert ds[..i + 1][..i] == ds[..i];
  }

  /**
   * What the dashboard promises of the grouping of all stock: one entry
   * per type present, in first-seen order, at most six of them, each the
   * sum over that type, and all of them adding up to totalWaste.
   */
  lemma WasteByTypeSpec(ds: seq<Drumyard>)
    ensures Distinct(Names(Grouped(AllStock(ds)))) && |Grouped(AllStock(ds))| <= 6
    ensures Names(Grouped(AllStock(ds))) == FirstOccurrences(TypesOf(AllStock(ds)))
    ensures forall t :: t in Names(Grouped(AllStock(ds))) <==> t in TypesOf(AllStock(ds))
    ensures forall k :: 0 <= k < |Grouped(AllStock(ds))| ==>
              Grouped(AllStock(ds))[k].value == TypeSum(AllStock(ds), Grouped(AllStock(ds))[k].name)
    ensures ValueSum(Grouped(AllStock(ds))) == TotalWaste(ds)
  {
    var ws := AllStock(ds);
    GroupedSummarizes(ws);
    FirstOccurrencesSpec(TypesOf(ws));
    DistinctTypesAtMostSix(Names(Grouped(ws)));
    GroupedTotal(ws);
    TotalWasteIsFlatSum(ds);
  }

  /**
   * The reduce callback: a forEach over one drumyard's stock that bumps
   * the entry found for each type or pushes a new one.
   */
  method AbsorbStock(acc: seq<TypeTotal>, stock: seq<WasteData>, ghost done: seq<WasteData>)
    returns (acc': seq<TypeTotal>)
    requires acc == Grouped(done)
    ensures acc' == Grouped(done + stock)
  {
    acc' := acc;
    assert done + stock[..0] == done;
    for j := 0 to |stock|
      invariant acc' == Grouped(done + stock[..j])
    {
      var w := stock[j];
      assert done + stock[..j + 1] == (done + stock[..j]) + [w];
      GroupedSnoc(done + stock[..j], w);
      ghost var next := Absorb(acc', w);
      match Find(acc', w.wasteType)
      case Some(k) =>
        acc' := acc'[k := TypeTotal(acc'[k].name, acc'[k].value + w.amount)];
      case None =>
        acc' := acc' + [TypeTotal(w.wasteType, w.amount)];
      assert acc' == next;
    }
    assert stock[..|stock|] == stock;
  }

  /** The dashboard's reduce over the drumyards, starting from []. */
  method WasteByType(drumyards: seq<Drumyard>) returns (acc: seq<TypeTotal>)
    ensures acc == Grouped(AllStock(drumyards))
    ensures Distinct(Names(acc)) && |acc| <= 6
    ensures forall t :: t in Names(acc) <==> t in TypesOf(AllStock(drumyards))
    ensures forall k :: 0 <= k < |acc| ==> acc[k].value == TypeSum(AllStock(drumyards), acc[k].name)
    ensures ValueSum(acc) == TotalWaste(drumyards)
  {
    acc := [];
    for i := 0 to |drumyards|
      invariant acc == Grouped(AllStock(drumyards[..i]))
    {
      acc := AbsorbStock(acc, drumyards[i].wasteStock, AllStock(drumyards[..i]));
      AllStockSnoc(drumyards, i);
    }
    assert drumyards[..|drumyards|] == drumyards;
    WasteByTypeSpec(drumyards);
  }

  /** `map` of the chart projection over a list of connections. */
  function Project(cs: seq<Connection>): (r: seq<Activity>)
    ensures |r| == |cs|
    ensures forall i :: 0 <= i < |cs| ==> r[i] == Activity(cs[i].wasteType, cs[i].amount, cs[i].status)
  {
    if cs == [] then [] else [Activity(cs[0].wasteType, cs[0].amount, cs[0].status)] + Project(cs[1..])
  }

  /** `connections.slice(0, 5).map(...)`: the FIRST five connections. */
  function ActivityData(cs: seq<Connection>): (r: seq<Activity>)
    ensures |r| == if |cs| < 5 then |cs| else 5
    ensures forall i :: 0 <= i < |r| ==> r[i] == Activity(cs[i].wasteType, cs[i].amount, cs[i].status)
  {
    Project(cs[..if |cs| < 5 then |cs| else 5])
  }

  /**
   * With more than five connections, a type that only the newest one
   * carries never shows in activityData: the chart titled as the latest
   * activity shows the five oldest transfers.
   */
  lemma ActivityDataOmitsNewest(cs: seq<Connection>)
    requires |cs| > 5
    requires forall i :: 0 <= i < |cs| - 1 ==> cs[i].wasteType != cs[|cs| - 1].wasteType
    ensures forall a :: a in ActivityData(cs) ==> a.name != cs[|cs| - 1].wasteType
  {
    var r := ActivityData(cs);
    forall a | a in r ensures a.name != cs[|cs| - 1].wasteType {
      var i :| 0 <= i < |r| && r[i] == a;
      assert a.name == cs[i].wasteType;
    }
  }

  /** The at most five most recent connections, oldest of them first. */
  function LatestActivity(cs: seq<Connection>): (r: seq<Activity>)
    ensures |r| == if |cs| < 5 then |cs| else 5
    ensures forall i :: 0 <= i < |r| ==>
              r[i] == Activity(cs[|cs| - |r| + i].wasteType, cs[|cs| - |r| + i].amount, cs[|cs| - |r| + i].status)
    ensures cs != [] ==> Activity(cs[|cs| - 1].wasteType, cs[|cs| - 1].amount, cs[|cs| - 1].status) in r
  {
    Project(cs[|cs| - (if |cs| < 5 then |cs| else 5)..])
  }
}
