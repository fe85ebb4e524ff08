/**
 * The aggregate statistics of the store (getStats). Every `reduce` of the
 * source is a left fold; it is written here as recursion on the LAST
 * element, which is the same fold: ((0 + x0) + x1) + ... + xn.
 */
module EcoStats {
  import opened EcoTypes

  datatype Stats = Stats(totalWaste: int, totalRecycled: int, activeConnections: nat)

  /** Sum of the amounts of a drumyard's stock entries. */
  function StockSum(ws: seq<WasteData>): int
  {
    if ws == [] then 0 else StockSum(ws[..|ws| - 1]) + ws[|ws| - 1].amount
  }

  /** Sum, over the drumyards, of each drumyard's stock sum. */
  function TotalWaste(ds: seq<Drumyard>): int
  {
    if ds == [] then 0 else TotalWaste(ds[..|ds| - 1]) + StockSum(ds[|ds| - 1].wasteStock)
  }

  /** Every stock entry of every drumyard, drumyard by drumyard. */
  function AllStock(ds: seq<Drumyard>): seq<WasteData>
  {
    if ds == [] then [] else AllStock(ds[..|ds| - 1]) + ds[|ds| - 1].wasteStock
  }

  /** `filter(c => c.status === 'Processed')`: at most as many as there are connections. */
  function ProcessedOnly(cs: seq<Connection>): (r: seq<Connection>)
    ensures |r| <= |cs|
  {
    if cs == [] then []
    else ProcessedOnly(cs[..|cs| - 1]) + (if cs[|cs| - 1].status == Processed then [cs[|cs| - 1]] else [])
  }

  /** `filter(c => c.status !== 'Processed')`: at most as many as there are connections. */
  function Unprocessed(cs: seq<Connection>): (r: seq<Connection>)
    ensures |r| <= |cs|
  {
    if cs == [] then []
    else Unprocessed(cs[..|cs| - 1]) + (if cs[|cs| - 1].status != Processed then [cs[|cs| - 1]] else [])
  }

  function AmountSum(cs: seq<Connection>): int
  {
    if cs == [] then 0 else AmountSum(cs[..|cs| - 1]) + cs[|cs| - 1].amount
  }

  function TotalRecycled(cs: seq<Connection>): int
  {
    AmountSum(ProcessedOnly(cs))
  }

  function ActiveConnections(cs: seq<Connection>): nat
  {
    |Unprocessed(cs)|
  }

  /** What one connection contributes to totalRecycled. */
  function RecycledBy(c: Connection): int
  {
    if c.status == Processed then c.amount else 0
  }

  /** What one connection contributes to activeConnections. */
  function ActiveBy(c: Connection): nat
  {
    if c.status != Processed then 1 else 0
  }

  lemma {:induction false} StockSumAppend(xs: seq<WasteData>, ys: seq<WasteData>)
    ensures StockSum(xs + ys) == StockSum(xs) + StockSum(ys)
    decreases |ys|
  {
    if ys == [] {
      assert xs + ys == xs;
    } else {
      var ys' := ys[..|ys| - 1];
      assert (xs + ys)[..|xs + ys| - 1] == xs + ys';
      StockSumAppend(xs, ys');
    }
  }

  /** totalWaste over two lists of drumyards is the sum of the two totals. */
  lemma {:induction false} TotalWasteAppend(ds: seq<Drumyard>, es: seq<Drumyard>)
    ensures TotalWaste(ds + es) == TotalWaste(ds) + TotalWaste(es)
    decreases |es|
  {
    if es == [] {
      assert ds + es == ds;
    } else {
      var es' := es[..|es| - 1];
      assert (ds + es)[..|ds + es| - 1] == ds + es';
      TotalWasteAppend(ds, es');
    }
  }

  /** The nested reduction equals one sum over all stock entries. */
  lemma {:induction false} TotalWasteIsFlatSum(ds: seq<Drumyard>)
    ensures TotalWaste(ds) == StockSum(AllStock(ds))
    decreases |ds|
  {
    if ds != [] {
      var pre := ds[..|ds| - 1];
      TotalWasteIsFlatSum(pre);
      StockSumAppend(AllStock(pre), ds[|ds| - 1].wasteStock);
    }
  }

  /** The processed filter keeps exactly the processed connections. */
  lemma {:induction false} ProcessedOnlySpec(cs: seq<Connection>)
    ensures forall c :: c in ProcessedOnly(cs) <==> c in cs && c.status == Processed
    decreases |cs|
  {
    if cs != [] {
      var pre := cs[..|cs| - 1];
      ProcessedOnlySpec(pre);
      assert cs == pre + [cs[|cs| - 1]];
    }
  }

  /** The active filter keeps exactly the connections not yet processed. */
  lemma {:induction false} UnprocessedSpec(cs: seq<Connection>)
    ensures forall c :: c in Unprocessed(cs) <==> c in cs && c.status != Processed
    decreases |cs|
  {
    if cs != [] {
      var pre := cs[..|cs| - 1];
      UnprocessedSpec(pre);
      assert cs == pre + [cs[|cs| - 1]];
    }
  }

  /** Every connection is either active or processed. */
  lemma {:induction false} ActivePlusProcessed(cs: seq<Connection>)
    ensures ActiveConnections(cs) + |ProcessedOnly(cs)| == |cs|
    decreases |cs|
  {
    if cs != [] {
      ActivePlusProcessed(cs[..|cs| - 1]);
    }
  }

  /** Peeling the last connection off both connection statistics. */
  lemma ConnectionStatsSnoc(cs: seq<Connection>, c: Connection)
    ensures TotalRecycled(cs + [c]) == TotalRecycled(cs) + RecycledBy(c)
    ensures ActiveConnections(cs + [c]) == ActiveConnections(cs) + ActiveBy(c)
  {
    assert (cs + [c])[..|cs|] == cs;
    var p := ProcessedOnly(cs);
    if c.status == Processed {
      assert ProcessedOnly(cs + [c]) == p + [c];
      assert (p + [c])[..|p|] == p;
    } else {
      assert ProcessedOnly(cs + [c]) == p + [];
      assert p + [] == p;
    }
  }

  /**
   * Changing the status of the connection at position i changes the two
   * connection statistics by exactly that connection's contributions.
   */
  lemma {:induction false} StatusChangeStats(cs: seq<Connection>, i: nat, s: Status)
    requires i < |cs|
    ensures TotalRecycled(cs[i := cs[i].(status := s)])
            == TotalRecycled(cs) - RecycledBy(cs[i]) + RecycledBy(cs[i].(status := s))
    ensures ActiveConnections(cs[i := cs[i].(status := s)])
            == ActiveConnections(cs) - ActiveBy(cs[i]) + ActiveBy(cs[i].(status := s))
    decreases |cs|
  {
    var n := |cs|;
    var cs' := cs[i := cs[i].(status := s)];
    var pre, pre' := cs[..n - 1], cs'[..n - 1];
    assert cs == pre + [cs[n - 1]];
    assert cs' == pre' + [cs'[n - 1]];
    ConnectionStatsSnoc(pre, cs[n - 1]);
    ConnectionStatsSnoc(pre', cs'[n - 1]);
    if i == n - 1 {
      assert pre' == pre;
    } else {
      assert pre' == pre[i := pre[i].(status := s)];
      StatusChangeStats(pre, i, s);
    }
  }
}
