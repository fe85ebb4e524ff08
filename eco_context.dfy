/**
 * The domain store (EcoProvider): three collections that the four
 * mutators replace with a longer or an updated copy, and the getStats
 * query. A fresh uuid is a parameter that no entity of its collection
 * holds yet; the creation date of a connection is a parameter too.
 */
module EcoContext {
  import opened EcoTypes
  import opened EcoStats

  ghost predicate UniqueDrumyardIds(ds: seq<Drumyard>)
  {
    forall i, j :: 0 <= i < j < |ds| ==> ds[i].id != ds[j].id
  }

  ghost predicate UniqueNgoIds(ns: seq<Ngo>)
  {
    forall i, j :: 0 <= i < j < |ns| ==> ns[i].id != ns[j].id
  }

  ghost predicate UniqueConnectionIds(cs: seq<Connection>)
  {
    forall i, j :: 0 <= i < j < |cs| ==> cs[i].id != cs[j].id
  }

  /**
   * `prev.map(c => c.id === id ? { ...c, status } : c)`: every connection
   * with that id gets the new status, every other one stays as it was.
   */
  function SetStatus(cs: seq<Connection>, id: string, s: Status): (r: seq<Connection>)
    ensures |r| == |cs|
    ensures forall k :: 0 <= k < |cs| && cs[k].id == id ==> r[k] == cs[k].(status := s)
    ensures forall k :: 0 <= k < |cs| && cs[k].id != id ==> r[k] == cs[k]
  {
    if cs == [] then []
    else [if cs[0].id == id then cs[0].(status := s) else cs[0]] + SetStatus(cs[1..], id, s)
  }

  /** An id no connection holds leaves the collection as it was. */
  lemma SetStatusUnknownId(cs: seq<Connection>, id: string, s: Status)
    requires forall k :: 0 <= k < |cs| ==> cs[k].id != id
    ensures SetStatus(cs, id, s) == cs
  {
  }

  /** Ids are kept, so they stay unique. */
  lemma SetStatusKeepsIds(cs: seq<Connection>, id: string, s: Status)
    requires UniqueConnectionIds(cs)
    ensures UniqueConnectionIds(SetStatus(cs, id, s))
  {
  }

  /** With unique ids, the update touches exactly the one connection. */
  lemma SetStatusAt(cs: seq<Connection>, i: nat, s: Status)
    requires UniqueConnectionIds(cs) && i < |cs|
    ensures SetStatus(cs, cs[i].id, s) == cs[i := cs[i].(status := s)]
  {
    var r := SetStatus(cs, cs[i].id, s);
    forall k | 0 <= k < |cs| && k != i
      ensures r[k] == cs[k]
    {
      assert cs[k].id != cs[i].id by {
        if k < i { assert cs[k].id != cs[i].id; } else { assert cs[i].id != cs[k].id; }
      }
    }
  }

  /** The mock stock: 1200 + 450 at d1 and 300 + 2000 at d2. */
  lemma SeedWaste()
    ensures TotalWaste(SeedDrumyards()) == 3950
  {
    var ds := SeedDrumyards();
    assert ds[..1][..0] == [];
    assert StockSum(ds[0].wasteStock) == 1650 by {
      assert ds[0].wasteStock[..1][..0] == [];
    }
    assert StockSum(ds[1].wasteStock) == 2300 by {
      assert ds[1].wasteStock[..1][..0] == [];
    }
  }

  /** The mock connections: c1 processed with 500 kg, c2 collected. */
  lemma SeedConnectionStats()
    ensures TotalRecycled(SeedConnections()) == 500
    ensures ActiveConnections(SeedConnections()) == 1
  {
    var cs := SeedConnections();
    assert [cs[0]] == [] + [cs[0]];
    ConnectionStatsSnoc([], cs[0]);
    assert cs == [cs[0]] + [cs[1]];
    ConnectionStatsSnoc([cs[0]], cs[1]);
  }

  /** The statistics of the mock data set. */
  lemma SeedStats()
    ensures TotalWaste(SeedDrumyards()) == 3950
    ensures TotalRecycled(SeedConnections()) == 500
    ensures ActiveConnections(SeedConnections()) == 1
  {
    SeedWaste();
    SeedConnectionStats();
  }

  class EcoStore {
    var drumyards: seq<Drumyard>
    var ngos: seq<Ngo>
    var connections: seq<Connection>

    /** Ids generated for the store are unique within their collection. */
    ghost predicate Valid()
      reads this
    {
      UniqueDrumyardIds(drumyards) && UniqueNgoIds(ngos) && UniqueConnectionIds(connections)
    }

    /** The store starts from the mock data set. */
    constructor ()
      ensures Valid()
      ensures drumyards == SeedDrumyards() && ngos == SeedNgos() && connections == SeedConnections()
      ensures GetStats() == Stats(3950, 500, 1)
    {
      drumyards := SeedDrumyards();
      ngos := SeedNgos();
      connections := SeedConnections();
      new;
      SeedStats();
    }

    /**
     * Read-only aggregation. totalWaste is all declared stock, whatever
     * the connections say; a connection is active unless processed.
     */
    function GetStats(): (s: Stats)
      reads this
      ensures s.totalWaste == StockSum(AllStock(drumyards))
      ensures s.activeConnections + |ProcessedOnly(connections)| == |connections|
    {
      TotalWasteIsFlatSum(drumyards);
      ActivePlusProcessed(connections);
      Stats(TotalWaste(drumyards), TotalRecycled(connections), ActiveConnections(connections))
    }

    method AddDrumyard(data: DrumyardInput, id: string)
      requires Valid()
      requires forall k :: 0 <= k < |drumyards| ==> drumyards[k].id != id
      modifies this
      ensures Valid()
      ensures drumyards == old(drumyards)
                           + [Drumyard(id, data.name, data.owner, data.location, data.wasteStock)]
      ensures ngos == old(ngos) && connections == old(connections)
      ensures GetStats() == old(GetStats()).(totalWaste := old(GetStats()).totalWaste
                                                           + StockSum(data.wasteStock))
    {
      var d := Drumyard(id, data.name, data.owner, data.location, data.wasteStock);
      assert (drumyards + [d])[..|drumyards|] == drumyards;
      drumyards := drumyards + [d];
    }

    method AddNgo(data: NgoInput, id: string)
      requires Valid()
      requires forall k :: 0 <= k < |ngos| ==> ngos[k].id != id
      modifies this
      ensures Valid()
      ensures ngos == old(ngos)
                      + [Ngo(id, data.name, data.orgType, data.location, data.specialization)]
      ensures drumyards == old(drumyards) && connections == old(connections)
      ensures GetStats() == old(GetStats())
    {
      ngos := ngos + [Ngo(id, data.name, data.orgType, data.location, data.specialization)];
    }

    /** No check that the two ids name an existing drumyard or NGO. */
    method CreateConnection(data: ConnectionInput, id: string, date: string)
      requires Valid()
      requires forall k :: 0 <= k < |connections| ==> connections[k].id != id
      modifies this
      ensures Valid()
      ensures connections == old(connections)
                             + [Connection(id, data.drumyardId, data.ngoId, data.wasteType,
                                           data.amount, Pending, date)]
      ensures drumyards == old(drumyards) && ngos == old(ngos)
      ensures GetStats() == old(GetStats()).(activeConnections := old(GetStats()).activeConnections + 1)
    {
      var c := Connection(id, data.drumyardId, data.ngoId, data.wasteType, data.amount, Pending, date);
      ConnectionStatsSnoc(connections, c);
      connections := connections + [c];
    }

    /** Any status is accepted, a backward one included; an unknown id changes nothing. */
    method UpdateConnectionStatus(id: string, s: Status)
      requires Valid()
      modifies this
      ensures Valid()
      ensures connections == SetStatus(old(connections), id, s)
      ensures drumyards == old(drumyards) && ngos == old(ngos)
      ensures GetStats().totalWaste == old(GetStats()).totalWaste
    {
      SetStatusKeepsIds(connections, id, s);
      connections := SetStatus(connections, id, s);
    }
  }

  /**
   * A store fresh from the mock data: a Plastic transfer of 500 kg from
   * d1 to n1 is created, then marked collected; it ends up the third
   * connection, collected, and counts as one more active connection.
   */
  method CreateThenCollect(date: string) returns (before: Stats, after: Stats, c: Connection)
    ensures before == Stats(3950, 500, 1)
    ensures c == Connection("c3", "d1", "n1", Plastic, 500, Collected, date)
    ensures after == before.(activeConnections := before.activeConnections + 1)
  {
    var store := new EcoStore();
    before := store.GetStats();
    store.CreateConnection(ConnectionInput("d1", "n1", Plastic, 500), "c3", date);
    SetStatusAt(store.connections, 2, Collected);
    StatusChangeStats(store.connections, 2, Collected);
    store.UpdateConnectionStatus("c3", Collected);
    after := store.GetStats();
    c := store.connections[2];
  }
}
