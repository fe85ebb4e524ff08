/**
 * The drumyard registration form: it registers a drumyard with a single
 * recyclable stock entry and clears every field but the waste type. The
 * handler checks nothing; required fields are left to the browser form.
 */
module DrumyardsPage {
  import opened EcoTypes
  import opened EcoStats
  import opened EcoContext

  /** `Number(wasteAmount)` on a number input: the empty field reads as 0. */
  function ParsedAmount(field: Option<int>): int
  {
    match field
    case None => 0
    case Some(a) => a
  }

  /** The drumyard the form registers: its only stock entry is recyclable. */
  function Registration(name: string, owner: string, location: string, t: WasteType, amount: int)
    : (r: DrumyardInput)
    ensures r.name == name && r.owner == owner && r.location == location
    ensures |r.wasteStock| == 1
    ensures r.wasteStock[0].wasteType == t && r.wasteStock[0].recyclable
    ensures StockSum(r.wasteStock) == amount
  {
    var stock := [WasteData(t, amount, true)];
    assert stock[..0] == [];
    DrumyardInput(name, owner, location, stock)
  }

  class DrumyardForm {
    var isOpen: bool
    var name: string
    var owner: string
    var location: string
    var wasteType: WasteType
    /** None is the empty amount field. */
    var wasteAmount: Option<int>

    constructor ()
      ensures !isOpen && name == "" && owner == "" && location == ""
      ensures wasteType == Plastic && wasteAmount == None
    {
      isOpen := false;
      name, owner, location := "", "", "";
      wasteType, wasteAmount := Plastic, None;
    }

    /**
     * handleSubmit: register the drumyard, which raises totalWaste by the
     * amount entered; close the dialog; clear every field but the type.
     */
    method HandleSubmit(store: EcoStore, id: string)
      requires store.Valid()
      requires forall k :: 0 <= k < |store.drumyards| ==> store.drumyards[k].id != id
      modifies this, store
      ensures store.Valid()
      ensures store.drumyards == old(store.drumyards)
                + [Drumyard(id, old(name), old(owner), old(location),
                            [WasteData(old(wasteType), ParsedAmount(old(wasteAmount)), true)])]
      ensures store.ngos == old(store.ngos) && store.connections == old(store.connections)
      ensures store.GetStats().totalWaste == old(store.GetStats()).totalWaste + ParsedAmount(old(wasteAmount))
      ensures store.GetStats().totalRecycled == old(store.GetStats()).totalRecycled
      ensures store.GetStats().activeConnections == old(store.GetStats()).activeConnections
      ensures !isOpen && name == "" && owner == "" && location == "" && wasteAmount == None
      ensures wasteType == old(wasteType)
    {
      store.AddDrumyard(Registration(name, owner, location, wasteType, ParsedAmount(wasteAmount)), id);
      isOpen := false;
      name, owner, location, wasteAmount := "", "", "", None;
    }
  }
}
