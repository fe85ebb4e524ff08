/**
 * The entities of the EcoSync domain store: waste types, drumyards with
 * their stock, NGOs and the transfer connections between the two, and the
 * mock data set the store starts from.
 */
module EcoTypes {

  /** The closed set of material categories ('E-Waste' is spelled EWaste). */
  datatype WasteType = Plastic | Metal | Organic | Paper | EWaste | Glass

  datatype OrgType = Private | Government

  /** Lifecycle of a transfer: Pending, then Collected, then Processed. */
  datatype Status = Pending | Collected | Processed

  datatype Option<T> = None | Some(value: T)

  /** One stock entry of a drumyard; amounts are kilograms as entered. */
  datatype WasteData = WasteData(wasteType: WasteType, amount: int, recyclable: bool)

  datatype Drumyard = Drumyard(
    id: string,
    name: string,
    owner: string,
    location: string,
    wasteStock: seq<WasteData>)

  /** A drumyard without its id, as handed to the store by a page. */
  datatype DrumyardInput = DrumyardInput(
    name: string,
    owner: string,
    location: string,
    wasteStock: seq<WasteData>)

  datatype Ngo = Ngo(
    id: string,
    name: string,
    orgType: OrgType,
    location: string,
    specialization: seq<WasteType>)

  /** An NGO without its id, as handed to the store by a page. */
  datatype NgoInput = NgoInput(
    name: string,
    orgType: OrgType,
    location: string,
    specialization: seq<WasteType>)

  datatype Connection = Connection(
    id: string,
    drumyardId: string,
    ngoId: string,
    wasteType: WasteType,
    amount: int,
    status: Status,
    date: string)

  /** A connection without id, status and date, as handed to the store. */
  datatype ConnectionInput = ConnectionInput(
    drumyardId: string,
    ngoId: string,
    wasteType: WasteType,
    amount: int)

  /** No value occurs twice. */
  predicate Distinct<T(==)>(xs: seq<T>)
  {
    forall i, j :: 0 <= i < j < |xs| ==> xs[i] != xs[j]
  }

  /** The mock drumyards the store is created with. */
  function SeedDrumyards(): seq<Drumyard>
  {
    [ Drumyard("d1", "GreenCycle Central", "John Doe", "North District",
               [WasteData(Plastic, 1200, true), WasteData(Metal, 450, true)]),
      Drumyard("d2", "Urban Waste Hub", "Jane Smith", "Industrial Zone",
               [WasteData(EWaste, 300, true), WasteData(Organic, 2000, false)]) ]
  }

  /** The mock NGOs the store is created with. */
  function SeedNgos(): seq<Ngo>
  {
    [ Ngo("n1", "SaveTheEarth Foundation", Private, "City Center", [Plastic, Paper]),
      Ngo("n2", "GovGreen Initiative", Government, "Statewide", [Metal, EWaste, Glass]) ]
  }

  /** The mock connections the store is created with. */
  function SeedConnections(): seq<Connection>
  {
    [ Connection("c1", "d1", "n1", Plastic, 500, Processed, "2023-10-15"),
      Connection("c2", "d2", "n2", EWaste, 150, Collected, "2023-10-20") ]
  }
}
