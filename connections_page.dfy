/**
 * The operations page: the transfer form with its submit guard, and the
 * single forward step offered on each connection card. The store itself
 * accepts any status; the forward-only lifecycle comes from this page.
 */
module ConnectionsPage {
  import opened EcoTypes
  import opened EcoStats
  import opened EcoContext

  /** Position of a status in the lifecycle. */
  function Stage(s: Status): nat
  {
    match s
    case Pending => 0
    case Collected => 1
    case Processed => 2
  }

  /**
   * The status a card's button moves to: Mark Collected on a pending
   * transfer, Mark Processed on a collected one, no button once processed.
   */
  function OfferedTransition(s: Status): (r: Option<Status>)
    ensures r.None? <==> s == Processed
    ensures r.Some? ==> Stage(r.value) == Stage(s) + 1
  {
    match s
    case Pending => Some(Collected)
    case Collected => Some(Processed)
    case Processed => None
  }

  /** Mark Collected leaves both connection statistics as they were. */
  lemma MarkCollectedKeepsStats(cs: seq<Connection>, i: nat)
    requires UniqueConnectionIds(cs) && i < |cs| && cs[i].status == Pending
    ensures ActiveConnections(SetStatus(cs, cs[i].id, Collected)) == ActiveConnections(cs)
    ensures TotalRecycled(SetStatus(cs, cs[i].id, Collected)) == TotalRecycled(cs)
  {
    SetStatusAt(cs, i, Collected);
    StatusChangeStats(cs, i, Collected);
  }

  /** Mark Processed retires one active connection and recycles its amount. */
  lemma MarkProcessedStats(cs: seq<Connection>, i: nat)
    requires UniqueConnectionIds(cs) && i < |cs| && cs[i].status == Collected
    ensures ActiveConnections(SetStatus(cs, cs[i].id, Processed)) == ActiveConnections(cs) - 1
    ensures TotalRecycled(SetStatus(cs, cs[i].id, Processed)) == TotalRecycled(cs) + cs[i].amount
  {
    SetStatusAt(cs, i, Processed);
    StatusChangeStats(cs, i, Processed);
  }

  /** The connections after a press on the button of card i, if it shows one. */
  function AfterPress(cs: seq<Connection>, i: nat): seq<Connection>
    requires i < |cs|
  {
    match OfferedTransition(cs[i].status)
    case None => cs
    case Some(s) => SetStatus(cs, cs[i].id, s)
  }

  /**
   * A press moves the pressed connection exactly one stage on, touches no
   * other connection, and so never moves any connection backward.
   */
  lemma PressIsForwardStep(cs: seq<Connection>, i: nat)
    requires UniqueConnectionIds(cs) && i < |cs|
    ensures UniqueConnectionIds(AfterPress(cs, i))
    ensures |AfterPress(cs, i)| == |cs|
    ensures cs[i].status != Processed ==> Stage(AfterPress(cs, i)[i].status) == Stage(cs[i].status) + 1
    ensures cs[i].status == Processed ==> AfterPress(cs, i) == cs
    ensures forall k :: 0 <= k < |cs| && k != i ==> AfterPress(cs, i)[k] == cs[k]
    ensures forall k :: 0 <= k < |cs| ==> Stage(AfterPress(cs, i)[k].status) >= Stage(cs[k].status)
  {
    match OfferedTransition(cs[i].status)
    case None =>
    case Some(s) =>
      SetStatusAt(cs, i, s);
      SetStatusKeepsIds(cs, cs[i].id, s);
  }

  /** Only the Collected to Processed press moves the connection statistics. */
  lemma PressStats(cs: seq<Connection>, i: nat)
    requires UniqueConnectionIds(cs) && i < |cs|
    ensures cs[i].status == Collected ==>
              && TotalRecycled(AfterPress(cs, i)) == TotalRecycled(cs) + cs[i].amount
              && ActiveConnections(AfterPress(cs, i)) + 1 == ActiveConnections(cs)
    ensures cs[i].status != Collected ==>
              && TotalRecycled(AfterPress(cs, i)) == TotalRecycled(cs)
              && ActiveConnections(AfterPress(cs, i)) == ActiveConnections(cs)
  {
    match cs[i].status
    case Pending => MarkCollectedKeepsStats(cs, i);
    case Collected => MarkProcessedStats(cs, i);
    case Processed =>
  }

  class ConnectionsForm {
    var isOpen: bool
    /** The four form fields; "" and None are the empty field. */
    var selectedDrumyard: string
    var selectedNgo: string
    var wasteType: Option<WasteType>
    var amount: Option<int>

    constructor ()
      ensures !isOpen && selectedDrumyard == "" && selectedNgo == ""
      ensures wasteType == None && amount == None
    {
      isOpen := false;
      selectedDrumyard, selectedNgo := "", "";
      wasteType, amount := None, None;
    }

    /** The guard of handleSubmit: all four fields are filled in. */
    predicate Complete()
      reads this
    {
      selectedDrumyard != "" && selectedNgo != "" && wasteType.Some? && amount.Some?
    }

    /**
     * handleSubmit: an incomplete form is left alone; a complete one
     * creates one pending connection, closes the dialog and clears the form.
     */
    method HandleSubmit(store: EcoStore, id: string, date: string)
      requires store.Valid()
      requires forall k :: 0 <= k < |store.connections| ==> store.connections[k].id != id
      modifies this, store
      ensures store.Valid()
      ensures !old(Complete()) ==> unchanged(this) && unchanged(store)
      ensures old(Complete()) ==>
        && store.connections == old(store.connections)
             + [Connection(id, old(selectedDrumyard), old(selectedNgo), old(wasteType).value,
                           old(amount).value, Pending, date)]
        && store.drumyards == old(store.drumyards) && store.ngos == old(store.ngos)
        && !isOpen && selectedDrumyard == "" && selectedNgo == ""
        && wasteType == None && amount == None
    {
      if !Complete() {
        return;
      }
      store.CreateConnection(ConnectionInput(selectedDrumyard, selectedNgo, wasteType.value, amount.value),
                             id, date);
      isOpen := false;
      selectedDrumyard, selectedNgo := "", "";
      wasteType, amount := None, None;
    }

    /**
     * The button on the card of connection i, when it shows one. Each
     * connection's stage only grows; activeConnections and totalRecycled
     * move only when the step is Collected to Processed.
     */
    method PressStatusButton(store: EcoStore, i: nat)
      requires store.Valid() && i < |store.connections|
      modifies store
      ensures store.Valid()
      ensures store.connections == AfterPress(old(store.connections), i)
      ensures store.drumyards == old(store.drumyards) && store.ngos == old(store.ngos)
      ensures forall k :: 0 <= k < |store.connections| ==>
                Stage(store.connections[k].status) >= Stage(old(store.connections)[k].status)
      ensures store.GetStats().totalWaste == old(store.GetStats()).totalWaste
      ensures old(store.connections)[i].status == Collected ==>
                && store.GetStats().totalRecycled
                     == old(store.GetStats()).totalRecycled + old(store.connections)[i].amount
                && store.GetStats().activeConnections + 1 == old(store.GetStats()).activeConnections
      ensures old(store.connections)[i].status != Collected ==> store.GetStats() == old(store.GetStats())
    {
      var c := store.connections[i];
      PressIsForwardStep(store.connections, i);
      PressStats(store.connections, i);
      match OfferedTransition(c.status)
      case None =>
      case Some(s) =>
        store.UpdateConnectionStatus(c.id, s);
    }
  }
}
