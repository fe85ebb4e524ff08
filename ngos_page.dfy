/**
 * The NGO registration form: the specialization badges toggle a waste
 * type in or out of a list, and submitting registers the NGO and clears
 * the form except for the organisation type.
 */
module NgosPage {
  import opened EcoTypes
  import opened EcoContext

  /** `filter(x => x !== t)`: every copy of t goes, the rest keep their order. */
  function RemoveAll(xs: seq<WasteType>, t: WasteType): (r: seq<WasteType>)
    ensures t !in r
    ensures forall u :: u != t ==> (u in r <==> u in xs)
    ensures t !in xs ==> r == xs
  {
    if xs == [] then []
    else (if xs[0] == t then [] else [xs[0]]) + RemoveAll(xs[1..], t)
  }

  lemma {:induction false} RemoveAllKeepsDistinct(xs: seq<WasteType>, t: WasteType)
    requires Distinct(xs)
    ensures Distinct(RemoveAll(xs, t))
    decreases |xs|
  {
    if xs != [] {
      var rest := RemoveAll(xs[1..], t);
      RemoveAllKeepsDistinct(xs[1..], t);
      if xs[0] != t {
        assert xs[0] !in xs[1..];
        assert xs[0] !in rest;
        var r := [xs[0]] + rest;
        forall i, j | 0 <= i < j < |r| ensures r[i] != r[j] {
          if i == 0 {
            assert r[j] == rest[j - 1];
          } else {
            assert r[i] == rest[i - 1] && r[j] == rest[j - 1];
          }
        }
      } else {
        assert [] + rest == rest;
      }
    }
  }

  /** handleSpecToggle's new list: drop the type if listed, else append it. */
  function Toggle(spec: seq<WasteType>, t: WasteType): (r: seq<WasteType>)
    ensures t in spec ==> t !in r
    ensures t !in spec ==> r == spec + [t]
    ensures forall u :: u != t ==> (u in r <==> u in spec)
  {
    if t in spec then RemoveAll(spec, t) else spec + [t]
  }

  /** A list without repeats stays without repeats. */
  lemma ToggleKeepsDistinct(spec: seq<WasteType>, t: WasteType)
    requires Distinct(spec)
    ensures Distinct(Toggle(spec, t))
  {
    if t in spec {
      RemoveAllKeepsDistinct(spec, t);
    } else {
      var r := spec + [t];
      forall i, j | 0 <= i < j < |r| ensures r[i] != r[j] {
        if j == |spec| {
          assert r[i] == spec[i];
        }
      }
    }
  }

  /** Toggling an absent type twice restores the very same list. */
  lemma ToggleTwiceAbsent(spec: seq<WasteType>, t: WasteType)
    requires t !in spec
    ensures Toggle(Toggle(spec, t), t) == spec
  {
    assert t in spec + [t];
    assert RemoveAll(spec + [t], t) == RemoveAll(spec, t) + RemoveAll([t], t) by {
      RemoveAllAppend(spec, [t], t);
    }
  }

  lemma {:induction false} RemoveAllAppend(xs: seq<WasteType>, ys: seq<WasteType>, t: WasteType)
    ensures RemoveAll(xs + ys, t) == RemoveAll(xs, t) + RemoveAll(ys, t)
    decreases |xs|
  {
    if xs == [] {
      assert xs + ys == ys;
    } else {
      assert (xs + ys)[1..] == xs[1..] + ys;
      RemoveAllAppend(xs[1..], ys, t);
    }
  }

  /** Toggling a listed type twice gives the same members, moved to the end. */
  lemma ToggleTwicePresent(spec: seq<WasteType>, t: WasteType)
    requires t in spec
    ensures Toggle(Toggle(spec, t), t) == RemoveAll(spec, t) + [t]
    ensures forall u :: u in Toggle(Toggle(spec, t), t) <==> u in spec
  {
  }

  /** So the order can change: [Plastic, Paper] comes back as [Paper, Plastic]. */
  lemma ToggleTwiceReorders()
    ensures Toggle(Toggle([Plastic, Paper], Plastic), Plastic) == [Paper, Plastic]
  {
    ToggleTwicePresent([Plastic, Paper], Plastic);
    assert RemoveAll([Paper], Plastic) == [Paper];
    assert RemoveAll([Plastic, Paper], Plastic) == [Paper];
  }

  class NgoForm {
    var isOpen: bool
    var name: string
    var orgType: OrgType
    var location: string
    var specialization: seq<WasteType>

    constructor ()
      ensures !isOpen && name == "" && orgType == Private && location == "" && specialization == []
    {
      isOpen := false;
      name, orgType, location, specialization := "", Private, "", [];
    }

    method HandleSpecToggle(t: WasteType)
      modifies this
      ensures specialization == Toggle(old(specialization), t)
      ensures isOpen == old(isOpen) && name == old(name)
      ensures orgType == old(orgType) && location == old(location)
    {
      if t in specialization {
        specialization := RemoveAll(specialization, t);
      } else {
        specialization := specialization + [t];
      }
    }

    /**
     * handleSubmit: register the NGO as entered, close the dialog, clear
     * name, location and specialization; the organisation type stays.
     */
    method HandleSubmit(store: EcoStore, id: string)
      requires store.Valid()
      requires forall k :: 0 <= k < |store.ngos| ==> store.ngos[k].id != id
      modifies this, store
      ensures store.Valid()
      ensures store.ngos == old(store.ngos) + [Ngo(id, old(name), old(orgType), old(location), old(specialization))]
      ensures store.drumyards == old(store.drumyards) && store.connections == old(store.connections)
      ensures !isOpen && name == "" && location == "" && specialization == []
      ensures orgType == old(orgType)
    {
      store.AddNgo(NgoInput(name, orgType, location, specialization), id);
      isOpen := false;
      name, location, specialization := "", "", [];
    }
  }
}
