/** The simulation log of the graph page (src/pages/GraphPage.tsx): virtual
    purchases and virtual sales the user records, how they are split into the
    extra assets and the sale list, and how the history edits and deletes them. */
module SimulationLog {
  import opened Property

  /** `Simulation`: an added virtual building, or a sale of a building by name. */
  datatype Simulation =
    | Add(id: string, data: Property)
    | Sell(id: string, buildingName: string, date: Month)

  /** The virtual buildings of the log, in log order. */
  function Virtual(log: seq<Simulation>): seq<Property>
  {
    if log == [] then []
    else Virtual(log[..|log| - 1]) + (if log[|log| - 1].Add? then [log[|log| - 1].data] else [])
  }

  /** The sold buildings of the log, in log order. */
  function Sold(log: seq<Simulation>): seq<Sale>
  {
    if log == [] then []
    else
      var e := log[|log| - 1];
      Sold(log[..|log| - 1]) + (if e.Sell? then [Sale(e.buildingName, e.date)] else [])
  }

  /** The `useMemo` that walks the log once and pushes each event onto one of
      two lists. */
  method Split(simulations: seq<Simulation>) returns (virtualBuildings: seq<Property>, soldBuildings: seq<Sale>)
    ensures virtualBuildings == Virtual(simulations)
    ensures soldBuildings == Sold(simulations)
  {
    virtualBuildings, soldBuildings := [], [];
    for i := 0 to |simulations|
      invariant virtualBuildings == Virtual(simulations[..i])
      invariant soldBuildings == Sold(simulations[..i])
    {
      var sim := simulations[i];
      assert simulations[..i + 1][..i] == simulations[..i];
      if sim.Add? {
        virtualBuildings := virtualBuildings + [sim.data];
      } else {
        soldBuildings := soldBuildings + [Sale(sim.buildingName, sim.date)];
      }
    }
    assert simulations[..|simulations|] == simulations;
  }

  /** Every event lands in exactly one of the two lists. */
  lemma {:induction false} SplitPartitions(log: seq<Simulation>)
    ensures |Virtual(log)| + |Sold(log)| == |log|
  {
    if log != [] {
      SplitPartitions(log[..|log| - 1]);
    }
  }

  /** The split of a concatenation is the concatenation of the splits. */
  lemma {:induction false} SplitConcat(a: seq<Simulation>, b: seq<Simulation>)
    ensures Virtual(a + b) == Virtual(a) + Virtual(b)
    ensures Sold(a + b) == Sold(a) + Sold(b)
  {
    if b == [] {
      assert a + b == a;
    } else {
      var b0 := b[..|b| - 1];
      assert (a + b)[..|a + b| - 1] == a + b0;
      assert (a + b)[|a + b| - 1] == b[|b| - 1];
      SplitConcat(a, b0);
    }
  }

  /** A building is virtual exactly when some add event carries it. */
  lemma {:induction false} VirtualMembers(log: seq<Simulation>, p: Property)
    ensures p in Virtual(log) <==> exists i | 0 <= i < |log| :: log[i].Add? && log[i].data == p
  {
    if log != [] {
      var init := log[..|log| - 1];
      VirtualMembers(init, p);
      assert forall i | 0 <= i < |init| :: init[i] == log[i];
      if exists i | 0 <= i < |log| :: log[i].Add? && log[i].data == p {
        var i :| 0 <= i < |log| && log[i].Add? && log[i].data == p;
        if i < |init| {
          assert init[i].Add? && init[i].data == p;
        }
      }
    }
  }

  /** A sale is listed exactly when some sell event records it. */
  lemma {:induction false} SoldMembers(log: seq<Simulation>, s: Sale)
    ensures s in Sold(log) <==>
      exists i | 0 <= i < |log| :: log[i].Sell? && Sale(log[i].buildingName, log[i].date) == s
  {
    if log != [] {
      var init := log[..|log| - 1];
      SoldMembers(init, s);
      assert forall i | 0 <= i < |init| :: init[i] == log[i];
      if exists i | 0 <= i < |log| :: log[i].Sell? && Sale(log[i].buildingName, log[i].date) == s {
        var i :| 0 <= i < |log| && log[i].Sell? && Sale(log[i].buildingName, log[i].date) == s;
        if i < |init| {
          assert init[i].Sell? && Sale(init[i].buildingName, init[i].date) == s;
        }
      }
    }
  }

  /** The ids the log uses. */
  function Ids(log: seq<Simulation>): set<string>
  {
    set i | 0 <= i < |log| :: log[i].id
  }

  /** No two events share an id (`crypto.randomUUID()` gives every event its own). */
  predicate UniqueIds(log: seq<Simulation>)
  {
    forall i, j | 0 <= i < j < |log| :: log[i].id != log[j].id
  }

  /** `data`: the imported buildings followed by the virtual ones. */
  function Portfolio(original: seq<Property>, log: seq<Simulation>): (data: seq<Property>)
    ensures |data| == |original| + |Virtual(log)|
    ensures data[..|original|] == original && data[|original|..] == Virtual(log)
  {
    original + Virtual(log)
  }

  /** `{ ...sim, data: form }` for the event being edited; a sale keeps its
      type and fields, so only an add event changes. */
  function EditOne(sim: Simulation, id: string, form: Property): Simulation
  {
    if sim.Add? && sim.id == id then Add(id, form) else sim
  }

  /** `simulations.map((sim) => sim.id === editIndex ? { ...sim, data: form } : sim)`. */
  function Edit(log: seq<Simulation>, id: string, form: Property): (r: seq<Simulation>)
    ensures |r| == |log|
    ensures forall i | 0 <= i < |log| :: r[i].id == log[i].id
    ensures forall i | 0 <= i < |log| :: r[i] != log[i] ==> log[i].Add? && log[i].id == id && r[i] == Add(id, form)
    ensures forall i | 0 <= i < |log| :: log[i].Add? && log[i].id == id ==> r[i] == Add(id, form)
  {
    seq(|log|, i requires 0 <= i < |log| => EditOne(log[i], id, form))
  }

  /** The save button of the building form: with a building being edited the
      log is edited in place, otherwise a new add event is appended. */
  function SaveBuilding(log: seq<Simulation>, editing: Option<string>, form: Property, newId: string): seq<Simulation>
    requires editing.None? ==> newId !in Ids(log)
  {
    if editing.Some? then Edit(log, editing.value, form) else log + [Add(newId, form)]
  }

  /** The sell button: without a building name or a date nothing is recorded. */
  function SellBuilding(log: seq<Simulation>, name: string, date: Option<Month>, newId: string): seq<Simulation>
    requires newId !in Ids(log)
  {
    if name == [] || date.None? then log else log + [Sell(newId, name, date.value)]
  }

  /** Saving a new building or a complete sale puts the new event last and
      keeps the earlier events in place; an incomplete sale records nothing. */
  lemma AppendsLast(log: seq<Simulation>, form: Property, name: string, date: Option<Month>, newId: string)
    requires newId !in Ids(log)
    ensures var r := SaveBuilding(log, None, form, newId);
      |r| == |log| + 1 && r[..|log|] == log && r[|log|] == Add(newId, form)
    ensures var r := SellBuilding(log, name, date, newId);
      if name == [] || date.None? then r == log
      else |r| == |log| + 1 && r[..|log|] == log && r[|log|] == Sell(newId, name, date.value)
  {
  }

  /** `simulations.filter((s) => s.id !== id)`. */
  function Delete(log: seq<Simulation>, id: string): (r: seq<Simulation>)
    ensures |r| <= |log|
  {
    if log == [] then []
    else
      var init := Delete(log[..|log| - 1], id);
      var e := log[|log| - 1];
      if e.id == id then init else init + [e]
  }

  /** Delete drops exactly the events carrying the id. */
  lemma {:induction false} DeleteMembers(log: seq<Simulation>, id: string, e: Simulation)
    ensures e in Delete(log, id) <==> e in log && e.id != id
  {
    if log != [] {
      var init := log[..|log| - 1];
      DeleteMembers(init, id, e);
      assert log == init + [log[|log| - 1]];
    }
  }

  /** Deleting works entry by entry, so the surviving entries keep their order. */
  lemma {:induction false} DeleteConcat(a: seq<Simulation>, b: seq<Simulation>, id: string)
    ensures Delete(a + b, id) == Delete(a, id) + Delete(b, id)
  {
    if b == [] {
      assert a + b == a;
    } else {
      var b0 := b[..|b| - 1];
      assert (a + b)[..|a + b| - 1] == a + b0;
      assert (a + b)[|a + b| - 1] == b[|b| - 1];
      DeleteConcat(a, b0, id);
    }
  }

  /** Deleting an id the log does not use changes nothing. */
  lemma {:induction false} DeleteAbsent(log: seq<Simulation>, id: string)
    requires id !in Ids(log)
    ensures Delete(log, id) == log
  {
    if log != [] {
      var init := log[..|log| - 1];
      assert Ids(init) <= Ids(log) by {
        forall x | x in Ids(init) ensures x in Ids(log) {
          var i :| 0 <= i < |init| && init[i].id == x;
          assert log[i].id == x;
        }
      }
      DeleteAbsent(init, id);
      assert log[|log| - 1].id in Ids(log);
      assert init + [log[|log| - 1]] == log;
    }
  }

  /** Deleting a just-added building undoes the addition. */
  lemma DeleteUndoesAdd(log: seq<Simulation>, form: Property, newId: string)
    requires newId !in Ids(log)
    ensures Delete(SaveBuilding(log, None, form, newId), newId) == log
  {
    var r := log + [Add(newId, form)];
    assert r[..|r| - 1] == log;
    DeleteAbsent(log, newId);
  }

  /** Deleting a just-recorded sale undoes the sale. */
  lemma DeleteUndoesSell(log: seq<Simulation>, name: string, date: Option<Month>, newId: string)
    requires newId !in Ids(log)
    ensures Delete(SellBuilding(log, name, date, newId), newId) == log
  {
    DeleteAbsent(log, newId);
    if name != [] && date.Some? {
      var r := log + [Sell(newId, name, date.value)];
      assert r[..|r| - 1] == log;
    }
  }

  /** Adding a building appends it to the virtual buildings and leaves the sales alone. */
  lemma AddExtendsPortfolio(original: seq<Property>, log: seq<Simulation>, form: Property, newId: string)
    requires newId !in Ids(log)
    ensures Portfolio(original, SaveBuilding(log, None, form, newId)) == Portfolio(original, log) + [form]
    ensures Sold(SaveBuilding(log, None, form, newId)) == Sold(log)
  {
    var r := log + [Add(newId, form)];
    assert r[..|r| - 1] == log;
  }

  /** Selling appends one sale and leaves the buildings alone. */
  lemma SellExtendsSales(original: seq<Property>, log: seq<Simulation>, name: string, date: Month, newId: string)
    requires newId !in Ids(log) && name != []
    ensures Sold(SellBuilding(log, name, Some(date), newId)) == Sold(log) + [Sale(name, date)]
    ensures Portfolio(original, SellBuilding(log, name, Some(date), newId)) == Portfolio(original, log)
  {
    var r := log + [Sell(newId, name, date)];
    assert r[..|r| - 1] == log;
  }

  /** Appending an event with a fresh id keeps the ids unique. */
  lemma AppendKeepsUnique(log: seq<Simulation>, e: Simulation)
    requires UniqueIds(log) && e.id !in Ids(log)
    ensures UniqueIds(log + [e])
  {
    var r := log + [e];
    forall i, j | 0 <= i < j < |r| ensures r[i].id != r[j].id {
      if j == |log| {
        assert log[i].id in Ids(log);
      }
    }
  }

  /** Editing keeps the ids, so it keeps them unique. */
  lemma EditKeepsUnique(log: seq<Simulation>, id: string, form: Property)
    requires UniqueIds(log)
    ensures UniqueIds(Edit(log, id, form))
  {
  }

  /** Appending an event adds its id. */
  lemma IdsSnoc(log: seq<Simulation>, e: Simulation)
    ensures Ids(log + [e]) == Ids(log) + {e.id}
  {
    var r := log + [e];
    forall x | x in Ids(r) ensures x in Ids(log) + {e.id} {
      var i :| 0 <= i < |r| && r[i].id == x;
      if i < |log| { assert log[i].id == x; }
    }
    forall x | x in Ids(log) ensures x in Ids(r) {
      var i :| 0 <= i < |log| && log[i].id == x;
      assert r[i].id == x;
    }
    assert r[|log|].id == e.id;
  }

  /** Deleting keeps the survivors in their order, so it keeps the ids unique. */
  lemma {:induction false} DeleteKeepsUnique(log: seq<Simulation>, id: string)
    requires UniqueIds(log)
    ensures UniqueIds(Delete(log, id))
    ensures Ids(Delete(log, id)) == Ids(log) - {id}
  {
    if log != [] {
      var init := log[..|log| - 1];
      var e := log[|log| - 1];
      assert UniqueIds(init);
      DeleteKeepsUnique(init, id);
      var d := Delete(init, id);
      IdsSnoc(init, e);
      assert init + [e] == log;
      assert e.id !in Ids(init) by {
        forall i | 0 <= i < |init| ensures init[i].id != e.id {
          assert log[i].id != log[|log| - 1].id;
        }
      }
      if e.id != id {
        AppendKeepsUnique(d, e);
        IdsSnoc(d, e);
      }
    }
  }

  /** Editing never touches the sales. */
  lemma {:induction false} EditKeepsSales(log: seq<Simulation>, id: string, form: Property)
    ensures Sold(Edit(log, id, form)) == Sold(log)
  {
    if log != [] {
      var init := log[..|log| - 1];
      EditKeepsSales(init, id, form);
      assert Edit(log, id, form)[..|log| - 1] == Edit(init, id, form);
    }
  }

  /** Editing with an id no add event carries changes nothing. */
  lemma EditAbsent(log: seq<Simulation>, id: string, form: Property)
    requires forall i | 0 <= i < |log| :: !(log[i].Add? && log[i].id == id)
    ensures Edit(log, id, form) == log
  {
  }

  /** Splitting around one event. */
  lemma VirtualAround(pre: seq<Simulation>, e: Simulation, post: seq<Simulation>)
    ensures Virtual(pre + [e] + post) == Virtual(pre) + (if e.Add? then [e.data] else []) + Virtual(post)
  {
    SplitConcat(pre + [e], post);
    assert (pre + [e])[..|pre + [e]| - 1] == pre;
  }

  /** With unique ids, editing the add event at position j changes that event only. */
  lemma EditAt(original: seq<Simulation>, j: nat, form: Property)
    requires UniqueIds(original) && j < |original| && original[j].Add?
    ensures Edit(original, original[j].id, form) == original[..j] + [Add(original[j].id, form)] + original[j + 1..]
  {
    var id := original[j].id;
    var r, s := Edit(original, id, form), original[..j] + [Add(id, form)] + original[j + 1..];
    assert |r| == |s|;
    forall i | 0 <= i < |r| ensures r[i] == s[i] {
      if i < j {
        assert original[i].id != id;
      } else if i > j {
        assert original[i].id != id;
      }
    }
  }

  /** The virtual buildings around the event at position j. */
  lemma VirtualAt(original: seq<Simulation>, j: nat)
    requires j < |original|
    ensures Virtual(original) ==
      Virtual(original[..j]) + (if original[j].Add? then [original[j].data] else []) + Virtual(original[j + 1..])
  {
    var pre, e, post := original[..j], original[j], original[j + 1..];
    VirtualAround(pre, e, post);
    assert original == pre + [e] + post;
  }

  /** Editing the add event at position j replaces exactly that building of the
      portfolio with the form, when the ids are unique (compare `VirtualAt`). */
  lemma EditReplacesOne(original: seq<Simulation>, j: nat, form: Property)
    requires UniqueIds(original) && j < |original| && original[j].Add?
    ensures Virtual(Edit(original, original[j].id, form)) ==
      Virtual(original[..j]) + [form] + Virtual(original[j + 1..])
  {
    EditAt(original, j, form);
    VirtualAround(original[..j], Add(original[j].id, form), original[j + 1..]);
  }
}
