/** Where the protocol breaks: families of runs that fault, and the exact conditions. */
module Hazards {
  import opened Cells
  import opened Handles
  import opened Containers
  import opened Collector
  import opened Ownership
  import opened Safety
  import opened Collection
  import opened Runs
  import opened Promises

  /** A collection during `Clear` of a weak map faults if it finds a swapped-out entry dead: the
      callback looks the key up in the map, which no longer stores the dying cell. */
  lemma GcDuringClearFaults(w: World, m: MapId, k: Key)
    requires Reachable(w) && IsMap(w, m) && w.traits[m].callbackKind != NotWeak && k in w.impls[m]
    ensures BeginRound(w, m).Done? && Gc(BeginRound(w, m).value, [w.impls[m][k]], {w.impls[m][k]}).Fault?
  {
    hide Core, Stored, Filled, Reachable, Gc;
    var x := ReachableIsGood(w);
    var a := w.impls[m][k];
    FilledEntry(w, x, m, k);
    StoredCell(w, x, InMap(m, k));
    EntryData(w, x, a, m, k);
    NoneNearDeath(w, x, a);
    var y := BeginRoundKeeps(w, x, m);
    var u := BeginRound(w, m).value;
    assert u.frames[|w.frames|].rest[k] == a && Doomed(u, [a], {a}, a);
    var _ := GcFaultsExactly(u, y, [a], {a});
  }

  /** `Append` keeps the ownership invariant exactly when the handle is not phantom-weak. */
  lemma AppendKeepsExactly(w: World, v: VectorId, l: Location)
    requires Reachable(w) && v in w.vectors && l in w.vals
    ensures Append(w, v, l).Done?
    ensures (exists y :: Good(Append(w, v, l).value, y)) <==> !HoldsPhantom(w, l)
  {
    hide Core, Stored, Filled, Reachable;
    var x := ReachableIsGood(w);
    var r, q := Append(w, v, l).value, InVector(v, |w.vectors[v]|);
    if HoldsPhantom(w, l) {
      NullIsNoNode(w, x);
      forall y ensures !Good(r, y) {
        if Good(r, y) {
          assert CellAt(r, q) == w.vals[l];
          StoredCell(r, y, q);
        }
      }
    } else {
      var y := AppendKeeps(w, x, v, l);
    }
  }

  lemma {:induction false} DestroyAllFaults(w: World, cells: seq<Address>, a: Address)
    requires a != NULL && a in cells && !InUse(w, a)
    ensures DestroyAll(w, cells).Fault?
    decreases |cells|
  {
    if cells[0] != a && Destroy(w, cells[0]).Done? {
      DestroyAllFaults(Destroy(w, cells[0]).value, cells[1..], a);
    }
  }

  /** What goes wrong otherwise: the collector frees the cell behind the vector's back, and the
      next `Clear` of the vector destroys it a second time. */
  lemma AppendedPhantomIsDestroyedTwice(w: World, v: VectorId, l: Location)
    requires Reachable(w) && v in w.vectors && HoldsPhantom(w, l)
    ensures var a := w.vals[l];
            && Append(w, v, l).Done?
            && Gc(Append(w, v, l).value, [a], {a}).Done?
            && VectorClear(Gc(Append(w, v, l).value, [a], {a}).value, v).Fault?
  {
    hide Core, Stored, Filled, Reachable;
    var x := ReachableIsGood(w);
    NullIsNoNode(w, x);
    HandleCell(w, x, l);
    var a, r := w.vals[l], Append(w, v, l).value;
    assert Visit(r, a, {a}) == ResetPhantom(r, a);
    var u := ResetPhantom(r, a).value;
    assert Scan(r, [a], {a}) == Done(u);
    assert Gc(r, [a], {a}) == Done(u);
    assert u.vectors[v] == w.vectors[v] + [a] && !InUse(u, a);
    DestroyAllFaults(u, u.vectors[v], a);
  }

  /** `Set` on a strong map keeps the invariant exactly when the handle is not phantom-weak. */
  lemma SetKeepsExactly(w: World, m: MapId, k: Key, l: Location, out: Location)
    requires Reachable(w) && IsMap(w, m) && w.traits[m].callbackKind == NotWeak && NonEmpty(w, l) && out !in w.vals
    ensures MapSet(w, m, k, l, out).Done?
    ensures (exists y :: Good(MapSet(w, m, k, l, out).value, y)) <==> !HoldsPhantom(w, l)
  {
    hide Core, Stored, Filled, Reachable;
    var x := ReachableIsGood(w);
    HandleCell(w, x, l);
    var r, q := MapSet(w, m, k, l, out).value, InMap(m, k);
    if HoldsPhantom(w, l) {
      forall y ensures !Good(r, y) {
        if Good(r, y) {
          assert CellAt(r, q) == w.vals[l];
          StoredCell(r, y, q);
        }
      }
    } else {
      var y := MapSetKeeps(w, x, m, k, l, out);
    }
  }

  /** What goes wrong otherwise: labelling the cell overwrites the recorded location of the handle,
      and the next collection that finds it dead writes through the label. */
  lemma SetPhantomFaults(w: World, m: MapId, k: Key, l: Location, out: Location)
    requires Reachable(w) && IsMap(w, m) && w.traits[m].callbackKind == NotWeak && out !in w.vals && HoldsPhantom(w, l)
    ensures var a := w.vals[l];
            MapSet(w, m, k, l, out).Done? && Gc(MapSet(w, m, k, l, out).value, [a], {a}).Fault?
  {
    hide Core, Stored, Filled, Reachable;
    var x := ReachableIsGood(w);
    NullIsNoNode(w, x);
    var a, r := w.vals[l], MapSet(w, m, k, l, out).value;
    assert Visit(r, a, {a}).Fault?;
  }

  lemma EmptyReachable()
    ensures Reachable(EMPTY)
  {
    assert LegalRun(EMPTY, []) && Run(EMPTY, []) == Done(EMPTY);
  }

  /** `Global(isolate, object)` at an unused location gives a non-empty strong handle. */
  lemma FilledReachable(w: World, l: Location, o: Object) returns (r: World)
    requires Reachable(w) && l !in w.vals
    ensures Reachable(r) && NonEmpty(r, l) && r.vals[l] in r.nodes && r.nodes[r.vals[l]].state == Normal
    ensures r.vals.Keys == w.vals.Keys + {l} && r.traits == w.traits && r.impls == w.impls && r.vectors == w.vectors
  {
    hide Core, Stored, Filled, Reachable, NewBlock;
    var x := ReachableIsGood(w);
    ReachableStep(w, OpNewFromLocal(l, Some(o)));
    r := NewFromLocal(w, l, Some(o)).value;
    NewHandleKeeps(w, x, l);
    var y := FillKeeps(NewHandle(w, l).value, x, l, Holds(o).it);
    NullIsNoNode(r, y);
  }

  /** The first hazard can be reached: some legal run ends right after `Clear` of a weak map has
      swapped its store out, in a state in which a collection faults. */
  lemma FaultingClearReachable(m: MapId, t: Traits, k: Key, o: Object) returns (w: World, a: Address)
    requires t.callbackKind != NotWeak
    ensures Reachable(w) && a in w.nodes && Gc(w, [a], {a}).Fault?
  {
    hide Core, Stored, Filled, Reachable, Gc, MapSet;
    EmptyReachable();
    ReachableStep(EMPTY, OpNewMap(m, t));
    var u := FilledReachable(NewMap(EMPTY, m, t).value, 0, o);
    ReachableStep(u, OpSet(m, k, 0, 1));
    SetStores(u, m, k, 0, 1);
    var v := MapSet(u, m, k, 0, 1).value;
    GcDuringClearFaults(v, m, k);
    ReachableStep(v, OpBeginRound(m));
    w, a := BeginRound(v, m).value, v.impls[m][k];
    EntryIsCell(v, m, k);
  }

  lemma SetStores(w: World, m: MapId, k: Key, l: Location, out: Location)
    requires MapSet(w, m, k, l, out).Done?
    ensures IsMap(MapSet(w, m, k, l, out).value, m) && MapSet(w, m, k, l, out).value.traits == w.traits
    ensures k in MapSet(w, m, k, l, out).value.impls[m]
  {
  }

  lemma EntryIsCell(w: World, m: MapId, k: Key)
    requires Reachable(w) && m in w.impls && k in w.impls[m]
    ensures w.impls[m][k] in w.nodes
  {
    hide Core, Stored, Filled, Reachable;
    var x := ReachableIsGood(w);
    FilledEntry(w, x, m, k);
    StoredCell(w, x, InMap(m, k));
  }

  /** So can the second: a handle that is weak without a callback, and a vector to put it into. */
  lemma PhantomReachable(v: VectorId, l: Location, o: Object) returns (w: World)
    ensures Reachable(w) && v in w.vectors && HoldsPhantom(w, l)
  {
    hide Core, Stored, Filled, Reachable;
    EmptyReachable();
    ReachableStep(EMPTY, OpNewVector(v));
    var u := FilledReachable(NewVector(EMPTY, v).value, l, o);
    ReachableStep(u, OpSetWeak(l));
    w := SetWeak(u, l).value;
  }

  /** And the third: a strong map next to a handle that is weak without a callback. */
  lemma PhantomAndStrongMapReachable(m: MapId, t: Traits, l: Location, o: Object) returns (w: World)
    requires t.callbackKind == NotWeak
    ensures Reachable(w) && IsMap(w, m) && w.traits[m] == t && HoldsPhantom(w, l)
  {
    hide Core, Stored, Filled, Reachable;
    EmptyReachable();
    ReachableStep(EMPTY, OpNewMap(m, t));
    var u := FilledReachable(NewMap(EMPTY, m, t).value, l, o);
    ReachableStep(u, OpSetWeak(l));
    w := SetWeak(u, l).value;
  }
}
