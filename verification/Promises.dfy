/** What the handle protocol promises in every reachable state. */
module Promises {
  import opened Cells
  import opened Containers
  import opened Collector
  import opened Ownership
  import opened Safety
  import opened Collection
  import opened Runs

  /** Some legal run leads from an isolate without handles to `w`. */
  ghost predicate Reachable(w: World) {
    exists ops :: LegalRun(EMPTY, ops) && Run(EMPTY, ops) == Done(w)
  }

  lemma ReachableIsGood(w: World) returns (x: Witness)
    requires Reachable(w)
    ensures Good(w, x) && w.pending == []
  {
    hide Core, Stored, Filled, LegalRun, Run;
    var ops :| LegalRun(EMPTY, ops) && Run(EMPTY, ops) == Done(w);
    EmptyIsGood();
    x := RunKeeps(EMPTY, Witness([], map[], map[], []), ops);
  }

  lemma {:induction false} RunThen(w: World, ops: seq<Op>, op: Op)
    requires LegalRun(w, ops) && Run(w, ops).Done? && Legal(Run(w, ops).value, op)
    ensures LegalRun(w, ops + [op]) && Run(w, ops + [op]) == Step(Run(w, ops).value, op)
    decreases |ops|
  {
    hide Step, Legal;
    if ops == [] {
      assert ([op])[1..] == [];
    } else {
      RunThen(Step(w, ops[0]).value, ops[1..], op);
      assert (ops + [op])[1..] == ops[1..] + [op];
    }
  }

  /** A legal step from a reachable state leads to a reachable state. */
  lemma ReachableStep(w: World, op: Op)
    requires Reachable(w) && Legal(w, op)
    ensures Step(w, op).Done? && Reachable(Step(w, op).value)
  {
    hide Core, Stored, Filled, LegalRun, Run, Step, Legal;
    var x := ReachableIsGood(w);
    var _ := StepKeeps(w, x, op);
    var ops :| LegalRun(EMPTY, ops) && Run(EMPTY, ops) == Done(w);
    RunThen(EMPTY, ops, op);
  }

  /** Every cell in use has exactly one owner, and every address kept anywhere is a cell in use. */
  lemma OneOwner(w: World)
    requires Reachable(w)
    ensures forall a :: InUse(w, a) ==> exists p: Place :: CellAt(w, p) == a
    ensures forall p: Place, q: Place :: CellAt(w, p) == CellAt(w, q) != NULL ==> p == q
    ensures forall p: Place :: CellAt(w, p) != NULL ==> InUse(w, CellAt(w, p))
  {
    hide Core, Stored, Filled, Reachable, CellAt;
    var x := ReachableIsGood(w);
    forall a | InUse(w, a) ensures exists p: Place :: CellAt(w, p) == a {
      InUseIsOwned(w, x, a);
      OwnerStores(w, x, a);
    }
    forall p: Place | CellAt(w, p) != NULL ensures InUse(w, CellAt(w, p)) {
      StoredCell(w, x, p);
    }
    forall p: Place, q: Place | CellAt(w, p) == CellAt(w, q) != NULL ensures p == q {
      StoredCell(w, x, p);
      StoredCell(w, x, q);
    }
  }

  lemma InUseIsOwned(w: World, x: Witness, a: Address)
    requires Core(w, x)
    ensures InUse(w, a) <==> a in x.owner
  {
    hide FreeListed, Disciplined, DataTracked, PendingListed, Accounted;
  }

  /** A cell that is still armed for key `k` of map `m` is the cell stored under `k`, unless a
      running `Clear` of `m` has swapped it out. */
  lemma ArmedMeansStored(w: World, a: Address, p: ParamId)
    requires Reachable(w) && a in w.nodes && w.nodes[a].state == Weak
    requires w.nodes[a].payload == Param(CallbackData(p))
    ensures p < |w.params|
    ensures var ParamRecord(m, k) := w.params[p];
            || (m in w.impls && k in w.impls[m] && w.impls[m][k] == a)
            || (exists i: nat :: i < |w.frames| && w.frames[i].mapId == m
                                 && k in w.frames[i].rest && w.frames[i].rest[k] == a)
  {
    hide Core, Stored, Filled, Reachable;
    var x := ReachableIsGood(w);
    if w.nodes[a].weakness == NoCallback {
      PhantomIsHeld(w, x, a);
    }
    var m, k := ArmedIsEntry(w, x, a);
    EntryData(w, x, a, m, k);
    OwnerStores(w, x, a);
  }

  /** Conversely the cell stored under `k` is armed for `k`, with the callback of its map's class
      and in the way its traits ask for; in a strong map it is strong and carries the label. */
  lemma StoredMeansArmed(w: World, m: MapId, k: Key)
    requires Reachable(w) && IsMap(w, m) && k in w.impls[m]
    ensures w.impls[m][k] in w.nodes
    ensures var n, t := w.nodes[w.impls[m][k]], w.traits[m];
            if t.callbackKind == NotWeak then n.state == Normal && n.payload == Param(Label(t.name))
            else
              && n.state == Weak && n.callback == Some(t.mapClass)
              && n.weakness ==
                 (if t.callbackKind == WeakWithInternalFields then WithCallbackAndFields else WithCallback)
              && n.payload.Param? && n.payload.parameter.CallbackData?
              && n.payload.parameter.id < |w.params| && w.params[n.payload.parameter.id] == ParamRecord(m, k)
  {
    hide Core, Stored, Filled, Reachable;
    var x := ReachableIsGood(w);
    FilledEntry(w, x, m, k);
    StoredCell(w, x, InMap(m, k));
    EntryData(w, x, w.impls[m][k], m, k);
    NoneNearDeath(w, x, w.impls[m][k]);
  }

  /** Cells that carry callback data `p`. */
  ghost predicate Carries(w: World, a: Address, p: ParamId) {
    a in w.nodes && w.nodes[a].state == Weak && w.nodes[a].payload == Param(CallbackData(p))
  }

  function Disposals(w: World, p: ParamId): nat {
    multiset(w.log)[DataDisposed(p)] + multiset(w.log)[WeakDisposed(p)]
  }

  /** Callback data is disposed at most once, and exactly once as soon as no weak cell carries
      it and no second pass is waiting for it. */
  lemma DataDisposedOnce(w: World, p: ParamId)
    requires Reachable(w) && p < |w.params|
    ensures Disposals(w, p) <= 1
    ensures Disposals(w, p) == 1 <==> (forall a :: !Carries(w, a, p)) && p !in w.second
    ensures forall a, b :: Carries(w, a, p) && Carries(w, b, p) ==> a == b
    ensures forall i: nat, j: nat :: i < j < |w.second| && w.second[i] == p ==> w.second[j] != p
  {
    hide Core, Stored, Filled, Reachable;
    var x := ReachableIsGood(w);
    DataAccount(w, x, p);
    forall a | Carries(w, a, p) ensures x.data[p] == AtCell(a) {
      CarriedAt(w, x, a, p);
    }
  }

  lemma CarriedAt(w: World, x: Witness, a: Address, p: ParamId)
    requires Good(w, x) && Carries(w, a, p)
    ensures p < |x.data| && x.data[p] == AtCell(a)
  {
    hide Core, Stored, Filled;
    if w.nodes[a].weakness == NoCallback {
      PhantomIsHeld(w, x, a);
    }
    var m, k := ArmedIsEntry(w, x, a);
    EntryData(w, x, a, m, k);
  }

  lemma PendingData(w: World, x: Witness, i: nat)
    requires Core(w, x) && i < |w.pending|
    ensures var Pending(a, p, cls) := w.pending[i];
            && p < |x.data| && x.data[p] == AtCell(a)
            && a in w.nodes && w.nodes[a].payload == Param(CallbackData(p)) && w.nodes[a].callback == Some(cls)
  {
    hide Core;
    NearDeathOwned(w, x, i);
    var a := w.pending[i].node;
    var m, k := ArmedIsEntry(w, x, a);
    EntryData(w, x, a, m, k);
    PendingNode(w, x, i);
  }

  lemma PendingNode(w: World, x: Witness, i: nat)
    requires Core(w, x) && i < |w.pending|
    ensures var Pending(a, p, cls) := w.pending[i];
            a in w.nodes && w.nodes[a].payload == Param(CallbackData(p)) && w.nodes[a].callback == Some(cls)
  {
    hide FreeListed, Owned, Disciplined, DataTracked, Accounted;
  }

  lemma DataAccount(w: World, x: Witness, p: ParamId)
    requires Core(w, x) && w.pending == [] && p < |w.params|
    ensures p < |x.data| && Disposals(w, p) == if x.data[p] == Finished then 1 else 0
    ensures x.data[p].AtCell? ==> Carries(w, x.data[p].address, p)
    ensures x.data[p].Queued? <==> p in w.second
    ensures forall i: nat, j: nat :: i < j < |w.second| && w.second[i] == p ==> w.second[j] != p
  {
    hide FreeListed, Owned, Disciplined;
  }

  /** Created and destroyed balance for every address; the cells in use lack one destruction. */
  lemma Balanced(w: World, a: Address)
    requires Reachable(w)
    ensures multiset(w.log)[Created(a)] == multiset(w.log)[Destroyed(a)] + (if InUse(w, a) then 1 else 0)
  {
    hide FreeListed, Owned, Disciplined, DataTracked, PendingListed, Stored, Filled, Reachable;
    var x := ReachableIsGood(w);
  }

  /** Once all handles and containers are gone, nothing is in use, every cell has been destroyed
      as often as created, and all callback data has been disposed or waits for its second pass. */
  lemma NothingLeaks(w: World)
    requires Reachable(w) && w.vals == map[] && w.impls == map[] && w.vectors == map[] && w.frames == []
    ensures w.count == 0 && forall a :: !InUse(w, a)
    ensures forall a: Address :: multiset(w.log)[Created(a)] == multiset(w.log)[Destroyed(a)]
    ensures forall p: ParamId :: p < |w.params| && p !in w.second ==> Disposals(w, p) == 1
  {
    hide Core, Stored, Filled, Reachable, Disposals;
    var x := ReachableIsGood(w);
    OneOwner(w);
    forall a ensures !InUse(w, a) {
      if InUse(w, a) {
        var p: Place :| CellAt(w, p) == a;
        NullIsNoNode(w, x);
      }
    }
    CountIsOwners(w, x);
    assert x.owner.Keys == {} by {
      forall a | a in x.owner ensures false {
        InUseIsOwned(w, x, a);
      }
    }
    forall a: Address ensures multiset(w.log)[Created(a)] == multiset(w.log)[Destroyed(a)] {
      Balanced(w, a);
    }
    forall p: ParamId | p < |w.params| && p !in w.second ensures Disposals(w, p) == 1 {
      DataDisposedOnce(w, p);
      assert forall a :: Carries(w, a, p) ==> InUse(w, a);
    }
  }

  lemma CountIsOwners(w: World, x: Witness)
    requires Core(w, x)
    ensures w.count == |x.owner|
  {
  }

  // ------------------------------------------------- collections

  /** The data a stored entry of a weak map carries. */
  function DataOf(w: World, a: Address): ParamId
    requires a in w.nodes && w.nodes[a].payload.Param? && w.nodes[a].payload.parameter.CallbackData?
  {
    w.nodes[a].payload.parameter.id
  }

  /** A weak callback removes the entry whose cell triggered it and no other entry; data of a
      `PersistentValueMap` entry is disposed on the spot, data of a `GlobalValueMap` entry waits
      undisposed for its second pass. */
  lemma CallbacksHitTheirEntries(w: World, visit: seq<Address>, dead: set<Address>, m: MapId, k: Key)
    requires Reachable(w) && GcSafe(w, visit, dead) && (forall a :: a in visit ==> a in w.nodes)
    requires m in w.impls && k in w.impls[m] && m in w.traits
    ensures Gc(w, visit, dead).Done?
    ensures var a, r := w.impls[m][k], Gc(w, visit, dead).value;
            && m in r.impls
            && (k in r.impls[m] <==> !Doomed(w, visit, dead, a))
            && (k in r.impls[m] ==> r.impls[m][k] == a && a in r.nodes && a in w.nodes && r.nodes[a] == w.nodes[a])
            && (Doomed(w, visit, dead, a) ==>
                  && !InUse(r, a)
                  && w.nodes[a].payload.Param? && w.nodes[a].payload.parameter.CallbackData?
                  && var p := DataOf(w, a);
                     if w.traits[m].mapClass == GlobalValueMap then p in r.second && Disposals(r, p) == 0
                     else p !in r.second && Disposals(r, p) == 1)
  {
    hide Core, Stored, Reachable, Gc, GcSafe, Filled;
    var x := ReachableIsGood(w);
    var a := w.impls[m][k];
    assert a != NULL by { FilledEntry(w, x, m, k); }
    StoredCell(w, x, InMap(m, k));
    EntryData(w, x, a, m, k);
    GcCollects(w, x, visit, dead);
    if Doomed(w, visit, dead, a) {
      DoomedData(w, x, visit, dead, a, m, k);
    }
  }

  lemma FilledEntry(w: World, x: Witness, m: MapId, k: Key)
    requires Good(w, x) && m in w.impls && k in w.impls[m]
    ensures w.impls[m][k] != NULL
  {
    hide Core, Stored;
  }

  lemma DoomedData(w: World, x: Witness, visit: seq<Address>, dead: set<Address>, a: Address, m: MapId, k: Key)
    requires Good(w, x) && w.pending == [] && GcSafe(w, visit, dead) && (forall b :: b in visit ==> b in w.nodes)
    requires a in x.owner && x.owner[a] == InMap(m, k) && Doomed(w, visit, dead, a)
    requires m in w.traits && w.traits[m].callbackKind != NotWeak
    requires w.nodes[a].payload.Param? && w.nodes[a].payload.parameter.CallbackData?
    requires Gc(w, visit, dead).Done?
    ensures var p, r := DataOf(w, a), Gc(w, visit, dead).value;
            if w.traits[m].mapClass == GlobalValueMap then p in r.second && Disposals(r, p) == 0
            else p !in r.second && Disposals(r, p) == 1
  {
    hide Core, Stored, Filled, Gc, GcSafe, Disposals, Scan;
    var y := GcFaultsExactly(w, x, visit, dead);
    var z := ScanKeeps(w, x, visit, dead);
    var p, u, r := DataOf(w, a), Scan(w, visit, dead).value, Gc(w, visit, dead).value;
    EntryData(w, x, a, m, k);
    GcCollects(w, x, visit, dead);
    ScanMarks(w, x, visit, dead, a);
    DyingPending(u, z, a);
    var i: nat :| i < |u.pending| && u.pending[i].node == a;
    PendingData(u, z, i);
    DataAccount(r, y, p);
    DataAccount(w, x, p);
    if y.data[p].AtCell? {
      CarriedAt(w, x, y.data[p].address, p);
      assert false;
    }
    if w.traits[m].mapClass == GlobalValueMap {
      assert p in r.second[|u.second|..];
    } else if p in r.second {
      assert r.second == u.second + r.second[|u.second|..];
      assert p in r.second[|u.second|..];
      var j: nat :| j < |u.pending| && u.pending[j].param == p && u.pending[j].callback == GlobalValueMap;
      PendingData(u, z, j);
      assert false;
    }
  }

  /** `InvokeSecondPassPhantomCallbacks`: runs queued callbacks until none is left. */
  function SecondPasses(w: World): World
    decreases |w.second|
  {
    if w.second == [] then w else SecondPasses(SecondPass(w).value)
  }

  function Reversed(s: seq<ParamId>): seq<Event> {
    seq(|s|, (i: nat) requires i < |s| => WeakDisposed(s[|s| - 1 - i]))
  }

  lemma {:induction false} SecondPassesLog(w: World)
    ensures SecondPasses(w) == w.(second := [], log := w.log + Reversed(w.second))
    decreases |w.second|
  {
    if w.second == [] {
      assert w.log + Reversed(w.second) == w.log;
    } else {
      var u, n := SecondPass(w).value, |w.second|;
      SecondPassesLog(u);
      assert Reversed(w.second) == [WeakDisposed(w.second[n - 1])] + Reversed(w.second[..n - 1]);
    }
  }

  /** A whole cycle: a collection and then all second passes. No `DisposeWeak` runs before the
      last first-pass callback is done, and afterwards the data of every dead entry has been
      disposed exactly once. */
  lemma CycleDisposesAll(w: World, visit: seq<Address>, dead: set<Address>, m: MapId, k: Key)
    requires Reachable(w) && GcSafe(w, visit, dead) && (forall a :: a in visit ==> a in w.nodes)
    requires m in w.impls && k in w.impls[m] && m in w.traits && Doomed(w, visit, dead, w.impls[m][k])
    ensures Gc(w, visit, dead).Done?
    ensures var r := Gc(w, visit, dead).value;
            var f := SecondPasses(r);
            && Quiet(w, r) && r.log <= f.log
            && (forall i: nat :: |r.log| <= i < |f.log| ==> f.log[i].WeakDisposed?)
            && w.nodes[w.impls[m][k]].payload.Param? && w.nodes[w.impls[m][k]].payload.parameter.CallbackData?
            && f.second == [] && Disposals(f, DataOf(w, w.impls[m][k])) == 1
  {
    hide Core, Stored, Filled, Reachable, Gc, GcSafe, Disposals, SecondPasses, Scan;
    CallbacksHitTheirEntries(w, visit, dead, m, k);
    var a, r, p := w.impls[m][k], Gc(w, visit, dead).value, DataOf(w, w.impls[m][k]);
    var x := ReachableIsGood(w);
    GcCollects(w, x, visit, dead);
    SecondPassesLog(r);
    var f := SecondPasses(r);
    assert f.log == r.log + Reversed(r.second);
    var y := GcFaultsExactly(w, x, visit, dead);
    var z := SecondPassesKeep(r, y);
    FilledEntry(w, x, m, k);
    StoredCell(w, x, InMap(m, k));
    EntryData(w, x, a, m, k);
    DataAccount(f, z, p);
    if z.data[p].AtCell? {
      CarriedAt(w, x, z.data[p].address, p);
      assert false;
    }
  }

  lemma {:induction false} SecondPassesKeep(w: World, x: Witness) returns (y: Witness)
    requires Good(w, x)
    ensures Good(SecondPasses(w), y) && SecondPasses(w).pending == w.pending
    decreases |w.second|
  {
    hide Core, Stored, Filled;
    y := x;
    if w.second != [] {
      y := SecondPassKeeps(w, x);
      y := SecondPassesKeep(SecondPass(w).value, y);
    }
  }
}
