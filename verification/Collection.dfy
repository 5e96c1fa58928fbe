/** What a garbage collection does to the world, and when it is safe. */
module Collection {
  import opened Cells
  import opened Handles
  import opened Containers
  import opened Collector
  import opened Ownership
  import opened Safety

  /** The collector looks at `a`, finds it weak and its object dead. */
  predicate Doomed(w: World, visit: seq<Address>, dead: set<Address>, a: Address) {
    a in visit && a in dead && a in w.nodes && w.nodes[a].state == Weak
  }

  /** A dead phantom cell: the handle that holds it is emptied and the cell freed. */
  predicate DoomedPhantom(w: World, visit: seq<Address>, dead: set<Address>, a: Address) {
    Doomed(w, visit, dead, a) && w.nodes[a].weakness == NoCallback
  }

  /** What a scan does: phantom cells go away, cells with a callback are marked and queued. */
  ghost predicate Scanned(w: World, r: World, visit: seq<Address>, dead: set<Address>) {
    && r.impls == w.impls && r.frames == w.frames && r.vectors == w.vectors
    && r.traits == w.traits && r.params == w.params && r.second == w.second
    && r.nodes.Keys == w.nodes.Keys
    && (forall a :: a in w.nodes ==>
          if !Doomed(w, visit, dead, a) then r.nodes[a] == w.nodes[a]
          else if w.nodes[a].weakness == NoCallback then r.nodes[a].state == Free
          else r.nodes[a] == w.nodes[a].(state := NearDeath, contents := CalledOut))
    && r.vals.Keys == w.vals.Keys
    && (forall l :: l in w.vals ==>
          r.vals[l] == if DoomedPhantom(w, visit, dead, w.vals[l]) then NULL else w.vals[l])
    && Quiet(w, r)
  }

  /** Nothing was logged about callback data being disposed in a second pass. */
  ghost predicate Quiet(w: World, r: World) {
    w.log <= r.log && forall i: nat :: |w.log| <= i < |r.log| ==> !r.log[i].WeakDisposed?
  }

  lemma PhantomIsHeld(w: World, x: Witness, a: Address)
    requires Good(w, x) && a in w.nodes && IsPhantom(w.nodes[a])
    ensures a != NULL && exists l :: l in w.vals && w.vals[l] == a && w.nodes[a].payload == Param(Slot(l))
  {
    hide FreeListed, DataTracked, PendingListed, Accounted, Stored;
    assert a in x.owner && FitsOwner(w.traits, w.params, x.data, w.nodes[a], a, x.owner[a]);
    OwnerStores(w, x, a);
    assert x.owner[a].InHandle?;
  }

  /** A dead phantom cell is handled like `Reset` of the handle that holds it. */
  lemma ResetPhantomKeeps(w: World, x: Witness, a: Address) returns (y: Witness, l: Location)
    requires Good(w, x) && a in w.nodes && IsPhantom(w.nodes[a])
    ensures a != NULL && l in w.vals && w.vals[l] == a
    ensures ResetPhantom(w, a) == Reset(w, l) && Reset(w, l).Done? && Good(Reset(w, l).value, y)
    ensures y.owner == x.owner - {a}
    ensures forall l' :: l' in w.vals && w.vals[l'] == a ==> l' == l
  {
    hide Core, Stored, Filled;
    PhantomIsHeld(w, x, a);
    l :| l in w.vals && w.vals[l] == a && w.nodes[a].payload == Param(Slot(l));
    HandleCell(w, x, l);
    forall l' | l' in w.vals && w.vals[l'] == a ensures l' == l {
      HandleCell(w, x, l');
    }
    y := ResetKeeps(w, x, l);
  }

  /** A weak cell with a callback belongs to a map, or to a running `Clear` of a map. */
  lemma ArmedIsEntry(w: World, x: Witness, a: Address) returns (m: MapId, k: Key)
    requires Core(w, x) && a in w.nodes
    requires w.nodes[a].state == NearDeath || (w.nodes[a].state == Weak && w.nodes[a].weakness != NoCallback)
    ensures a in x.owner && EntryOf(x.owner[a], m, k) && m in w.traits && w.traits[m].callbackKind != NotWeak
  {
    hide FreeListed, DataTracked, PendingListed, Accounted;
    assert a in x.owner && FitsOwner(w.traits, w.params, x.data, w.nodes[a], a, x.owner[a]);
    m, k := x.owner[a].mapId, x.owner[a].key;
  }

  lemma CollectKeeps(w: World, x: Witness, a: Address)
    requires Good(w, x) && a in w.nodes && w.nodes[a].state == Weak && w.nodes[a].weakness != NoCallback
    ensures Collect(w, a).Done? && Good(Collect(w, a).value, x)
  {
    hide FreeListed, Owned, Disciplined, DataTracked, PendingListed, Accounted, Stored, CarriesNoData;
    var m, k := ArmedIsEntry(w, x, a);
    EntryData(w, x, a, m, k);
    OwnedCell(w, x, a);
    var r := Collect(w, a).value;
    var n := r.nodes[a];
    FreeListKept(w.nodes, w.top, w.firstFree, x.free, a, n);
    OwnedMoved(w.nodes, x.held, x.owner, a, n, x.owner[a]);
    SameOwner(w, x, a);
    DisciplineMoved(w.nodes, w.traits, w.params, x.data, x.owner, a, n, x.owner[a]);
    DataDying(w.nodes, w.second, x.data, a, n);
    PendingAdded(w.nodes, w.pending, a, n, r.pending[|w.pending|]);
    AccountsKept(w.nodes, multiset(w.log), x.data, a, n);
    StoredSame(w, r, x.held);
  }

  lemma SameOwner(w: World, x: Witness, a: Address)
    requires Core(w, x) && a in x.owner
    ensures x.owner[a := x.owner[a]] == x.owner && x.owner[a] in x.held
    ensures (x.held - {x.owner[a]})[x.owner[a] := a] == x.held
  {
    hide FreeListed, Disciplined, DataTracked, PendingListed, Accounted;
  }

  lemma VisitKeeps(w: World, x: Witness, a: Address, dead: set<Address>) returns (y: Witness)
    requires Good(w, x) && a in w.nodes
    ensures Visit(w, a, dead).Done? && Good(Visit(w, a, dead).value, y)
    ensures Scanned(w, Visit(w, a, dead).value, [a], dead)
    ensures y.owner.Keys <= x.owner.Keys && forall b :: b in y.owner ==> y.owner[b] == x.owner[b]
  {
    hide Core, Stored, Filled;
    y := x;
    if w.nodes[a].state == Weak && a in dead {
      if w.nodes[a].weakness == NoCallback {
        var l;
        y, l := ResetPhantomKeeps(w, x, a);
        PhantomScanned(w, a, l, dead);
      } else {
        CollectKeeps(w, x, a);
        CollectScanned(w, a, dead);
      }
    } else {
      assert forall b :: b in w.nodes ==> !Doomed(w, [a], dead, b);
    }
  }

  lemma PhantomScanned(w: World, a: Address, l: Location, dead: set<Address>)
    requires a != NULL && a in w.nodes && IsPhantom(w.nodes[a]) && a in dead && l in w.vals && w.vals[l] == a
    requires forall l' :: l' in w.vals && w.vals[l'] == a ==> l' == l
    ensures Scanned(w, Reset(w, l).value, [a], dead)
  {
    var r := Reset(w, l).value;
    assert r.vals.Keys == w.vals.Keys && r.nodes.Keys == w.nodes.Keys;
    assert forall b :: b in w.nodes ==> (Doomed(w, [a], dead, b) <==> b == a);
  }

  lemma CollectScanned(w: World, a: Address, dead: set<Address>)
    requires a in w.nodes && w.nodes[a].state == Weak && w.nodes[a].weakness != NoCallback && a in dead
    requires Collect(w, a).Done?
    ensures Scanned(w, Collect(w, a).value, [a], dead)
  {
    var r := Collect(w, a).value;
    assert r.nodes.Keys == w.nodes.Keys;
    assert forall b :: b in w.nodes ==> (Doomed(w, [a], dead, b) <==> b == a);
  }

  lemma ScannedThen(w: World, u: World, r: World, visit: seq<Address>, dead: set<Address>)
    requires visit != [] && Scanned(w, u, [visit[0]], dead) && Scanned(u, r, visit[1..], dead)
    requires NULL !in w.nodes
    ensures Scanned(w, r, visit, dead)
  {
    var a, rest := visit[0], visit[1..];
    forall b | b in w.nodes
      ensures Doomed(w, visit, dead, b) <==> Doomed(w, [a], dead, b) || Doomed(u, rest, dead, b)
      ensures !(Doomed(w, [a], dead, b) && Doomed(u, rest, dead, b))
    {
      assert b in visit <==> b in [a] || b in rest;
    }
  }

  lemma {:induction false} ScanKeeps(w: World, x: Witness, visit: seq<Address>, dead: set<Address>) returns (y: Witness)
    requires Good(w, x) && forall a :: a in visit ==> a in w.nodes
    ensures Scan(w, visit, dead).Done? && Good(Scan(w, visit, dead).value, y)
    ensures Scanned(w, Scan(w, visit, dead).value, visit, dead)
    ensures y.owner.Keys <= x.owner.Keys && forall b :: b in y.owner ==> y.owner[b] == x.owner[b]
    decreases |visit|
  {
    hide Core, Stored, Filled, Visit;
    if visit == [] {
      y := x;
      assert forall b :: b in w.nodes ==> !Doomed(w, visit, dead, b);
    } else {
      var z := VisitKeeps(w, x, visit[0], dead);
      var u := Visit(w, visit[0], dead).value;
      y := ScanKeeps(u, z, visit[1..], dead);
      NullIsNoNode(w, x);
      ScannedThen(w, u, Scan(w, visit, dead).value, visit, dead);
    }
  }

  lemma NullIsNoNode(w: World, x: Witness)
    requires Core(w, x)
    ensures NULL !in w.nodes
  {
    hide Owned, Disciplined, DataTracked, PendingListed, Accounted;
  }

  // ------------------------------------------------- first-pass callbacks

  /** The callback of a cell stored in a map: the entry, the cell and nothing else goes away. */
  ghost predicate CalledBack(w: World, r: World, a: Address, p: ParamId, cls: MapClass, m: MapId, k: Key) {
    && m in w.impls && k in w.impls[m] && w.impls[m][k] == a
    && r.impls == w.impls[m := w.impls[m] - {k}]
    && r.vals == w.vals && r.frames == w.frames && r.vectors == w.vectors
    && r.traits == w.traits && r.params == w.params
    && a in w.nodes && a in r.nodes && r.nodes == w.nodes[a := r.nodes[a]] && r.nodes[a].state == Free
    && r.second == (if cls == GlobalValueMap then w.second + [p] else w.second)
    && r.log == w.log + [FirstPass(p), Destroyed(a)] + (if cls == GlobalValueMap then [] else [DataDisposed(p)])
  }

  lemma LogAfter(log: seq<Event>, e: Event, f: Event, g: Event)
    ensures multiset(log + [e, f] + []) == multiset(log) + multiset{e} + multiset{f}
    ensures multiset(log + [e, f] + [g]) == multiset(log) + multiset{e} + multiset{f} + multiset{g}
  {
  }

  /** The entry under `k` and its dying cell are gone; `tail` is the rest of the log. */
  ghost predicate Buried(w: World, r: World, a: Address, m: MapId, k: Key, tail: seq<Event>) {
    && a in r.nodes && r.nodes == w.nodes[a := r.nodes[a]]
    && r.nodes[a].state == Free && r.nodes[a].payload == NextFree(w.firstFree)
    && r.top == w.top && r.firstFree == a && r.count == w.count - 1 && r.pending == w.pending
    && r.vals == w.vals && r.frames == w.frames && r.vectors == w.vectors
    && r.traits == w.traits && r.params == w.params
    && m in w.impls && r.impls == w.impls[m := w.impls[m] - {k}]
    && r.log == w.log + [Destroyed(a)] + tail
  }

  lemma PersistentEffect(w: World, a: Address, p: ParamId, m: MapId, k: Key)
    requires p < |w.params| && w.params[p] == ParamRecord(m, k)
    requires IsMap(w, m) && k in w.impls[m] && w.impls[m][k] == a != NULL
    requires a in w.nodes && w.nodes[a].state == NearDeath
    ensures PersistentCallback(w, p).Done?
    ensures var r := PersistentCallback(w, p).value;
            Buried(w, r, a, m, k, [DataDisposed(p)]) && r.second == w.second
  {
  }

  lemma GlobalEffect(w: World, a: Address, p: ParamId, m: MapId, k: Key)
    requires p < |w.params| && w.params[p] == ParamRecord(m, k)
    requires IsMap(w, m) && k in w.impls[m] && w.impls[m][k] == a != NULL
    requires a in w.nodes && w.nodes[a].state == NearDeath
    ensures GlobalCallback(w, p).Done?
    ensures var r := GlobalCallback(w, p).value;
            Buried(w, r, a, m, k, []) && r.second == w.second + [p]
  {
  }

  /** What `InvokeFirst` computes when the entry found under the key is the dying cell. */
  lemma InvokeFirstEffect(w: World, m: MapId, k: Key)
    requires w.pending != [] && w.pending[0].node != NULL
    requires var Pending(a, p, cls) := w.pending[0];
             && p < |w.params| && w.params[p] == ParamRecord(m, k)
             && IsMap(w, m) && k in w.impls[m] && w.impls[m][k] == a
             && a in w.nodes && w.nodes[a].state == NearDeath
    ensures InvokeFirst(w).Done?
    ensures var Pending(a, p, cls) := w.pending[0];
            var r := InvokeFirst(w).value;
            && CalledBack(w, r, a, p, cls, m, k)
            && r.top == w.top && r.firstFree == a && r.count == w.count - 1 && r.pending == w.pending[1..]
            && r.nodes[a].payload == NextFree(w.firstFree)
  {
    hide PersistentCallback, GlobalCallback;
    var Pending(a, p, cls) := w.pending[0];
    var w0 := w.(pending := w.pending[1..], log := w.log + [FirstPass(p)]);
    if cls == PersistentValueMap {
      PersistentEffect(w0, a, p, m, k);
    } else {
      GlobalEffect(w0, a, p, m, k);
    }
  }

  lemma BuryKeeps(w: World, x: Witness, r: World, y: Witness, m: MapId, k: Key)
    requires Core(w, x) && w.pending != []
    requires w.pending[0].node in x.owner && x.owner[w.pending[0].node] == InMap(m, k)
    requires var Pending(a, p, cls) := w.pending[0];
             && CalledBack(w, r, a, p, cls, m, k)
             && w.nodes[a].state == NearDeath && r.nodes[a].payload == NextFree(w.firstFree)
             && r.top == w.top && r.firstFree == a && r.count == w.count - 1 && r.pending == w.pending[1..]
             && p < |x.data| && x.data[p] == AtCell(a)
             && y == Witness([a] + x.free, x.held - {InMap(m, k)}, x.owner - {a},
                             x.data[p := if cls == GlobalValueMap then Queued(|w.second|) else Finished])
    ensures Core(r, y)
  {
    hide FreeListed, Owned, Disciplined, DataTracked, PendingListed, Accounted, CarriesNoData;
    var Pending(a, p, cls) := w.pending[0];
    var n, log := r.nodes[a], multiset(w.log);
    FreeListPush(w.nodes, w.top, w.firstFree, x.free, a, n);
    OwnedDropped(w.nodes, x.held, x.owner, a, n);
    DisciplineElsewhere(w.nodes, w.traits, w.params, x.data, x.owner, a, p, y.data[p]);
    DisciplineDropped(w.nodes, w.traits, w.params, y.data, x.owner - {a}, a, n);
    assert x.owner - {a} - {a} == x.owner - {a};
    PendingPopped(w.nodes, w.pending, n);
    AccountsNoted(w.nodes, log, x.data, p);
    AccountsDropped(w.nodes, log + multiset{FirstPass(p)}, x.data, a, n);
    var log' := log + multiset{FirstPass(p)} + multiset{Destroyed(a)};
    LogAfter(w.log, FirstPass(p), Destroyed(a), DataDisposed(p));
    if cls == GlobalValueMap {
      DataQueued(w.nodes, w.second, x.data, a, n, p);
      AccountsQueued(r.nodes, log', x.data, p, |w.second|);
    } else {
      DataFinished(w.nodes, w.second, x.data, a, n, p);
      AccountsFinished(r.nodes, log', x.data, p);
    }
  }

  lemma InvokeFirstStored(w: World, x: Witness, m: MapId, k: Key) returns (y: Witness)
    requires Good(w, x) && w.pending != []
    requires w.pending[0].node in x.owner && x.owner[w.pending[0].node] == InMap(m, k)
    ensures InvokeFirst(w).Done? && Good(InvokeFirst(w).value, y)
    ensures var Pending(a, p, cls) := w.pending[0]; CalledBack(w, InvokeFirst(w).value, a, p, cls, m, k)
    ensures y.owner == x.owner - {w.pending[0].node}
  {
    hide Core, Stored, InvokeFirst;
    var Pending(a, p, cls) := w.pending[0];
    FirstPending(w, x);
    OwnerStores(w, x, a);
    EntryData(w, x, a, m, k);
    InvokeFirstEffect(w, m, k);
    var r := InvokeFirst(w).value;
    var data := x.data[p := if cls == GlobalValueMap then Queued(|w.second|) else Finished];
    y := Witness([a] + x.free, x.held - {InMap(m, k)}, x.owner - {a}, data);
    BuryKeeps(w, x, r, y, m, k);
    StoredAdded(w, r, x.held, InMap(m, k), NULL);
  }

  lemma FirstPending(w: World, x: Witness)
    requires Core(w, x) && w.pending != []
    ensures var Pending(a, p, cls) := w.pending[0];
            && a in w.nodes && w.nodes[a].state == NearDeath
            && w.nodes[a].payload == Param(CallbackData(p)) && w.nodes[a].callback == Some(cls)
            && a in x.owner
  {
    hide FreeListed, Disciplined, DataTracked, Accounted;
  }

  /** The callback of a cell that its map no longer stores: `Remove` finds nothing, or a newer
      cell under the same key. The dying cell is not reset, so the CHECK fails. */
  lemma InvokeFirstMiss(w: World)
    requires w.pending != []
    requires var Pending(a, p, cls) := w.pending[0];
             && a in w.nodes && w.nodes[a].state == NearDeath
             && (p < |w.params| && w.params[p].mapId in w.impls ==>
                   Lookup(w.impls[w.params[p].mapId], w.params[p].key) != a)
    ensures InvokeFirst(w).Fault?
  {
    var Pending(a, p, cls) := w.pending[0];
    var w0 := w.(pending := w.pending[1..], log := w.log + [FirstPass(p)]);
    if cls == PersistentValueMap {
      assert PersistentCallback(w0, p).Done? ==> PersistentCallback(w0, p).value.nodes[a] == w.nodes[a];
    } else {
      assert GlobalCallback(w0, p).Done? ==> GlobalCallback(w0, p).value.nodes[a] == w.nodes[a];
    }
  }

  predicate Dying(w: World, a: Address) {
    a in w.nodes && w.nodes[a].state == NearDeath
  }

  ghost predicate NodesPassed(w: World, r: World) {
    && r.nodes.Keys == w.nodes.Keys
    && (forall a :: a in w.nodes ==> if Dying(w, a) then r.nodes[a].state == Free else r.nodes[a] == w.nodes[a])
  }

  ghost predicate EntriesPassed(w: World, r: World) {
    && r.impls.Keys == w.impls.Keys
    && (forall m, k :: m in w.impls ==>
          (k in r.impls[m] <==> k in w.impls[m] && !Dying(w, w.impls[m][k])))
    && (forall m, k :: m in w.impls && k in w.impls[m] && !Dying(w, w.impls[m][k]) ==>
          r.impls[m][k] == w.impls[m][k])
  }

  /** What the first-pass callbacks do together: exactly the dying cells are freed and exactly
      their entries removed; the data of `GlobalValueMap` entries is queued for the second pass. */
  ghost predicate PassedOver(w: World, r: World) {
    && r.vals == w.vals && r.frames == w.frames && r.vectors == w.vectors
    && r.traits == w.traits && r.params == w.params && r.pending == []
    && NodesPassed(w, r) && EntriesPassed(w, r)
    && w.second <= r.second
    && (forall p :: p in r.second[|w.second|..] <==>
          exists i: nat :: i < |w.pending| && w.pending[i].param == p && w.pending[i].callback == GlobalValueMap)
    && Quiet(w, r)
  }

  lemma PassedOverThen(w: World, u: World, r: World, m: MapId, k: Key)
    requires w.pending != [] && u.pending == w.pending[1..] && PassedOver(u, r)
    requires var Pending(a, p, cls) := w.pending[0];
             && CalledBack(w, u, a, p, cls, m, k) && Dying(w, a)
             && forall m', k' :: m' in w.impls && k' in w.impls[m'] && w.impls[m'][k'] == a ==> m' == m && k' == k
    ensures PassedOver(w, r)
  {
    hide NodesPassed, EntriesPassed, Quiet;
    NodesThen(w, u, r, w.pending[0].node);
    EntriesThen(w, u, r, w.pending[0].node, m, k);
    QuietThen(w, u, r, w.pending[0].node, w.pending[0].param, w.pending[0].callback);
    QueuedThen(w, u, r);
  }

  lemma QuietThen(w: World, u: World, r: World, a: Address, p: ParamId, cls: MapClass)
    requires u.log == w.log + [FirstPass(p), Destroyed(a)] + (if cls == GlobalValueMap then [] else [DataDisposed(p)])
    requires Quiet(u, r)
    ensures Quiet(w, r)
  {
    assert forall i: nat :: |w.log| <= i < |u.log| ==> r.log[i] == u.log[i] && !u.log[i].WeakDisposed?;
  }

  lemma NodesThen(w: World, u: World, r: World, a: Address)
    requires a in w.nodes && a in u.nodes && u.nodes == w.nodes[a := u.nodes[a]] && u.nodes[a].state == Free
    requires Dying(w, a) && NodesPassed(u, r)
    ensures NodesPassed(w, r)
  {
    assert u.nodes.Keys == w.nodes.Keys;
  }

  lemma EntriesThen(w: World, u: World, r: World, a: Address, m: MapId, k: Key)
    requires a in u.nodes && u.nodes == w.nodes[a := u.nodes[a]] && u.nodes[a].state == Free && Dying(w, a)
    requires m in w.impls && k in w.impls[m] && w.impls[m][k] == a && u.impls == w.impls[m := w.impls[m] - {k}]
    requires forall m', k' :: m' in w.impls && k' in w.impls[m'] && w.impls[m'][k'] == a ==> m' == m && k' == k
    requires EntriesPassed(u, r)
    ensures EntriesPassed(w, r)
  {
    assert forall b :: b != a ==> (Dying(u, b) <==> Dying(w, b));
    assert u.impls.Keys == w.impls.Keys;
  }

  lemma QueuedThen(w: World, u: World, r: World)
    requires w.pending != [] && u.pending == w.pending[1..] && u.second <= r.second
    requires u.second == w.second + (if w.pending[0].callback == GlobalValueMap then [w.pending[0].param] else [])
    requires forall p :: p in r.second[|u.second|..] <==>
               exists i: nat :: i < |u.pending| && u.pending[i].param == p && u.pending[i].callback == GlobalValueMap
    ensures w.second <= r.second
    ensures forall p :: p in r.second[|w.second|..] <==>
              exists i: nat :: i < |w.pending| && w.pending[i].param == p && w.pending[i].callback == GlobalValueMap
  {
    var head := u.second[|w.second|..];
    assert r.second[|w.second|..] == head + r.second[|u.second|..];
    forall p
      ensures p in r.second[|w.second|..] <==>
              exists i: nat :: i < |w.pending| && w.pending[i].param == p && w.pending[i].callback == GlobalValueMap
    {
      if i: nat :| i < |w.pending| && w.pending[i].param == p && w.pending[i].callback == GlobalValueMap {
        if i > 0 {
          assert u.pending[i - 1] == w.pending[i];
        }
      }
      if i: nat :| i < |u.pending| && u.pending[i].param == p && u.pending[i].callback == GlobalValueMap {
        assert w.pending[i + 1] == u.pending[i];
      }
    }
  }

  lemma {:induction false} FirstPassesKeep(w: World, x: Witness) returns (y: Witness)
    requires Good(w, x)
    requires forall i: nat :: i < |w.pending| ==>
               w.pending[i].node in x.owner && x.owner[w.pending[i].node].InMap?
    ensures FirstPasses(w).Done? && Good(FirstPasses(w).value, y) && PassedOver(w, FirstPasses(w).value)
    decreases |w.pending|
  {
    hide Core, Stored, Filled, InvokeFirst;
    if w.pending == [] {
      y := x;
      forall a | a in w.nodes ensures !Dying(w, a) {
        NoneNearDeath(w, x, a);
      }
    } else {
      var a := w.pending[0].node;
      var InMap(m, k) := x.owner[a];
      FirstPending(w, x);
      var z := InvokeFirstStored(w, x, m, k);
      var u := InvokeFirst(w).value;
      PendingDiffer(w, x);
      assert forall i: nat :: i < |u.pending| ==> u.pending[i] == w.pending[i + 1];
      y := FirstPassesKeep(u, z);
      forall m', k' | m' in w.impls && k' in w.impls[m'] && w.impls[m'][k'] == a ensures m' == m && k' == k {
        OwnerStores(w, x, a);
        StoredCell(w, x, InMap(m', k'));
      }
      PassedOverThen(w, u, FirstPasses(w).value, m, k);
    }
  }

  lemma PendingDiffer(w: World, x: Witness)
    requires Core(w, x) && w.pending != []
    ensures forall i: nat :: 0 < i < |w.pending| ==> w.pending[i].node != w.pending[0].node
  {
    hide FreeListed, Owned, Disciplined, DataTracked, Accounted;
  }

  lemma {:induction false} FirstPassesFault(w: World, x: Witness, i: nat)
    requires Good(w, x) && i < |w.pending|
    requires w.pending[i].node in x.owner && x.owner[w.pending[i].node].InFrame?
    ensures FirstPasses(w).Fault?
    decreases |w.pending|
  {
    hide Core, Stored, Filled, InvokeFirst;
    FirstPending(w, x);
    var a := w.pending[0].node;
    var m, k := ArmedIsEntry(w, x, a);
    EntryData(w, x, a, m, k);
    if x.owner[a].InFrame? {
      if m in w.impls && Lookup(w.impls[m], k) == a {
        StoredCell(w, x, InMap(m, k));
      }
      InvokeFirstMiss(w);
    } else {
      var z := InvokeFirstStored(w, x, m, k);
      PendingDiffer(w, x);
      FirstPassesFault(InvokeFirst(w).value, z, i - 1);
    }
  }

  // ------------------------------------------------- whole collections

  /** No doomed cell sits in the swapped-out store of a running `Clear`. */
  ghost predicate GcSafe(w: World, visit: seq<Address>, dead: set<Address>) {
    forall i: nat, k :: i < |w.frames| && k in w.frames[i].rest ==> !Doomed(w, visit, dead, w.frames[i].rest[k])
  }

  /** What a collection does, up to and including its first-pass callbacks. */
  ghost predicate Collected(w: World, r: World, visit: seq<Address>, dead: set<Address>) {
    && r.frames == w.frames && r.vectors == w.vectors && r.traits == w.traits && r.params == w.params
    && r.nodes.Keys == w.nodes.Keys
    && (forall a :: a in w.nodes ==>
          if Doomed(w, visit, dead, a) then r.nodes[a].state == Free else r.nodes[a] == w.nodes[a])
    && r.vals.Keys == w.vals.Keys
    && (forall l :: l in w.vals ==> r.vals[l] == if Doomed(w, visit, dead, w.vals[l]) then NULL else w.vals[l])
    && r.impls.Keys == w.impls.Keys
    && (forall m, k :: m in w.impls ==>
          (k in r.impls[m] <==> k in w.impls[m] && !Doomed(w, visit, dead, w.impls[m][k])))
    && (forall m, k :: m in w.impls && k in r.impls[m] && k in w.impls[m] ==> r.impls[m][k] == w.impls[m][k])
    && Quiet(w, r)
  }

  lemma ScanMarks(w: World, x: Witness, visit: seq<Address>, dead: set<Address>, a: Address)
    requires Core(w, x) && w.pending == [] && a in w.nodes
    requires Scan(w, visit, dead).Done? && Scanned(w, Scan(w, visit, dead).value, visit, dead)
    ensures Dying(Scan(w, visit, dead).value, a) <==>
            Doomed(w, visit, dead, a) && w.nodes[a].weakness != NoCallback
  {
    hide Core, Scan;
    NoneNearDeath(w, x, a);
  }

  /** A collection faults exactly when it finds a dead weak cell that a running `Clear` has
      taken out of its map but not released yet. */
  lemma GcFaultsExactly(w: World, x: Witness, visit: seq<Address>, dead: set<Address>) returns (y: Witness)
    requires Good(w, x) && w.pending == [] && forall a :: a in visit ==> a in w.nodes
    ensures Gc(w, visit, dead).Done? <==> GcSafe(w, visit, dead)
    ensures Gc(w, visit, dead).Done? ==>
              Good(Gc(w, visit, dead).value, y) && PassedOver(Scan(w, visit, dead).value, Gc(w, visit, dead).value)
  {
    hide Core, Stored, Filled, Scan, FirstPasses, Scanned;
    var z := ScanKeeps(w, x, visit, dead);
    y := z;
    var u := Scan(w, visit, dead).value;
    if i: nat :| i < |u.pending| && (u.pending[i].node !in z.owner || !z.owner[u.pending[i].node].InMap?) {
      NearDeathOwned(u, z, i);
      assert z.owner[u.pending[i].node].InFrame?;
      FirstPassesFault(u, z, i);
      FrameDoomed(w, x, u, z, visit, dead, u.pending[i].node);
    } else {
      y := FirstPassesKeep(u, z);
      forall i: nat, k | i < |w.frames| && k in w.frames[i].rest
        ensures !Doomed(w, visit, dead, w.frames[i].rest[k])
      {
        FrameSpared(w, x, u, z, visit, dead, i, k);
      }
    }
  }

  lemma NearDeathOwned(w: World, x: Witness, i: nat)
    requires Core(w, x) && i < |w.pending|
    ensures Dying(w, w.pending[i].node) && w.pending[i].node in x.owner
    ensures x.owner[w.pending[i].node].InMap? || x.owner[w.pending[i].node].InFrame?
  {
    hide FreeListed, DataTracked, Accounted;
    var a := w.pending[i].node;
    assert a in x.owner && FitsOwner(w.traits, w.params, x.data, w.nodes[a], a, x.owner[a]);
  }

  lemma FrameDoomed(w: World, x: Witness, u: World, z: Witness, visit: seq<Address>, dead: set<Address>, a: Address)
    requires Good(w, x) && w.pending == [] && Good(u, z) && Scan(w, visit, dead) == Done(u)
    requires Scanned(w, u, visit, dead) && Dying(u, a) && a in z.owner && z.owner[a].InFrame?
    ensures !GcSafe(w, visit, dead)
  {
    hide Core, Stored, Filled, Scan;
    OwnerStores(u, z, a);
    var InFrame(i, m, k) := z.owner[a];
    assert w.frames[i].rest[k] == a;
    ScanMarks(w, x, visit, dead, a);
  }

  lemma FrameSpared(w: World, x: Witness, u: World, z: Witness, visit: seq<Address>, dead: set<Address>, i: nat, k: Key)
    requires Good(w, x) && w.pending == [] && Good(u, z) && Scan(w, visit, dead) == Done(u)
    requires Scanned(w, u, visit, dead) && i < |w.frames| && k in w.frames[i].rest
    requires forall j: nat :: j < |u.pending| ==> u.pending[j].node in z.owner && z.owner[u.pending[j].node].InMap?
    ensures !Doomed(w, visit, dead, w.frames[i].rest[k])
  {
    hide Core, Stored, Scan;
    var a, p := w.frames[i].rest[k], InFrame(i, w.frames[i].mapId, k);
    StoredCell(w, x, p);
    EntryNoPhantom(w, x, a, w.frames[i].mapId, k);
    if Doomed(w, visit, dead, a) {
      ScanMarks(w, x, visit, dead, a);
      assert CellAt(u, p) == a;
      StoredCell(u, z, p);
      DyingPending(u, z, a);
      assert false;
    }
  }

  lemma EntryNoPhantom(w: World, x: Witness, a: Address, m: MapId, k: Key)
    requires Core(w, x) && a in x.owner && EntryOf(x.owner[a], m, k)
    ensures a in w.nodes && (w.nodes[a].state == Weak ==> w.nodes[a].weakness != NoCallback)
  {
    hide Core;
    EntryData(w, x, a, m, k);
  }

  lemma DyingPending(w: World, x: Witness, a: Address)
    requires Core(w, x) && Dying(w, a)
    ensures exists i: nat :: i < |w.pending| && w.pending[i].node == a
  {
    hide FreeListed, Owned, Disciplined, DataTracked, Accounted;
  }

  /** The effect of a collection in terms of the world it started from. */
  lemma GcCollects(w: World, x: Witness, visit: seq<Address>, dead: set<Address>)
    requires Good(w, x) && w.pending == [] && GcSafe(w, visit, dead)
    requires forall a :: a in visit ==> a in w.nodes
    ensures Gc(w, visit, dead).Done? && Collected(w, Gc(w, visit, dead).value, visit, dead)
  {
    hide Core, Stored, Scan, FirstPasses;
    var _ := GcFaultsExactly(w, x, visit, dead);
    var _ := ScanKeeps(w, x, visit, dead);
    var u, r := Scan(w, visit, dead).value, Gc(w, visit, dead).value;
    forall a | a in w.nodes
      ensures Dying(u, a) <==> Doomed(w, visit, dead, a) && w.nodes[a].weakness != NoCallback
    {
      ScanMarks(w, x, visit, dead, a);
    }
    forall m, k | m in w.impls && k in w.impls[m]
      ensures w.impls[m][k] in w.nodes
      ensures Doomed(w, visit, dead, w.impls[m][k]) ==> w.nodes[w.impls[m][k]].weakness != NoCallback
    {
      StoredCell(w, x, InMap(m, k));
      EntryNoPhantom(w, x, w.impls[m][k], m, k);
    }
    forall l | l in w.vals && Doomed(w, visit, dead, w.vals[l])
      ensures DoomedPhantom(w, visit, dead, w.vals[l])
    {
      NullIsNoNode(w, x);
      HandleCell(w, x, l);
    }
  }

  lemma SecondPassKeeps(w: World, x: Witness) returns (y: Witness)
    requires Good(w, x) && w.second != []
    ensures SecondPass(w).Done? && Good(SecondPass(w).value, y)
  {
    hide FreeListed, Owned, Disciplined, DataTracked, PendingListed, Accounted, Stored;
    var p, r := w.second[|w.second| - 1], SecondPass(w).value;
    LastQueued(w, x);
    y := x.(data := x.data[p := Finished]);
    DataDequeued(w.nodes, w.second, x.data);
    AccountsFinished(w.nodes, multiset(w.log), x.data, p);
    FinishedQueue(w.nodes, w.traits, w.params, x.data, x.owner, p);
    StoredSame(w, r, x.held);
  }

  lemma LastQueued(w: World, x: Witness)
    requires Core(w, x) && w.second != []
    ensures var p := w.second[|w.second| - 1]; p < |x.data| && x.data[p].Queued?
  {
    hide FreeListed, Owned, Disciplined, PendingListed, Accounted;
  }

  lemma FinishedQueue(nodes: map<Address, Node>, traits: map<MapId, Traits>, params: seq<ParamRecord>,
                      data: seq<Whereabouts>, owner: map<Address, Place>, p: ParamId)
    requires Disciplined(nodes, traits, params, data, owner) && p < |data| && data[p].Queued?
    ensures Disciplined(nodes, traits, params, data[p := Finished], owner)
  {
    hide FitsOwner;
    forall a | a in owner ensures a in nodes && FitsOwner(traits, params, data[p := Finished], nodes[a], a, owner[a]) {
      FitsElsewhere(traits, params, data, nodes[a], a, owner[a], p, Finished);
    }
  }
}
