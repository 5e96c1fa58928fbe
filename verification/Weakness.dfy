/** Which handles are weak: what every operation does to that, and what it means to collections. */
module Weakness {
  import opened Cells
  import opened Handles
  import opened Containers
  import opened Collector
  import opened Ownership
  import opened Safety
  import opened Collection
  import opened Runs
  import opened Promises
  import opened PlainValues
  import opened Refinement

  /** The handles that a collection may empty. */
  function WeakHandles(w: World): set<Location> {
    set l | l in w.vals && HoldsPhantom(w, l)
  }

  /** Weakness moves with the cell. */
  function WeakMove(weak: set<Location>, l: Location, rhs: Location): set<Location> {
    if rhs in weak then weak - {rhs} + {l} else weak - {l}
  }

  /** What each operation does to the set of weak handles. Whatever gives a handle a new cell, or
      the cell of a container, leaves it strong. */
  function WeakStep(weak: set<Location>, op: Op, g: Garbage): set<Location> {
    match op
    case OpMoveConstruct(l, rhs) => WeakMove(weak, l, rhs)
    case OpMoveAssign(l, rhs) => if l == rhs then weak else WeakMove(weak, l, rhs)
    case OpCopy(l, _) => weak - {l}
    case OpReset(l) => weak - {l}
    case OpResetToLocal(l, _) => weak - {l}
    case OpSetWeak(l) => weak + {l}
    case OpClearWeak(l) => weak - {l}
    case OpDestroyHandle(l) => weak - {l}
    case OpSet(_, _, l, _) => weak - {l}
    case OpGc(_, _) => weak - g.handles
    case _ => weak
  }

  // ------------------------------------------------- handles that an operation leaves alone

  /** Outside `s`, handles keep their cells and the cells keep their state. */
  ghost predicate Untouched(w: World, r: World, s: set<Location>) {
    && (forall l :: l !in s ==> (l in r.vals <==> l in w.vals))
    && (forall l :: l !in s && l in w.vals && l in r.vals ==>
          && r.vals[l] == w.vals[l]
          && (w.vals[l] != NULL ==>
                w.vals[l] in w.nodes && w.vals[l] in r.nodes && r.nodes[w.vals[l]] == w.nodes[w.vals[l]]))
  }

  lemma UntouchedIsSame(w: World, r: World, s: set<Location>)
    requires Untouched(w, r, s) && NULL !in w.nodes && NULL !in r.nodes
    ensures forall l :: l !in s ==> (l in WeakHandles(r) <==> l in WeakHandles(w))
  {
    hide IsPhantom;
  }

  /** Only the cell `a`, which is kept at `p`, and the handles in `s` change. */
  lemma OneCell(w: World, x: Witness, r: World, p: Place, s: set<Location>)
    requires Good(w, x) && CellAt(w, p) != NULL && (p.InHandle? ==> p.location in s)
    requires forall a :: a in w.nodes && a != CellAt(w, p) ==> a in r.nodes && r.nodes[a] == w.nodes[a]
    requires forall l :: l !in s ==> (l in r.vals <==> l in w.vals) && (l in w.vals ==> r.vals[l] == w.vals[l])
    ensures Untouched(w, r, s)
  {
    hide Core, Stored, Filled, CellAt;
    StoredCell(w, x, p);
    forall l | l !in s && l in w.vals && w.vals[l] != NULL
      ensures w.vals[l] in w.nodes && w.vals[l] != CellAt(w, p)
    {
      HandleCell(w, x, l);
    }
  }

  /** No cell in use changes. */
  lemma NoCell(w: World, x: Witness, r: World, s: set<Location>)
    requires Good(w, x) && forall a :: InUse(w, a) ==> a in r.nodes && r.nodes[a] == w.nodes[a]
    requires forall l :: l !in s ==> (l in r.vals <==> l in w.vals) && (l in w.vals ==> r.vals[l] == w.vals[l])
    ensures Untouched(w, r, s)
  {
    hide Core, Stored, Filled;
    forall l | l !in s && l in w.vals && w.vals[l] != NULL ensures InUse(w, w.vals[l]) {
      HandleCell(w, x, l);
    }
  }

  // ------------------------------------------------- the parts of handle operations

  lemma ResetWeakness(w: World, x: Witness, l: Location)
    requires Good(w, x) && l in w.vals
    ensures Reset(w, l).Done? && WeakHandles(Reset(w, l).value) == WeakHandles(w) - {l}
  {
    hide Core, Stored, Filled;
    var y := ResetKeeps(w, x, l);
    var r := Reset(w, l).value;
    NullIsNoNode(w, x);
    NullIsNoNode(r, y);
    if w.vals[l] != NULL {
      OneCell(w, x, r, InHandle(l), {l});
    } else {
      NoCell(w, x, r, {l});
    }
    UntouchedIsSame(w, r, {l});
  }

  lemma FillWeakness(w: World, x: Witness, l: Location, o: Object)
    requires Good(w, x) && l in w.vals && w.vals[l] == NULL
    ensures Fill(w, l, Holds(o)).Done? && WeakHandles(Fill(w, l, Holds(o)).value) == WeakHandles(w)
  {
    hide Core, Stored, Filled, Create;
    var y := FillKeeps(w, x, l, o);
    var r := Fill(w, l, Holds(o)).value;
    NullIsNoNode(w, x);
    NullIsNoNode(r, y);
    CreatePlaces(w, Holds(o));
    CreateNodes(w, x, Holds(o));
    CreatesStrong(w, Holds(o));
    NoCell(w, x, r, {l});
    UntouchedIsSame(w, r, {l});
  }

  lemma CreatesStrong(w: World, c: Contents)
    requires Create(w, c).Done?
    ensures var (r, a) := Create(w, c).value; a in r.nodes && !IsPhantom(r.nodes[a])
  {
  }

  lemma FillFromWeakness(w: World, x: Witness, l: Location, that: Location)
    requires Good(w, x) && l in w.vals && w.vals[l] == NULL && that in w.vals
    ensures FillFrom(w, l, that).Done? && WeakHandles(FillFrom(w, l, that).value) == WeakHandles(w)
  {
    hide Core, Stored, Filled, Fill;
    if w.vals[that] != NULL {
      HandleCell(w, x, that);
      FillWeakness(w, x, l, w.nodes[w.vals[that]].contents.it);
    }
  }

  lemma MoveIntoWeakness(w: World, x: Witness, l: Location, rhs: Location)
    requires Good(w, x) && l in w.vals && rhs in w.vals && l != rhs && w.vals[l] == NULL
    ensures MoveInto(w, l, rhs).Done?
    ensures WeakHandles(MoveInto(w, l, rhs).value) == WeakMove(WeakHandles(w), l, rhs)
  {
    hide Core, Stored, Filled;
    var y := MoveIntoKeeps(w, x, l, rhs);
    var r := MoveInto(w, l, rhs).value;
    NullIsNoNode(w, x);
    NullIsNoNode(r, y);
    if w.vals[rhs] != NULL {
      HandleCell(w, x, rhs);
      OneCell(w, x, r, InHandle(rhs), {l, rhs});
      UntouchedIsSame(w, r, {l, rhs});
    }
  }

  lemma TweakWeakness(w: World, x: Witness, op: Op)
    requires Good(w, x) && (op.OpSetWeak? || op.OpClearWeak?) && Legal(w, op)
    ensures Step(w, op).Done? && WeakHandles(Step(w, op).value) == WeakStep(WeakHandles(w), op, Garbage({}, {}))
  {
    hide Core, Stored, Filled;
    var y := UpdateKeeps(w, x, op);
    var l, r := op.l, Step(w, op).value;
    NullIsNoNode(w, x);
    NullIsNoNode(r, y);
    HandleCell(w, x, l);
    OneCell(w, x, r, InHandle(l), {l});
    UntouchedIsSame(w, r, {l});
  }

  // ------------------------------------------------- containers and collections

  /** An entry is released into the handle `out`. */
  lemma TakeWeakness(w: World, x: Witness, p: Place, r: World, y: Witness, out: Location)
    requires Good(w, x) && Good(r, y) && !p.InHandle? && out !in w.vals && r.vals == w.vals[out := CellAt(w, p)]
    requires CellAt(w, p) != NULL && CellAt(w, p) in r.nodes && r.nodes[CellAt(w, p)].state == Normal
    requires forall a :: a in w.nodes && a != CellAt(w, p) ==> a in r.nodes && r.nodes[a] == w.nodes[a]
    ensures WeakHandles(r) == WeakHandles(w)
  {
    hide Core, Stored, Filled, CellAt;
    NullIsNoNode(w, x);
    NullIsNoNode(r, y);
    OneCell(w, x, r, p, {out});
    UntouchedIsSame(w, r, {out});
  }

  /** A released entry is strong. */
  lemma ReleasedIsStrong(w: World, x: Witness, p: Place, m: MapId, k: Key, v: World)
    requires Good(w, x) && w.pending == [] && EntryOf(p, m, k) && CellAt(w, p) != NULL && v.nodes == w.nodes
    requires m in w.traits && Release(v, w.traits[m].callbackKind, CellAt(w, p)).Done?
    ensures var a, r := CellAt(w, p), Release(v, w.traits[m].callbackKind, CellAt(w, p)).value;
            && a in r.nodes && r.nodes[a].state == Normal
            && forall b :: b in w.nodes && b != a ==> b in r.nodes && r.nodes[b] == w.nodes[b]
  {
    hide Core, Stored, Filled, CellAt;
    StoredCell(w, x, p);
    EntryData(w, x, CellAt(w, p), m, k);
    NoneNearDeath(w, x, CellAt(w, p));
  }

  lemma RemoveWeakness(w: World, x: Witness, m: MapId, k: Key, out: Location)
    requires Good(w, x) && w.pending == [] && IsMap(w, m) && out !in w.vals
    ensures MapRemove(w, m, k, out).Done? && WeakHandles(MapRemove(w, m, k, out).value) == WeakHandles(w)
  {
    hide Core, Stored, Filled, Release;
    var y := MapRemoveKeeps(w, x, m, k, out);
    var r, p, v := MapRemove(w, m, k, out).value, InMap(m, k), WithImpl(w, m, w.impls[m] - {k});
    ReleasePlaces(v, v, w.traits[m].callbackKind, Lookup(w.impls[m], k));
    if CellAt(w, p) != NULL {
      ReleasedIsStrong(w, x, p, m, k, v);
      TakeWeakness(w, x, p, r, y, out);
    } else {
      ReleaseNothing(v, w.traits[m].callbackKind);
      NewHandleWeakness(w, x, r, y, out);
    }
  }

  lemma ReleaseNothing(w: World, kind: CallbackKind)
    ensures Release(w, kind, NULL) == Done(w)
  {
  }

  lemma NewHandleWeakness(w: World, x: Witness, r: World, y: Witness, l: Location)
    requires Good(w, x) && Good(r, y) && l !in w.vals && r.nodes == w.nodes && r.vals == w.vals[l := NULL]
    ensures WeakHandles(r) == WeakHandles(w)
  {
    hide Core, Stored, Filled;
    NullIsNoNode(w, x);
    NoCell(w, x, r, {l});
    UntouchedIsSame(w, r, {l});
  }

  lemma InsertWeakness(w: World, x: Witness, m: MapId, k: Key, l: Location)
    requires Good(w, x) && l in w.vals && w.vals[l] != NULL && IsMap(w, m) && k !in w.impls[m]
    requires w.traits[m].callbackKind == NotWeak ==> w.vals[l] in w.nodes && !IsPhantom(w.nodes[w.vals[l]])
    ensures Insert(w, m, k, l).Done? && WeakHandles(Insert(w, m, k, l).value) == WeakHandles(w) - {l}
  {
    hide Core, Stored, Filled;
    var y := InsertKeeps(w, x, m, k, l);
    var r := Insert(w, m, k, l).value;
    NullIsNoNode(w, x);
    NullIsNoNode(r, y);
    OneCell(w, x, r, InHandle(l), {l});
    UntouchedIsSame(w, r, {l});
  }

  lemma SetWeakness(w: World, x: Witness, m: MapId, k: Key, l: Location, out: Location)
    requires Good(w, x) && w.pending == [] && Legal(w, OpSet(m, k, l, out))
    ensures MapSet(w, m, k, l, out).Done? && WeakHandles(MapSet(w, m, k, l, out).value) == WeakHandles(w) - {l}
  {
    hide Core, Stored, Filled, MapSet, Insert;
    HandleCell(w, x, l);
    SetIsRemoveThenInsert(w, x, m, k, l, out);
    RemoveWeakness(w, x, m, k, out);
    var y := MapRemoveKeeps(w, x, m, k, out);
    RemoveLeaves(w, x, m, k, l, out);
    InsertWeakness(MapRemove(w, m, k, out).value, y, m, k, l);
  }

  /** `Remove` leaves the handle that `Set` is given alone. */
  lemma RemoveLeaves(w: World, x: Witness, m: MapId, k: Key, l: Location, out: Location)
    requires Good(w, x) && w.pending == [] && Legal(w, OpSet(m, k, l, out))
    ensures var u := MapRemove(w, m, k, out);
            && u.Done? && IsMap(u.value, m) && k !in u.value.impls[m] && u.value.traits == w.traits
            && l in u.value.vals && u.value.vals[l] == w.vals[l] != NULL
            && (w.traits[m].callbackKind == NotWeak ==>
                  w.vals[l] in u.value.nodes && !IsPhantom(u.value.nodes[w.vals[l]]))
  {
    hide Core, Stored, Filled;
    HandleCell(w, x, l);
    var _ := MapRemoveKeeps(w, x, m, k, out);
  }

  lemma DrainWeakness(w: World, x: Witness, k: Key, out: Location)
    requires Good(w, x) && w.pending == [] && Legal(w, OpDrainOne(k, out))
    ensures DrainOne(w, k, out).Done? && WeakHandles(DrainOne(w, k, out).value) == WeakHandles(w)
  {
    hide Core, Stored, Release;
    var y := DrainOneKeeps(w, x, k, out);
    var top := |w.frames| - 1;
    var f := w.frames[top];
    var r, p, v := DrainOne(w, k, out).value, InFrame(top, f.mapId, k),
                   w.(frames := w.frames[top := f.(rest := f.rest - {k})]);
    assert CellAt(w, p) == f.rest[k] != NULL;
    ReleasePlaces(v, v, w.traits[f.mapId].callbackKind, f.rest[k]);
    ReleasedIsStrong(w, x, p, f.mapId, k, v);
    TakeWeakness(w, x, p, r, y, out);
  }

  lemma VectorClearWeakness(w: World, x: Witness, v: VectorId)
    requires Good(w, x) && v in w.vectors
    ensures VectorClear(w, v).Done? && WeakHandles(VectorClear(w, v).value) == WeakHandles(w)
  {
    hide Core, Stored, Filled, DestroyAll;
    var y := VectorClearKeeps(w, x, v);
    var r := VectorClear(w, v).value;
    DestroyAllNodes(w, w.vectors[v]);
    NullIsNoNode(w, x);
    NullIsNoNode(r, y);
    forall l | l in w.vals && w.vals[l] != NULL ensures w.vals[l] in w.nodes && w.vals[l] !in w.vectors[v] {
      HandleCell(w, x, l);
      NotInVector(w, x, v, l);
    }
    UntouchedIsSame(w, r, {});
  }

  lemma NotInVector(w: World, x: Witness, v: VectorId, l: Location)
    requires Good(w, x) && v in w.vectors && l in w.vals && w.vals[l] != NULL
    ensures w.vals[l] !in w.vectors[v]
  {
    hide Core, Stored, Filled;
    forall i: nat | i < |w.vectors[v]| ensures w.vectors[v][i] != w.vals[l] {
      if w.vectors[v][i] != NULL {
        StoredCell(w, x, InVector(v, i));
        StoredCell(w, x, InHandle(l));
      }
    }
  }

  lemma GcWeakness(w: World, x: Witness, visit: seq<Address>, dead: set<Address>)
    requires Good(w, x) && w.pending == [] && Legal(w, OpGc(visit, dead))
    ensures Gc(w, visit, dead).Done?
    ensures WeakHandles(Gc(w, visit, dead).value) == WeakHandles(w) - GarbageIn(w, visit, dead).handles
  {
    hide Core, Stored, Filled, Gc, GcSafe, Quiet;
    GcCollects(w, x, visit, dead);
    var y := GcFaultsExactly(w, x, visit, dead);
    var r, s := Gc(w, visit, dead).value, GarbageIn(w, visit, dead).handles;
    NullIsNoNode(w, x);
    NullIsNoNode(r, y);
    forall l | l in w.vals && w.vals[l] != NULL ensures w.vals[l] in w.nodes {
      HandleCell(w, x, l);
    }
    UntouchedIsSame(w, r, s);
  }

  // ------------------------------------------------- every step, and every run

  lemma HandleStepWeakness(w: World, x: Witness, op: Op)
    requires Good(w, x) && Legal(w, op) && (IsConstruction(op) || IsUpdate(op))
    ensures Step(w, op).Done? && WeakHandles(Step(w, op).value) == WeakStep(WeakHandles(w), op, Garbage({}, {}))
  {
    hide Core, Stored, Filled, Reset, Fill, FillFrom, MoveInto, WeakHandles;
    var y, u := x, w;
    if IsConstruction(op) {
      NewHandleKeeps(w, x, op.l);
      u := NewHandle(w, op.l).value;
      NewHandleWeakness(w, x, u, x, op.l);
      NotThere(w, op.l);
    } else {
      y := ResetKeeps(w, x, op.l);
      ResetWeakness(w, x, op.l);
      u := Reset(w, op.l).value;
    }
    match op
    case OpNewHandle(_) =>
    case OpNewFromLocal(l, local) =>
      if local.Some? {
        FillWeakness(u, y, l, local.value);
      }
    case OpNewFromHandle(l, that) => FillFromWeakness(u, y, l, that);
    case OpMoveConstruct(l, rhs) => MoveIntoWeakness(u, y, l, rhs);
    case OpMoveAssign(l, rhs) =>
      if l != rhs {
        MoveIntoWeakness(u, y, l, rhs);
      }
    case OpCopy(l, that) => FillFromWeakness(u, y, l, that);
    case OpReset(_) =>
    case OpResetToLocal(l, local) =>
      if local.Some? {
        FillWeakness(u, y, l, local.value);
      }
    case OpSetWeak(_) => TweakWeakness(w, x, op);
    case OpClearWeak(_) => TweakWeakness(w, x, op);
    case OpDestroyHandle(l) => ForgetWeakness(u, y, l);
  }

  lemma NotThere(w: World, l: Location)
    requires l !in w.vals
    ensures l !in WeakHandles(w)
  {
  }

  lemma ForgetWeakness(w: World, x: Witness, l: Location)
    requires Good(w, x) && l in w.vals && w.vals[l] == NULL
    ensures WeakHandles(w.(vals := w.vals - {l})) == WeakHandles(w)
  {
    hide Core, Stored, Filled;
    NullIsNoNode(w, x);
  }

  lemma ContainerStepWeakness(w: World, x: Witness, op: Op)
    requires Good(w, x) && w.pending == [] && Legal(w, op) && !IsConstruction(op) && !IsUpdate(op) && !op.OpGc?
    ensures Step(w, op).Done? && WeakHandles(Step(w, op).value) == WeakStep(WeakHandles(w), op, Garbage({}, {}))
  {
    hide Core, Stored, Filled, MapSet, MapRemove, DrainOne, DestroyAll;
    match op
    case OpSet(m, k, l, out) => SetWeakness(w, x, m, k, l, out);
    case OpRemove(m, k, out) => RemoveWeakness(w, x, m, k, out);
    case OpDrainOne(k, out) => DrainWeakness(w, x, k, out);
    case OpAppend(v, l) => NullIsNoNode(w, x);
    case OpVectorClear(v) => VectorClearWeakness(w, x, v);
    case OpDestroyVector(v) => VectorClearWeakness(w, x, v);
    case _ =>
  }

  /** One legal step does to the set of weak handles what `WeakStep` says. */
  lemma StepWeakness(w: World, x: Witness, op: Op)
    requires Good(w, x) && w.pending == [] && Legal(w, op)
    ensures Step(w, op).Done? && WeakHandles(Step(w, op).value) == WeakStep(WeakHandles(w), op, GarbageOf(w, op))
  {
    hide Core, Stored, Filled, WeakHandles, Gc, GcSafe, GarbageIn;
    if IsConstruction(op) || IsUpdate(op) {
      HandleStepWeakness(w, x, op);
    } else if op.OpGc? {
      GcWeakness(w, x, op.visit, op.dead);
    } else {
      ContainerStepWeakness(w, x, op);
    }
  }

  function WeakRun(weak: set<Location>, ops: seq<Op>, gs: seq<Garbage>): set<Location>
    requires |gs| == |ops|
    decreases |ops|
  {
    if ops == [] then weak else WeakRun(WeakStep(weak, ops[0], gs[0]), ops[1..], gs[1..])
  }

  /** So does every legal run, with the garbage that its collections take away. */
  lemma {:induction false} RunWeakness(w: World, x: Witness, ops: seq<Op>)
    requires Good(w, x) && w.pending == [] && LegalRun(w, ops)
    ensures Run(w, ops).Done?
    ensures WeakHandles(Run(w, ops).value) == WeakRun(WeakHandles(w), ops, GarbageOfRun(w, ops))
    decreases |ops|
  {
    hide Core, Stored, Filled, Step, Legal, WeakStep, WeakHandles, GarbageOf;
    if ops != [] {
      var y := StepKeeps(w, x, ops[0]);
      StepWeakness(w, x, ops[0]);
      var u := Step(w, ops[0]).value;
      RunWeakness(u, y, ops[1..]);
      assert GarbageOfRun(w, ops)[1..] == GarbageOfRun(u, ops[1..]);
    }
  }

  // ------------------------------------------------- what it means

  /** A collection empties exactly the weak handles whose cells it looks at and finds dead. */
  lemma CollectionEmptiesWeak(w: World, visit: seq<Address>, dead: set<Address>, l: Location)
    requires Reachable(w) && Legal(w, OpGc(visit, dead)) && l in w.vals
    ensures Gc(w, visit, dead).Done? && l in Abs(w).handles
    ensures Abs(Gc(w, visit, dead).value).handles.Keys == Abs(w).handles.Keys
    ensures Abs(Gc(w, visit, dead).value).handles[l] ==
            if l in WeakHandles(w) && w.vals[l] in visit && w.vals[l] in dead then None else Abs(w).handles[l]
  {
    hide Core, Stored, Filled, Reachable, Abs, Gc, GcSafe;
    var x := ReachableIsGood(w);
    StepRefines(w, x, OpGc(visit, dead));
    AbsDomains(w);
    NullIsNoNode(w, x);
    if w.vals[l] != NULL {
      HandleCell(w, x, l);
    }
  }

  /** The operation changes the handle `l` itself. */
  predicate Names(op: Op, l: Location) {
    match op
    case OpNewHandle(k) => k == l
    case OpNewFromLocal(k, _) => k == l
    case OpNewFromHandle(k, _) => k == l
    case OpMoveConstruct(k, rhs) => k == l || rhs == l
    case OpMoveAssign(k, rhs) => k == l || rhs == l
    case OpCopy(k, _) => k == l
    case OpReset(k) => k == l
    case OpResetToLocal(k, _) => k == l
    case OpSetWeak(k) => k == l
    case OpClearWeak(k) => k == l
    case OpDestroyHandle(k) => k == l
    case OpSet(_, _, k, out) => k == l || out == l
    case OpRemove(_, _, out) => out == l
    case OpDrainOne(_, out) => out == l
    case OpAppend(_, k) => k == l
    case _ => false
  }

  /** A strong handle that is left alone keeps its value over every run, whatever is collected. */
  lemma {:induction false} StrongHandleStays(w: World, x: Witness, ops: seq<Op>, l: Location)
    requires Good(w, x) && w.pending == [] && LegalRun(w, ops) && l in w.vals && l !in WeakHandles(w)
    requires forall op :: op in ops ==> !Names(op, l)
    ensures Run(w, ops).Done? && l in Abs(w).handles
    ensures var r := Run(w, ops).value;
            && l !in WeakHandles(r) && l in r.vals && l in Abs(r).handles && Abs(r).handles[l] == Abs(w).handles[l]
    decreases |ops|
  {
    hide Core, Stored, Filled, Step, Legal, WeakStep, PlainStep, WeakHandles, GarbageOf, Names, Abs;
    AbsDomains(w);
    if ops != [] {
      var y := StepKeeps(w, x, ops[0]);
      StrongHandleKept(w, x, ops[0], l);
      StrongHandleStays(Step(w, ops[0]).value, y, ops[1..], l);
    }
  }

  lemma StrongHandleKept(w: World, x: Witness, op: Op, l: Location)
    requires Good(w, x) && w.pending == [] && Legal(w, op) && l in w.vals && l !in WeakHandles(w) && !Names(op, l)
    ensures Step(w, op).Done? && l in Abs(w).handles
    ensures var r := Step(w, op).value;
            && l !in WeakHandles(r) && l in r.vals && l in Abs(r).handles && Abs(r).handles[l] == Abs(w).handles[l]
  {
    hide Core, Stored, Filled, Step, Legal, WeakHandles, GarbageIn, Abs;
    StepWeakness(w, x, op);
    StepRefines(w, x, op);
    AbsDomains(w);
    AbsDomains(Step(w, op).value);
    if op.OpGc? {
      NotGarbage(w, x, op.visit, op.dead, l);
    }
    PlainKeepsHandle(Abs(w), op, GarbageOf(w, op), l);
  }

  lemma NotGarbage(w: World, x: Witness, visit: seq<Address>, dead: set<Address>, l: Location)
    requires Good(w, x) && l in w.vals && l !in WeakHandles(w)
    ensures l !in GarbageIn(w, visit, dead).handles
  {
    hide Core, Stored, Filled;
    NullIsNoNode(w, x);
    if w.vals[l] != NULL {
      HandleCell(w, x, l);
    }
  }

  lemma PlainKeepsHandle(p: Plain, op: Op, g: Garbage, l: Location)
    requires l in p.handles && !Names(op, l) && l !in g.handles
    ensures l in PlainStep(p, op, g).handles && PlainStep(p, op, g).handles[l] == p.handles[l]
  {
    hide PlainGet, Find;
  }

  /** After `ClearWeak` no collection takes the value away again. */
  lemma ClearWeakProtects(w: World, l: Location, ops: seq<Op>)
    requires Reachable(w) && NonEmpty(w, l) && ClearWeak(w, l).Done? && LegalRun(ClearWeak(w, l).value, ops)
    requires forall op :: op in ops ==> !Names(op, l)
    ensures Run(ClearWeak(w, l).value, ops).Done? && l in Abs(w).handles
    ensures var r := Run(ClearWeak(w, l).value, ops).value;
            l in Abs(r).handles && Abs(r).handles[l] == Abs(w).handles[l] && l !in WeakHandles(r)
  {
    hide Core, Stored, Filled, Reachable, ClearWeak, WeakHandles, Abs, Names, LegalRun, Run;
    var x := ReachableIsGood(w);
    var op := OpClearWeak(l);
    var y := StepKeeps(w, x, op);
    StepRefines(w, x, op);
    StepWeakness(w, x, op);
    AbsDomains(w);
    AbsDomains(ClearWeak(w, l).value);
    StrongHandleStays(ClearWeak(w, l).value, y, ops, l);
  }

  /** After `SetWeak` the next collection that looks at the cell decides: the handle is emptied if the
      object is dead and keeps its value if it is not. */
  lemma SetWeakExposes(w: World, l: Location, visit: seq<Address>, dead: set<Address>)
    requires Reachable(w) && NonEmpty(w, l) && SetWeak(w, l).Done? && Legal(SetWeak(w, l).value, OpGc(visit, dead))
    ensures Gc(SetWeak(w, l).value, visit, dead).Done? && l in Abs(w).handles
    ensures var r := Gc(SetWeak(w, l).value, visit, dead).value;
            && l in Abs(r).handles
            && Abs(r).handles[l] == if w.vals[l] in visit && w.vals[l] in dead then None else Abs(w).handles[l]
  {
    hide Core, Stored, Filled, Reachable, SetWeak, WeakHandles, Abs, Gc, GcSafe;
    var x := ReachableIsGood(w);
    var op := OpSetWeak(l);
    StepRefines(w, x, op);
    StepWeakness(w, x, op);
    ReachableStep(w, op);
    AbsDomains(w);
    AbsDomains(SetWeak(w, l).value);
    SetWeakVals(w, l);
    CollectionEmptiesWeak(SetWeak(w, l).value, visit, dead, l);
  }

  lemma SetWeakVals(w: World, l: Location)
    ensures SetWeak(w, l).Done? ==> SetWeak(w, l).value.vals == w.vals
  {
  }

  /** The target of a move is weak exactly if the source was; the source is not weak any more, and other
      handles stay as they are. */
  lemma MovesKeepWeakness(w: World, l: Location, rhs: Location)
    requires Reachable(w) && rhs in w.vals && l != rhs
    ensures var r := if l in w.vals then MoveAssign(w, l, rhs) else MoveConstruct(w, l, rhs);
            && r.Done? && (l in WeakHandles(r.value) <==> rhs in WeakHandles(w)) && rhs !in WeakHandles(r.value)
            && forall k :: k != l && k != rhs ==> (k in WeakHandles(r.value) <==> k in WeakHandles(w))
  {
    hide Core, Stored, Filled, Reachable, WeakHandles, MoveAssign, MoveConstruct;
    var x := ReachableIsGood(w);
    StepWeakness(w, x, if l in w.vals then OpMoveAssign(l, rhs) else OpMoveConstruct(l, rhs));
  }

  /** Handles that are filled anew, and those that receive what a container gives back, are strong. */
  lemma ResultsAreStrong(w: World, op: Op)
    requires Reachable(w) && Legal(w, op)
    ensures Step(w, op).Done?
    ensures var weak := WeakHandles(Step(w, op).value);
            match op
            case OpNewFromLocal(l, _) => l !in weak
            case OpNewFromHandle(l, _) => l !in weak
            case OpCopy(l, _) => l !in weak
            case OpResetToLocal(l, _) => l !in weak
            case OpSet(_, _, _, out) => out !in weak
            case OpRemove(_, _, out) => out !in weak
            case OpDrainOne(_, out) => out !in weak
            case _ => true
  {
    hide Core, Stored, Filled, Reachable, Step;
    var x := ReachableIsGood(w);
    StepWeakness(w, x, op);
  }
}
