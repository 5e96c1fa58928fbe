/** What an embedder observes of a map, and how long its references stay good. */
module Observers {
  import opened Cells
  import opened Handles
  import opened Containers
  import opened Collector
  import opened Ownership
  import opened Safety
  import opened Collection
  import opened Runs
  import opened Promises
  import opened PlainValues
  import opened Refinement
  import opened Weakness

  /** `GetReference(key)`: the address stored under the key. */
  function GetReference(w: World, m: MapId, k: Key): Address
    requires m in w.impls
  {
    Lookup(w.impls[m], k)
  }

  /** `Contains` holds exactly for the keys of the plain map, `Size` counts them, and `Get` and
      references read the plain value, which is never empty. */
  lemma MapObservations(w: World, m: MapId, k: Key)
    requires Reachable(w) && m in w.impls
    ensures m in Abs(w).maps && |w.impls[m]| == |Abs(w).maps[m]|
    ensures GetReference(w, m, k) != NULL <==> k in Abs(w).maps[m]
    ensures k in Abs(w).maps[m] ==>
              Abs(w).maps[m][k].Some? && Read(w, GetReference(w, m, k)) == Abs(w).maps[m][k]
  {
    hide Core, Stored, Filled, Reachable, ValueAt;
    var x := ReachableIsGood(w);
    assert MapValues(w, m).Keys == w.impls[m].Keys;
    if k in w.impls[m] {
      FilledEntry(w, x, m, k);
      StoredEntry(w, x, m, k);
    }
  }

  lemma StoredEntry(w: World, x: Witness, m: MapId, k: Key)
    requires Good(w, x) && w.pending == [] && m in w.impls && k in w.impls[m]
    ensures ValueAt(w, InMap(m, k)).Some? && Read(w, w.impls[m][k]) == ValueAt(w, InMap(m, k))
  {
    hide Core, Stored, Filled;
    FilledEntry(w, x, m, k);
    StoredCell(w, x, InMap(m, k));
    EntryData(w, x, w.impls[m][k], m, k);
    NoneNearDeath(w, x, w.impls[m][k]);
  }

  /** The operations after which a reference to `k` must not be used any more. */
  ghost predicate Touches(w: World, op: Op, m: MapId, k: Key) {
    match op
    case OpSet(m', k', _, _) => m' == m && k' == k
    case OpRemove(m', k', _) => m' == m && k' == k
    case OpBeginRound(m') => m' == m
    case OpDestroyMap(m') => m' == m
    case OpGc(visit, dead) => m in w.impls && k in w.impls[m] && Doomed(w, visit, dead, w.impls[m][k])
    case _ => false
  }

  ghost predicate Undisturbed(w: World, ops: seq<Op>, m: MapId, k: Key)
    decreases |ops|
  {
    ops != [] ==>
      !Touches(w, ops[0], m, k) && (Step(w, ops[0]).Done? ==> Undisturbed(Step(w, ops[0]).value, ops[1..], m, k))
  }

  lemma CellStepImpls(w: World, a: Address, l: Location, c: Contents)
    ensures Create(w, c).Done? ==> Create(w, c).value.0.impls == w.impls
    ensures Destroy(w, a).Done? ==> Destroy(w, a).value.impls == w.impls
    ensures MoveGlobal(w, a, l).Done? ==> MoveGlobal(w, a, l).value.impls == w.impls
  {
    hide NewBlock, InUse, IsPhantom;
  }

  /** The building blocks of handle operations leave the backing stores alone. */
  lemma HandlePartsImpls(w: World, l: Location, that: Location, c: Contents)
    ensures Reset(w, l).Done? ==> Reset(w, l).value.impls == w.impls
    ensures Fill(w, l, c).Done? ==> Fill(w, l, c).value.impls == w.impls
    ensures FillFrom(w, l, that).Done? ==> FillFrom(w, l, that).value.impls == w.impls
    ensures MoveInto(w, l, that).Done? ==> MoveInto(w, l, that).value.impls == w.impls
  {
    hide Create, Destroy, MoveGlobal;
    var kept := if that in w.vals && w.vals[that] in w.nodes then w.nodes[w.vals[that]].contents else c;
    var a: Address := if l in w.vals then w.vals[l] else NULL;
    var b: Address := if that in w.vals then w.vals[that] else NULL;
    CellStepImpls(w, a, l, c);
    CellStepImpls(w, a, l, kept);
    CellStepImpls(w.(vals := w.vals[l := b]), b, l, c);
  }

  lemma HandleStepImpls(w: World, op: Op)
    requires (IsConstruction(op) || IsUpdate(op)) && Step(w, op).Done?
    ensures Step(w, op).value.impls == w.impls
  {
    hide Reset, Fill, FillFrom, MoveInto;
    var l := op.l;
    var that := if op.OpMoveConstruct? || op.OpMoveAssign? then op.rhs
                else if op.OpCopy? || op.OpNewFromHandle? then op.that else l;
    var c := if (op.OpNewFromLocal? || op.OpResetToLocal?) && op.local.Some? then Holds(op.local.value) else Zapped;
    HandlePartsImpls(w, l, that, c);
    HandlePartsImpls(w.(vals := w.vals[l := NULL]), l, that, c);
    if Reset(w, l).Done? {
      HandlePartsImpls(Reset(w, l).value, l, that, c);
    }
  }

  lemma StepKeepsEntry(w: World, x: Witness, op: Op, m: MapId, k: Key)
    requires Good(w, x) && w.pending == [] && Legal(w, op) && !Touches(w, op, m, k) && m in w.impls
    ensures Step(w, op).Done?
    ensures var r := Step(w, op).value;
            m in r.impls && (k in r.impls[m] <==> k in w.impls[m]) && GetReference(r, m, k) == GetReference(w, m, k)
  {
    hide Core, Stored, Filled, Legal, Step;
    var _ := StepKeeps(w, x, op);
    if IsConstruction(op) || IsUpdate(op) {
      HandleStepImpls(w, op);
    } else {
      ContainerStepEntry(w, x, op, m, k);
    }
  }

  lemma ContainerStepEntry(w: World, x: Witness, op: Op, m: MapId, k: Key)
    requires Good(w, x) && w.pending == [] && Legal(w, op) && !Touches(w, op, m, k)
    requires m in w.impls && Step(w, op).Done? && !IsConstruction(op) && !IsUpdate(op)
    ensures var r := Step(w, op).value;
            m in r.impls && (k in r.impls[m] <==> k in w.impls[m]) && GetReference(r, m, k) == GetReference(w, m, k)
  {
    hide Core, Stored, Filled, GcSafe, Release, Arm, DestroyAll, Gc, MapSet, MapRemove, DrainOne;
    match op
    case OpGc(visit, dead) => GcCollects(w, x, visit, dead);
    case OpSet(m', k', l, out) => SetImpls(w, m', k', l, out);
    case OpRemove(m', k', out) => RemoveImpls(w, m', k', out);
    case OpDrainOne(k', out) => DrainImpls(w, k', out);
    case OpVectorClear(v) => DestroyAllImpls(w, w.vectors[v]);
    case OpDestroyVector(v) => DestroyAllImpls(w, w.vectors[v]);
    case _ =>
  }

  lemma {:induction false} DestroyAllImpls(w: World, cells: seq<Address>)
    ensures DestroyAll(w, cells).Done? ==> DestroyAll(w, cells).value.impls == w.impls
    decreases |cells|
  {
    if cells != [] && Destroy(w, cells[0]).Done? {
      DestroyAllImpls(Destroy(w, cells[0]).value, cells[1..]);
    }
  }

  lemma SetImpls(w: World, m: MapId, k: Key, l: Location, out: Location)
    requires MapSet(w, m, k, l, out).Done?
    ensures MapSet(w, m, k, l, out).value.impls == w.impls[m := MapSet(w, m, k, l, out).value.impls[m]]
    ensures MapSet(w, m, k, l, out).value.impls[m] == w.impls[m][k := w.vals[l]]
  {
  }

  lemma RemoveImpls(w: World, m: MapId, k: Key, out: Location)
    requires MapRemove(w, m, k, out).Done?
    ensures MapRemove(w, m, k, out).value.impls == w.impls[m := w.impls[m] - {k}]
  {
  }

  lemma DrainImpls(w: World, k: Key, out: Location)
    requires DrainOne(w, k, out).Done?
    ensures DrainOne(w, k, out).value.impls == w.impls
  {
  }

  /** A saved reference stays equal to `GetReference(key)`, and keeps reading the same object,
      over any run that does not touch its key. A reference to a missing key stays empty. */
  lemma {:induction false} ReferenceStaysValid(w: World, x: Witness, ops: seq<Op>, m: MapId, k: Key)
    requires Good(w, x) && w.pending == [] && LegalRun(w, ops) && Undisturbed(w, ops, m, k) && m in w.impls
    ensures Run(w, ops).Done? && m in Run(w, ops).value.impls
    ensures var r, reference := Run(w, ops).value, GetReference(w, m, k);
            && GetReference(r, m, k) == reference && (reference != NULL <==> k in w.impls[m])
            && (k in w.impls[m] ==> Read(r, reference) == Read(w, reference))
    decreases |ops|
  {
    hide Core, Stored, Filled, Step, Legal, Touches, Read;
    if k in w.impls[m] {
      FilledEntry(w, x, m, k);
    }
    if ops != [] {
      var y := StepKeeps(w, x, ops[0]);
      var u := Step(w, ops[0]).value;
      StepKeepsEntry(w, x, ops[0], m, k);
      if k in w.impls[m] {
        EntryReads(w, x, ops[0], m, k);
      }
      ReferenceStaysValid(u, y, ops[1..], m, k);
    }
  }

  /** `Set(key, value, &reference)`: the reference is taken from the value before it is set, and is
      the one that `GetReference(key)` gives afterwards. It reads what the value held. */
  lemma SetWithReference(w: World, m: MapId, k: Key, l: Location, out: Location)
    requires Reachable(w) && Legal(w, OpSet(m, k, l, out))
    ensures var reference, r := w.vals[l], MapSet(w, m, k, l, out);
            && r.Done? && m in r.value.impls && GetReference(r.value, m, k) == reference != NULL
            && l in Abs(w).handles && Read(r.value, reference) == Abs(w).handles[l]
  {
    hide Core, Stored, Filled, Reachable, Abs, MapSet, Read;
    var x := ReachableIsGood(w);
    ReachableStep(w, OpSet(m, k, l, out));
    SetImpls(w, m, k, l, out);
    StepRefines(w, x, OpSet(m, k, l, out));
    AbsDomains(w);
    MapObservations(MapSet(w, m, k, l, out).value, m, k);
  }

  lemma EntryReads(w: World, x: Witness, op: Op, m: MapId, k: Key)
    requires Good(w, x) && w.pending == [] && Legal(w, op) && !Touches(w, op, m, k)
    requires m in w.impls && k in w.impls[m]
    ensures Step(w, op).Done? && Read(Step(w, op).value, w.impls[m][k]) == Read(w, w.impls[m][k])
  {
    hide Core, Stored, Filled, Legal, Step, GcSafe, Abs, ValueAt, PlainStep;
    StepRefines(w, x, op);
    StepKeepsEntry(w, x, op, m, k);
    var u := Step(w, op).value;
    var y := StepKeeps(w, x, op);
    StoredEntry(w, x, m, k);
    StoredEntry(u, y, m, k);
    AbsEntry(w, m, k);
    AbsEntry(u, m, k);
    PlainKeepsEntry(Abs(w), op, GarbageOf(w, op), m, k);
  }

  lemma AbsEntry(w: World, m: MapId, k: Key)
    requires m in w.impls && k in w.impls[m]
    ensures m in Abs(w).maps && k in Abs(w).maps[m] && Abs(w).maps[m][k] == ValueAt(w, InMap(m, k))
  {
    hide ValueAt;
  }

  lemma PlainKeepsEntry(p: Plain, op: Op, g: Garbage, m: MapId, k: Key)
    requires m in p.maps && k in p.maps[m]
    requires m in PlainStep(p, op, g).maps && k in PlainStep(p, op, g).maps[m]
    requires !(op.OpSet? && op.m == m && op.k == k)
    ensures PlainStep(p, op, g).maps[m][k] == p.maps[m][k]
  {
    hide PlainGet, Find;
  }

  /** `Copy` gives the target what the source held, and leaves the source alone, exactly when
      they are two handles or there is nothing to copy: copying a handle to itself empties it. */
  lemma CopyExactly(w: World, l: Location, that: Location)
    requires Reachable(w) && l in w.vals && that in w.vals
    ensures Copy(w, l, that).Done? && l in Abs(Copy(w, l, that).value).handles && that in Abs(w).handles
    ensures var h, h' := Abs(w).handles, Abs(Copy(w, l, that).value).handles;
            && h' == h[l := if l == that then None else h[that]]
            && (h'[l] == h[that] <==> l != that || h[l].None?)
  {
    hide Core, Stored, Filled, Reachable, Abs, Copy;
    var x := ReachableIsGood(w);
    StepRefines(w, x, OpCopy(l, that));
    AbsDomains(w);
  }

  /** Move assignment passes the value and its weakness on and empties the source; assigning a handle to itself
      changes nothing. */
  lemma MoveAssignExactly(w: World, l: Location, rhs: Location)
    requires Reachable(w) && l in w.vals && rhs in w.vals
    ensures MoveAssign(w, l, rhs).Done? && rhs in Abs(w).handles
    ensures var h, h' := Abs(w).handles, Abs(MoveAssign(w, l, rhs).value).handles;
            h' == if l == rhs then h else h[l := h[rhs]][rhs := None]
    ensures var weak, weak' := WeakHandles(w), WeakHandles(MoveAssign(w, l, rhs).value);
            if l == rhs then weak' == weak else rhs !in weak' && (l in weak' <==> rhs in weak)
  {
    hide Core, Stored, Filled, Reachable, Abs, MoveAssign, WeakHandles;
    var x := ReachableIsGood(w);
    StepRefines(w, x, OpMoveAssign(l, rhs));
    StepWeakness(w, x, OpMoveAssign(l, rhs));
    AbsDomains(w);
  }
}
