/** The cell protocol refines plain values, step by step and over whole runs. */
module Refinement {
  import opened Cells
  import opened Handles
  import opened Containers
  import opened Collector
  import opened Ownership
  import opened Safety
  import opened Collection
  import opened Runs
  import opened PlainValues

  // ------------------------------------------------- values after each primitive step

  /** No place other than `p` keeps the address kept at `p`. */
  lemma OnlyAt(w: World, x: Witness, p: Place)
    requires Good(w, x) && CellAt(w, p) != NULL
    ensures forall q: Place :: CellAt(w, q) == CellAt(w, p) ==> q == p
  {
    hide Core, Stored, Filled, CellAt;
    forall q: Place | CellAt(w, q) == CellAt(w, p) ensures q == p {
      StoredCell(w, x, p);
      StoredCell(w, x, q);
    }
  }

  /** Cells at places are in use; in particular they are nodes. */
  lemma PlacesAreCells(w: World, x: Witness)
    requires Good(w, x)
    ensures NULL !in w.nodes
    ensures forall q: Place :: CellAt(w, q) == NULL || InUse(w, CellAt(w, q))
  {
    hide Core, Stored, Filled, CellAt;
    NullIsNoNode(w, x);
    forall q: Place | CellAt(w, q) != NULL ensures InUse(w, CellAt(w, q)) {
      StoredCell(w, x, q);
    }
  }

  /** All cells keep their contents. */
  ghost predicate ContentsKept(w: World, r: World) {
    r.nodes.Keys == w.nodes.Keys && forall a :: a in w.nodes ==> r.nodes[a].contents == w.nodes[a].contents
  }

  lemma ValuesFollow(w: World, x: Witness, r: World, from: Place, to: Place)
    requires Good(w, x) && Relocated(w, r, from, to) && ContentsKept(w, r)
    ensures ValueMoved(w, r, from, to)
  {
    hide Core, Stored, Filled, CellAt;
    NullIsNoNode(w, x);
  }

  lemma ValuesStay(w: World, x: Witness, r: World)
    requires Good(w, x) && ContentsKept(w, r)
    requires forall p: Place :: CellAt(r, p) == CellAt(w, p)
    ensures SameValues(w, r)
  {
    hide Core, Stored, Filled, CellAt;
  }

  /** Place `q` was emptied and only the cell it kept may have changed. */
  lemma ValuesWithout(w: World, x: Witness, r: World, q: Place)
    requires Good(w, x) && Rewritten(w, r, q, NULL) && NULL !in r.nodes
    requires forall a :: a in w.nodes && a != CellAt(w, q) ==>
               a in r.nodes && r.nodes[a].contents == w.nodes[a].contents
    ensures ValueSet(w, r, q, None)
  {
    hide Core, Stored, Filled, CellAt;
    PlacesAreCells(w, x);
    if CellAt(w, q) != NULL {
      OnlyAt(w, x, q);
    }
  }

  /** Place `q` was filled with a new cell. */
  lemma ValuesWith(w: World, x: Witness, r: World, q: Place, b: Address, o: Object)
    requires Good(w, x) && Rewritten(w, r, q, b) && NULL !in r.nodes && !InUse(w, b)
    requires b in r.nodes && r.nodes[b].contents == Holds(o)
    requires forall a :: a in w.nodes && a != b ==> a in r.nodes && r.nodes[a].contents == w.nodes[a].contents
    ensures ValueSet(w, r, q, Some(o))
  {
    hide Core, Stored, Filled, CellAt;
    PlacesAreCells(w, x);
  }

  lemma ResetValues(w: World, x: Witness, l: Location)
    requires Good(w, x) && l in w.vals
    ensures Reset(w, l).Done? && Abs(Reset(w, l).value) == Abs(w).(handles := Abs(w).handles[l := None])
  {
    hide Core, Stored, Filled, ValueSet, Abs;
    var y := ResetKeeps(w, x, l);
    var r := Reset(w, l).value;
    NullIsNoNode(r, y);
    ValuesWithout(w, x, r, InHandle(l));
    AbsHandleSet(w, r, l, None);
  }

  lemma FillValues(w: World, x: Witness, l: Location, o: Object)
    requires Good(w, x) && l in w.vals && w.vals[l] == NULL
    ensures Fill(w, l, Holds(o)).Done?
    ensures Abs(Fill(w, l, Holds(o)).value) == Abs(w).(handles := Abs(w).handles[l := Some(o)])
  {
    hide Core, Stored, Filled, ValueSet, Abs, Grown;
    var y := FillKeeps(w, x, l, o);
    var r := Fill(w, l, Holds(o)).value;
    NullIsNoNode(r, y);
    var (u, b) := Create(w, Holds(o)).value;
    CreatePlaces(w, Holds(o));
    CreateNodes(w, x, Holds(o));
    ValuesWith(w, x, r, InHandle(l), b, o);
    AbsHandleSet(w, r, l, Some(o));
  }

  lemma CreateNodes(w: World, x: Witness, c: Contents)
    requires Core(w, x) && Create(w, c).Done?
    ensures var (r, b) := Create(w, c).value;
            && !InUse(w, b) && b in r.nodes && r.nodes[b].contents == c
            && forall a :: a in w.nodes && a != b ==> a in r.nodes && r.nodes[a] == w.nodes[a]
  {
    hide Owned, Disciplined, DataTracked, PendingListed, Accounted;
  }

  lemma FillFromValues(w: World, x: Witness, l: Location, that: Location)
    requires Good(w, x) && l in w.vals && w.vals[l] == NULL && that in w.vals
    ensures FillFrom(w, l, that).Done?
    ensures Abs(FillFrom(w, l, that).value) == Abs(w).(handles := Abs(w).handles[l := Abs(w).handles[that]])
  {
    hide Core, Stored, Filled, Fill;
    if w.vals[that] == NULL {
      NullIsNoNode(w, x);
      assert HandleValues(w)[l := HandleValues(w)[that]] == HandleValues(w);
    } else {
      HandleCell(w, x, that);
      FillValues(w, x, l, w.nodes[w.vals[that]].contents.it);
    }
  }

  lemma MoveIntoValues(w: World, x: Witness, l: Location, rhs: Location)
    requires Good(w, x) && l in w.vals && rhs in w.vals && l != rhs && w.vals[l] == NULL
    ensures MoveInto(w, l, rhs).Done?
    ensures Abs(MoveInto(w, l, rhs).value) ==
            Abs(w).(handles := Abs(w).handles[l := PlainGet(Abs(w), rhs)][rhs := None])
  {
    hide Core, Stored, Filled, ValueMoved;
    var _ := MoveIntoKeeps(w, x, l, rhs);
    var r := MoveInto(w, l, rhs).value;
    if w.vals[rhs] == NULL {
      NullIsNoNode(w, x);
      assert HandleValues(w)[l := HandleValues(w)[rhs]][rhs := None] == HandleValues(w);
    } else {
      HandleCell(w, x, rhs);
      assert Relocated(w, r, InHandle(rhs), InHandle(l));
      ValuesFollow(w, x, r, InHandle(rhs), InHandle(l));
      AbsHandleMove(w, r, l, rhs);
    }
  }

  lemma TweakValues(w: World, x: Witness, l: Location, n: Node)
    requires Good(w, x) && l in w.vals && w.vals[l] in w.nodes && n.contents == w.nodes[w.vals[l]].contents
    ensures Abs(WithCell(w, w.vals[l], n)) == Abs(w)
  {
    hide Core, Stored, Filled;
    var r := WithCell(w, w.vals[l], n);
    ValuesStay(w, x, r);
    AbsHandleSet(w, r, l, ValueAt(w, InHandle(l)));
    assert HandleValues(w)[l := ValueAt(w, InHandle(l))] == HandleValues(w);
  }

  // ------------------------------------------------- containers

  lemma ReleaseContents(w: World, kind: CallbackKind, a: Address)
    requires Release(w, kind, a).Done?
    ensures ContentsKept(w, Release(w, kind, a).value)
  {
  }

  lemma ArmContents(w: World, m: MapId, k: Key, a: Address)
    requires m in w.traits && Arm(w, m, k, a).Done?
    ensures ContentsKept(w, Arm(w, m, k, a).value)
  {
  }

  lemma RemoveValues(w: World, x: Witness, m: MapId, k: Key, out: Location)
    requires Good(w, x) && w.pending == [] && IsMap(w, m) && out !in w.vals
    ensures MapRemove(w, m, k, out).Done? && Abs(MapRemove(w, m, k, out).value) == PlainTake(Abs(w), m, k, out)
  {
    hide Core, Stored, Filled, Release, ContentsKept, ValueMoved, Abs;
    var _ := MapRemoveKeeps(w, x, m, k, out);
    var kind, a, v := w.traits[m].callbackKind, Lookup(w.impls[m], k), WithImpl(w, m, w.impls[m] - {k});
    var r := MapRemove(w, m, k, out).value;
    ReleasePlaces(v, v, kind, a);
    ReleaseContents(v, kind, a);
    CarryContents(w, v, Release(v, kind, a).value, r);
    assert Relocated(w, r, InMap(m, k), InHandle(out));
    ValuesFollow(w, x, r, InMap(m, k), InHandle(out));
    if k !in w.impls[m] {
      NullIsNoNode(w, x);
      assert ValueAt(w, InMap(m, k)) == None;
    }
    AbsTake(w, r, m, k, out);
  }

  lemma CarryContents(w: World, v: World, u: World, r: World)
    requires w.nodes == v.nodes && ContentsKept(v, u) && u.nodes == r.nodes
    ensures ContentsKept(w, r)
  {
  }

  lemma InsertValues(w: World, x: Witness, m: MapId, k: Key, l: Location)
    requires Good(w, x) && IsMap(w, m) && l in w.vals && k !in w.impls[m] && Insert(w, m, k, l).Done?
    ensures Abs(Insert(w, m, k, l).value) == PlainPut(Abs(w), m, k, l)
  {
    hide Core, Stored, Filled, Arm, ContentsKept, ValueMoved, Abs;
    var r, a := Insert(w, m, k, l).value, w.vals[l];
    ArmPlaces(w, w, m, k, a);
    ArmContents(w, m, k, a);
    CarryContents(w, w, Arm(w, m, k, a).value, r);
    assert Relocated(w, r, InHandle(l), InMap(m, k));
    ValuesFollow(w, x, r, InHandle(l), InMap(m, k));
    AbsPut(w, r, m, k, l, a);
  }

  lemma SetValues(w: World, x: Witness, m: MapId, k: Key, l: Location, out: Location)
    requires Good(w, x) && w.pending == [] && Legal(w, OpSet(m, k, l, out))
    ensures MapSet(w, m, k, l, out).Done?
    ensures Abs(MapSet(w, m, k, l, out).value) == PlainPut(PlainTake(Abs(w), m, k, out), m, k, l)
  {
    hide Core, Stored, Filled, MapSet, Insert, Abs;
    HandleCell(w, x, l);
    var y := MapRemoveKeeps(w, x, m, k, out);
    var _ := MapSetKeeps(w, x, m, k, l, out);
    SetIsRemoveThenInsert(w, x, m, k, l, out);
    RemoveValues(w, x, m, k, out);
    InsertValues(MapRemove(w, m, k, out).value, y, m, k, l);
  }

  lemma DrainValues(w: World, x: Witness, k: Key, out: Location)
    requires Good(w, x) && w.pending == [] && Legal(w, OpDrainOne(k, out))
    ensures DrainOne(w, k, out).Done? && Abs(DrainOne(w, k, out).value) == PlainDrain(Abs(w), k, out)
  {
    hide Core, Stored, Filled, Release, ContentsKept, ValueMoved, Abs;
    var _ := DrainOneKeeps(w, x, k, out);
    var top := |w.frames| - 1;
    var f := w.frames[top];
    var kind, a := w.traits[f.mapId].callbackKind, f.rest[k];
    var v := w.(frames := w.frames[top := f.(rest := f.rest - {k})]);
    var r := DrainOne(w, k, out).value;
    ReleasePlaces(v, v, kind, a);
    ReleaseContents(v, kind, a);
    CarryContents(w, v, Release(v, kind, a).value, r);
    assert Relocated(w, r, InFrame(top, f.mapId, k), InHandle(out));
    ValuesFollow(w, x, r, InFrame(top, f.mapId, k), InHandle(out));
    AbsDrain(w, r, k, out);
  }

  lemma AppendValues(w: World, x: Witness, v: VectorId, l: Location)
    requires Good(w, x) && v in w.vectors && l in w.vals
    ensures Append(w, v, l).Done? && Abs(Append(w, v, l).value) == PlainAppend(Abs(w), v, l)
  {
    hide Core, Stored, Filled, ValueMoved, Abs;
    var r, q := Append(w, v, l).value, InVector(v, |w.vectors[v]|);
    assert Relocated(w, r, InHandle(l), q);
    ValuesFollow(w, x, r, InHandle(l), q);
    AbsAppend(w, r, v, l, w.vals[l]);
  }

  lemma {:induction false} DestroyAllNodes(w: World, cells: seq<Address>)
    requires DestroyAll(w, cells).Done?
    ensures var r := DestroyAll(w, cells).value;
            && r.vals == w.vals && r.impls == w.impls && r.frames == w.frames && r.vectors == w.vectors
            && r.nodes.Keys == w.nodes.Keys
            && forall a :: a in w.nodes && a !in cells ==> r.nodes[a] == w.nodes[a]
    decreases |cells|
  {
    if cells != [] {
      DestroyAllNodes(Destroy(w, cells[0]).value, cells[1..]);
    }
  }

  lemma VectorClearValues(w: World, x: Witness, v: VectorId)
    requires Good(w, x) && v in w.vectors
    ensures VectorClear(w, v).Done? && Abs(VectorClear(w, v).value) == Abs(w).(vectors := Abs(w).vectors[v := []])
  {
    hide Core, Stored, Filled, DestroyAll, ValueAt;
    var _ := VectorClearKeeps(w, x, v);
    DestroyAllNodes(w, w.vectors[v]);
    var r := VectorClear(w, v).value;
    var s := set i: nat | i < |w.vectors[v]| :: InVector(v, i);
    VectorClearApart(w, x, r, v, s);
    MapsSame(w, r, s);
    RoundsSame(w, r, s);
    VectorsSameBut(w, r, s, v);
    assert VectorValues(r, v) == [];
    assert HandleValues(r) == HandleValues(w);
  }

  lemma VectorClearApart(w: World, x: Witness, r: World, v: VectorId, s: set<Place>)
    requires Good(w, x) && v in w.vectors && s == set i: nat | i < |w.vectors[v]| :: InVector(v, i)
    requires r.vals == w.vals && r.impls == w.impls && r.frames == w.frames && r.vectors == w.vectors[v := []]
    requires r.nodes.Keys == w.nodes.Keys
    requires forall a :: a in w.nodes && a !in w.vectors[v] ==> r.nodes[a] == w.nodes[a]
    ensures ValuesApart(w, r, s)
  {
    hide Core, Stored, Filled;
    NullIsNoNode(w, x);
    forall p: Place | p !in s ensures ValueAt(r, p) == ValueAt(w, p) {
      var a := CellAt(w, p);
      if p.InVector? && p.vector == v {
        assert p.index >= |w.vectors[v]|;
      } else if a != NULL && a in w.vectors[v] {
        var i: nat :| i < |w.vectors[v]| && w.vectors[v][i] == a;
        StoredCell(w, x, p);
        StoredCell(w, x, InVector(v, i));
      }
    }
  }

  // ------------------------------------------------- shapes only

  lemma NewHandleValues(w: World, x: Witness, l: Location)
    requires Good(w, x) && l !in w.vals
    ensures NewHandle(w, l).Done? && Abs(NewHandle(w, l).value) == Abs(w).(handles := Abs(w).handles[l := None])
  {
    hide Core, Stored, Filled, ValueSet, Abs;
    var r := NewHandle(w, l).value;
    NullIsNoNode(w, x);
    assert Rewritten(w, r, InHandle(l), NULL);
    ValuesWithout(w, x, r, InHandle(l));
    AbsHandleSet(w, r, l, None);
  }

  lemma ForgetValues(w: World, l: Location)
    ensures Abs(w.(vals := w.vals - {l})) == Abs(w).(handles := Abs(w).handles - {l})
  {
    var r := w.(vals := w.vals - {l});
    assert HandleValues(r) == HandleValues(w) - {l};
    assert ValuesApart(w, r, {InHandle(l)});
    hide ValueAt, ValuesApart, MapValues, RoundValues, VectorValues, HandleValues;
    AbsOutsideHandles(w, r, {InHandle(l)});
  }

  lemma EmptyMapValues(w: World, m: MapId)
    requires m in w.impls && w.impls[m] == map[]
    ensures MapValues(w, m) == map[]
  {
    hide ValueAt;
  }

  lemma NewMapValues(w: World, m: MapId, t: Traits)
    requires m !in w.traits && m !in w.impls
    ensures Abs(NewMap(w, m, t).value) == Abs(w).(maps := Abs(w).maps[m := map[]])
  {
    hide ValueAt, ValuesApart, MapValues, RoundValues, VectorValues, HandleValues;
    var r := NewMap(w, m, t).value;
    NothingMoved(w, r);
    HandlesSame(w, r, {});
    RoundsSame(w, r, {});
    VectorsSame(w, r, {});
    EmptyMapValues(r, m);
    forall n | n in w.impls ensures MapValues(r, n) == MapValues(w, n) {
      MapSame(w, r, {}, n);
    }
    assert Abs(r).maps == Abs(w).maps[m := map[]];
  }

  lemma DestroyMapValues(w: World, m: MapId)
    requires IsMap(w, m) && w.impls[m] == map[]
    ensures Abs(DestroyMap(w, m).value) == Abs(w).(maps := Abs(w).maps - {m})
  {
    hide ValueAt, ValuesApart, MapValues, RoundValues, VectorValues, HandleValues;
    var r := DestroyMap(w, m).value;
    NothingMoved(w, r);
    HandlesSame(w, r, {});
    RoundsSame(w, r, {});
    VectorsSame(w, r, {});
    forall n | n in r.impls ensures MapValues(r, n) == MapValues(w, n) {
      MapSame(w, r, {}, n);
    }
    assert Abs(r).maps == Abs(w).maps - {m};
  }

  lemma EndRoundValues(w: World)
    requires w.frames != [] && w.frames[|w.frames| - 1].rest == map[]
    ensures Abs(EndRound(w).value) == Abs(w).(rounds := Abs(w).rounds[..|Abs(w).rounds| - 1])
  {
    hide ValueAt, ValuesApart, MapValues, RoundValues, VectorValues, HandleValues;
    var r := EndRound(w).value;
    NothingMoved(w, r);
    HandlesSame(w, r, {});
    MapsSame(w, r, {});
    VectorsSame(w, r, {});
    forall i: nat | i < |r.frames| ensures RoundValues(r, i) == RoundValues(w, i) {
      RoundSame(w, r, {}, i);
    }
    assert Abs(r).rounds == Abs(w).rounds[..|Abs(w).rounds| - 1];
  }

  lemma NewVectorValues(w: World, v: VectorId)
    requires v !in w.vectors
    ensures Abs(NewVector(w, v).value) == Abs(w).(vectors := Abs(w).vectors[v := []])
  {
    hide ValueAt, ValuesApart, MapValues, RoundValues, HandleValues;
    var r := NewVector(w, v).value;
    NothingMoved(w, r);
    HandlesSame(w, r, {});
    MapsSame(w, r, {});
    RoundsSame(w, r, {});
    assert VectorValues(r, v) == [];
    forall u | u in w.vectors ensures VectorValues(r, u) == VectorValues(w, u) {
      VectorSame(w, r, {}, u);
    }
    assert Abs(r).vectors == Abs(w).vectors[v := []];
  }

  lemma ForgetVectorValues(w: World, v: VectorId)
    requires v in w.vectors && w.vectors[v] == []
    ensures Abs(w.(vectors := w.vectors - {v})) == Abs(w).(vectors := Abs(w).vectors - {v})
  {
    hide ValueAt, ValuesApart, MapValues, RoundValues, VectorValues, HandleValues;
    var r := w.(vectors := w.vectors - {v});
    NothingMoved(w, r);
    HandlesSame(w, r, {});
    MapsSame(w, r, {});
    RoundsSame(w, r, {});
    forall u | u in r.vectors ensures VectorValues(r, u) == VectorValues(w, u) {
      VectorSame(w, r, {}, u);
    }
    assert Abs(r).vectors == Abs(w).vectors - {v};
  }

  // ------------------------------------------------- collections

  /** What a collection takes away: handles whose phantom cell is doomed, and entries whose
      cell is doomed. */
  function GarbageIn(w: World, visit: seq<Address>, dead: set<Address>): Garbage {
    Garbage(set l | l in w.vals && Doomed(w, visit, dead, w.vals[l]),
            set m, k | m in w.impls && k in w.impls[m] && Doomed(w, visit, dead, w.impls[m][k]) :: (m, k))
  }

  function GarbageOf(w: World, op: Op): Garbage {
    if op.OpGc? then GarbageIn(w, op.visit, op.dead) else Garbage({}, {})
  }

  /** A cell that is not doomed keeps its value. */
  lemma GcApart(w: World, x: Witness, r: World, visit: seq<Address>, dead: set<Address>, p: Place)
    requires Good(w, x) && Collected(w, r, visit, dead) && !Doomed(w, visit, dead, CellAt(w, p))
    requires CellAt(r, p) == CellAt(w, p)
    ensures ValueAt(r, p) == ValueAt(w, p)
  {
    hide Core, Stored, Filled, CellAt, Doomed;
  }

  lemma GcHandles(w: World, x: Witness, r: World, visit: seq<Address>, dead: set<Address>)
    requires Good(w, x) && Collected(w, r, visit, dead)
    ensures HandleValues(r) == map l | l in HandleValues(w) ::
              if l in GarbageIn(w, visit, dead).handles then None else HandleValues(w)[l]
  {
    hide Core, Stored, Filled, Doomed, ValueAt;
    forall l | l in w.vals
      ensures ValueAt(r, InHandle(l)) == if Doomed(w, visit, dead, w.vals[l]) then None else ValueAt(w, InHandle(l))
    {
      NullIsNoNode(w, x);
      if Doomed(w, visit, dead, w.vals[l]) {
        NullReads(r, InHandle(l));
      } else {
        GcApart(w, x, r, visit, dead, InHandle(l));
      }
    }
  }

  lemma NullReads(w: World, p: Place)
    requires NULL !in w.nodes && CellAt(w, p) == NULL
    ensures ValueAt(w, p) == None
  {
  }

  lemma GarbageEntry(w: World, visit: seq<Address>, dead: set<Address>, m: MapId, k: Key)
    requires m in w.impls && k in w.impls[m]
    ensures (m, k) in GarbageIn(w, visit, dead).entries <==> Doomed(w, visit, dead, w.impls[m][k])
  {
    hide Doomed;
  }

  lemma GcMap(w: World, x: Witness, r: World, visit: seq<Address>, dead: set<Address>, m: MapId)
    requires Good(w, x) && Collected(w, r, visit, dead) && m in w.impls
    ensures m in r.impls && MapValues(r, m) == Swept(MapValues(w, m), m, GarbageIn(w, visit, dead))
  {
    hide Core, Stored, Filled, Doomed, ValueAt, GarbageIn, Quiet;
    forall k | k in r.impls[m] ensures ValueAt(r, InMap(m, k)) == ValueAt(w, InMap(m, k)) {
      GcApart(w, x, r, visit, dead, InMap(m, k));
    }
    forall k | k in w.impls[m]
      ensures (m, k) in GarbageIn(w, visit, dead).entries <==> k !in r.impls[m]
    {
      GarbageEntry(w, visit, dead, m, k);
    }
  }

  lemma GcRest(w: World, x: Witness, r: World, visit: seq<Address>, dead: set<Address>)
    requires Good(w, x) && w.pending == [] && GcSafe(w, visit, dead) && Collected(w, r, visit, dead)
    ensures Abs(r).rounds == Abs(w).rounds && Abs(r).vectors == Abs(w).vectors
  {
    hide Core, Stored, Doomed, ValueAt;
    forall i: nat | i < |w.frames| ensures RoundValues(r, i) == RoundValues(w, i) {
      forall k | k in w.frames[i].rest
        ensures ValueAt(r, InFrame(i, w.frames[i].mapId, k)) == ValueAt(w, InFrame(i, w.frames[i].mapId, k))
      {
        GcApart(w, x, r, visit, dead, InFrame(i, w.frames[i].mapId, k));
      }
    }
    forall v | v in w.vectors ensures VectorValues(r, v) == VectorValues(w, v) {
      forall i: nat | i < |w.vectors[v]| ensures ValueAt(r, InVector(v, i)) == ValueAt(w, InVector(v, i)) {
        VectorNotDoomed(w, x, visit, dead, v, i);
        GcApart(w, x, r, visit, dead, InVector(v, i));
      }
    }
  }

  lemma VectorNotDoomed(w: World, x: Witness, visit: seq<Address>, dead: set<Address>, v: VectorId, i: nat)
    requires Good(w, x) && v in w.vectors && i < |w.vectors[v]|
    ensures !Doomed(w, visit, dead, w.vectors[v][i])
  {
    hide Core, Stored, Filled;
    NullIsNoNode(w, x);
    if w.vectors[v][i] != NULL {
      StoredCell(w, x, InVector(v, i));
    }
  }

  lemma GcValues(w: World, x: Witness, visit: seq<Address>, dead: set<Address>)
    requires Good(w, x) && w.pending == [] && Legal(w, OpGc(visit, dead))
    ensures Gc(w, visit, dead).Done?
    ensures Abs(Gc(w, visit, dead).value) == PlainGc(Abs(w), GarbageIn(w, visit, dead))
  {
    hide Core, Stored, Filled, ValueAt, Gc, GcSafe, HandleValues, MapValues, RoundValues, VectorValues,
         GarbageIn, Swept;
    GcCollects(w, x, visit, dead);
    var r, g := Gc(w, visit, dead).value, GarbageIn(w, visit, dead);
    GcHandles(w, x, r, visit, dead);
    GcRest(w, x, r, visit, dead);
    forall m | m in w.impls ensures m in r.impls && MapValues(r, m) == Swept(MapValues(w, m), m, g) {
      GcMap(w, x, r, visit, dead, m);
    }
    GcShape(w, r, g);
  }

  lemma GcShape(w: World, r: World, g: Garbage)
    requires r.impls.Keys == w.impls.Keys
    requires forall m :: m in w.impls ==> MapValues(r, m) == Swept(MapValues(w, m), m, g)
    ensures Abs(r).maps == PlainGc(Abs(w), g).maps
  {
    hide MapValues, Swept;
  }

  lemma SecondPassValues(w: World)
    requires w.second != []
    ensures Abs(SecondPass(w).value) == Abs(w)
  {
    hide ValueAt, ValuesApart, MapValues, RoundValues, VectorValues, HandleValues;
    var r := SecondPass(w).value;
    NothingMoved(w, r);
    HandlesSame(w, r, {});
    MapsSame(w, r, {});
    RoundsSame(w, r, {});
    VectorsSame(w, r, {});
  }

  // ------------------------------------------------- every step, and every run

  lemma AbsDomains(w: World)
    ensures Abs(w).handles.Keys == w.vals.Keys && Abs(w).maps.Keys == w.impls.Keys
    ensures forall m :: m in w.impls ==> Abs(w).maps[m] == MapValues(w, m)
    ensures |Abs(w).rounds| == |w.frames|
  {
    hide ValueAt, MapValues, RoundValues, VectorValues;
  }

  lemma NewHandleRefines(w: World, x: Witness, op: Op)
    requires Good(w, x) && Legal(w, op) && (op.OpNewHandle? || op.OpNewFromLocal?)
    ensures Step(w, op).Done? && Abs(Step(w, op).value) == PlainStep(Abs(w), op, GarbageOf(w, op))
  {
    hide Core, Stored, Filled, Abs, Fill;
    AbsDomains(w);
    NewHandleKeeps(w, x, op.l);
    NewHandleValues(w, x, op.l);
    if op.OpNewFromLocal? && op.local.Some? {
      FillValues(NewHandle(w, op.l).value, x, op.l, op.local.value);
    }
  }

  lemma NewFromHandleRefines(w: World, x: Witness, op: Op)
    requires Good(w, x) && Legal(w, op) && (op.OpNewFromHandle? || op.OpMoveConstruct?)
    ensures Step(w, op).Done? && Abs(Step(w, op).value) == PlainStep(Abs(w), op, GarbageOf(w, op))
  {
    hide Core, Stored, Filled, Abs, FillFrom, MoveInto;
    AbsDomains(w);
    NewHandleKeeps(w, x, op.l);
    NewHandleValues(w, x, op.l);
    var u := NewHandle(w, op.l).value;
    match op
    case OpNewFromHandle(l, that) => FillFromValues(u, x, l, that);
    case OpMoveConstruct(l, rhs) => MoveIntoValues(u, x, l, rhs);
  }

  lemma WeaknessRefines(w: World, x: Witness, op: Op)
    requires Good(w, x) && Legal(w, op) && (op.OpSetWeak? || op.OpClearWeak?)
    ensures Step(w, op).Done? && Abs(Step(w, op).value) == Abs(w)
  {
    hide Core, Stored, Filled, Abs;
    var l := op.l;
    HandleCell(w, x, l);
    TweakValues(w, x, l, Step(w, op).value.nodes[w.vals[l]]);
  }

  lemma ResetRefines(w: World, x: Witness, op: Op)
    requires Good(w, x) && Legal(w, op) && (op.OpReset? || op.OpResetToLocal? || op.OpDestroyHandle?)
    ensures Step(w, op).Done? && Abs(Step(w, op).value) == PlainStep(Abs(w), op, GarbageOf(w, op))
  {
    hide Core, Stored, Filled, Abs, Reset, Fill;
    AbsDomains(w);
    var y := ResetKeeps(w, x, op.l);
    ResetValues(w, x, op.l);
    var u := Reset(w, op.l).value;
    match op
    case OpReset(_) =>
    case OpResetToLocal(l, local) =>
      if local.Some? {
        FillValues(u, y, l, local.value);
      }
    case OpDestroyHandle(l) => ForgetValues(u, l);
  }

  lemma AssignRefines(w: World, x: Witness, op: Op)
    requires Good(w, x) && Legal(w, op) && (op.OpMoveAssign? || op.OpCopy?)
    ensures Step(w, op).Done? && Abs(Step(w, op).value) == PlainStep(Abs(w), op, GarbageOf(w, op))
  {
    hide Core, Stored, Filled, Abs, Reset, FillFrom, MoveInto;
    AbsDomains(w);
    var y := ResetKeeps(w, x, op.l);
    ResetValues(w, x, op.l);
    var u := Reset(w, op.l).value;
    match op
    case OpMoveAssign(l, rhs) =>
      if l != rhs {
        MoveIntoValues(u, y, l, rhs);
      }
    case OpCopy(l, that) => FillFromValues(u, y, l, that);
  }

  lemma SetIsTakeThenPut(p: Plain, m: MapId, k: Key, l: Location, out: Location)
    requires l in p.handles && out !in p.handles && m in p.maps
    ensures PlainPut(PlainTake(p, m, k, out), m, k, l) == PlainStep(p, OpSet(m, k, l, out), Garbage({}, {}))
  {
    var q := PlainStep(p, OpSet(m, k, l, out), Garbage({}, {}));
    var r := PlainPut(PlainTake(p, m, k, out), m, k, l);
    assert r.handles == q.handles;
    assert r.maps[m] == q.maps[m];
    assert r.maps == q.maps;
  }

  lemma MapRefines(w: World, x: Witness, op: Op)
    requires Good(w, x) && w.pending == [] && Legal(w, op)
    requires op.OpNewMap? || op.OpSet? || op.OpRemove? || op.OpDestroyMap?
    ensures Step(w, op).Done? && Abs(Step(w, op).value) == PlainStep(Abs(w), op, GarbageOf(w, op))
  {
    hide Core, Stored, Filled, Abs, MapSet, MapRemove, MapValues, PlainTake, PlainPut;
    AbsDomains(w);
    match op
    case OpNewMap(m, t) => NewMapValues(w, m, t);
    case OpSet(m, k, l, out) =>
      SetValues(w, x, m, k, l, out);
      SetIsTakeThenPut(Abs(w), m, k, l, out);
    case OpRemove(m, k, out) => RemoveValues(w, x, m, k, out);
    case OpDestroyMap(m) => DestroyMapValues(w, m);
  }

  lemma RoundRefines(w: World, x: Witness, op: Op)
    requires Good(w, x) && w.pending == [] && Legal(w, op) && (op.OpBeginRound? || op.OpDrainOne? || op.OpEndRound?)
    ensures Step(w, op).Done? && Abs(Step(w, op).value) == PlainStep(Abs(w), op, GarbageOf(w, op))
  {
    hide Core, Stored, Filled, Abs, DrainOne, MapValues, PlainDrain;
    AbsDomains(w);
    match op
    case OpBeginRound(m) => AbsBeginRound(w, BeginRound(w, m).value, m);
    case OpDrainOne(k, out) => DrainValues(w, x, k, out);
    case OpEndRound => EndRoundValues(w);
  }

  lemma VectorRefines(w: World, x: Witness, op: Op)
    requires Good(w, x) && w.pending == [] && Legal(w, op)
    requires op.OpNewVector? || op.OpAppend? || op.OpVectorClear? || op.OpDestroyVector?
    ensures Step(w, op).Done? && Abs(Step(w, op).value) == PlainStep(Abs(w), op, GarbageOf(w, op))
  {
    hide Core, Stored, Filled, Abs, PlainAppend, DestroyAll;
    match op
    case OpNewVector(v) => NewVectorValues(w, v);
    case OpAppend(v, l) => AppendValues(w, x, v, l);
    case OpVectorClear(v) => VectorClearValues(w, x, v);
    case OpDestroyVector(v) =>
      VectorClearValues(w, x, v);
      ForgetVectorValues(VectorClear(w, v).value, v);
      assert Abs(w).vectors[v := []] - {v} == Abs(w).vectors - {v};
  }

  /** One legal step of the cell protocol is one step on plain values. */
  lemma StepRefines(w: World, x: Witness, op: Op)
    requires Good(w, x) && w.pending == [] && Legal(w, op)
    ensures Step(w, op).Done? && Abs(Step(w, op).value) == PlainStep(Abs(w), op, GarbageOf(w, op))
  {
    hide Core, Stored, Filled, Abs, Gc, GcSafe, GarbageIn;
    if op.OpNewHandle? || op.OpNewFromLocal? {
      NewHandleRefines(w, x, op);
    } else if op.OpNewFromHandle? || op.OpMoveConstruct? {
      NewFromHandleRefines(w, x, op);
    } else if op.OpSetWeak? || op.OpClearWeak? {
      WeaknessRefines(w, x, op);
    } else if op.OpMoveAssign? || op.OpCopy? {
      AssignRefines(w, x, op);
    } else if op.OpReset? || op.OpResetToLocal? || op.OpDestroyHandle? {
      ResetRefines(w, x, op);
    } else if op.OpGc? {
      GcValues(w, x, op.visit, op.dead);
    } else if op.OpSecondPass? {
      SecondPassValues(w);
    } else if op.OpBeginRound? || op.OpDrainOne? || op.OpEndRound? {
      RoundRefines(w, x, op);
    } else if op.OpNewVector? || op.OpAppend? || op.OpVectorClear? || op.OpDestroyVector? {
      VectorRefines(w, x, op);
    } else {
      MapRefines(w, x, op);
    }
  }

  function PlainRun(p: Plain, ops: seq<Op>, gs: seq<Garbage>): Plain
    requires |gs| == |ops|
    decreases |ops|
  {
    if ops == [] then p else PlainRun(PlainStep(p, ops[0], gs[0]), ops[1..], gs[1..])
  }

  /** The garbage of each step of a run. */
  function GarbageOfRun(w: World, ops: seq<Op>): (gs: seq<Garbage>)
    requires Run(w, ops).Done?
    ensures |gs| == |ops|
    decreases |ops|
  {
    if ops == [] then [] else [GarbageOf(w, ops[0])] + GarbageOfRun(Step(w, ops[0]).value, ops[1..])
  }

  /** Every legal run of the cell protocol is a run on plain values, in which collections take
      away exactly what is doomed. */
  lemma {:induction false} RunRefines(w: World, x: Witness, ops: seq<Op>)
    requires Good(w, x) && w.pending == [] && LegalRun(w, ops)
    ensures Run(w, ops).Done? && Abs(Run(w, ops).value) == PlainRun(Abs(w), ops, GarbageOfRun(w, ops))
    decreases |ops|
  {
    hide Core, Stored, Filled, Abs, Step, Legal, PlainStep, GarbageOf;
    if ops != [] {
      var y := StepKeeps(w, x, ops[0]);
      StepRefines(w, x, ops[0]);
      var u := Step(w, ops[0]).value;
      RunRefines(u, y, ops[1..]);
      assert GarbageOfRun(w, ops)[1..] == GarbageOfRun(u, ops[1..]);
    }
  }
}
