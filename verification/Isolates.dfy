/** The same operations step by step, on one mutable object that holds the node space, the
    handle objects and the containers. A method asks its caller for the ownership invariant and
    for what the headers ask, keeps the invariant, and says what happens to the plain values. */
module Isolates {
  import opened Cells
  import opened Containers
  import opened Collector
  import opened Ownership
  import opened Collection
  import opened Runs
  import opened Promises
  import opened PlainValues
  import opened Refinement
  import opened Weakness

  /** The part of a new block that is on the free list once the indexes from `i` on are. */
  ghost function BlockFrom(base: nat, i: nat): map<Address, Node> {
    map a: Address | a <= base + BLOCK_SIZE && InBlock(base, a) && a > base + i ::
      FreeNode(if a == base + BLOCK_SIZE then NULL else a + 1)
  }

  /** What a legal operation is known to do before it starts. */
  lemma Foreseen(w: World, x: Witness, op: Op) returns (y: Witness)
    requires Good(w, x) && w.pending == [] && Legal(w, op)
    ensures Step(w, op).Done? && Good(Step(w, op).value, y) && Step(w, op).value.pending == []
    ensures Abs(Step(w, op).value) == PlainStep(Abs(w), op, GarbageOf(w, op))
    ensures WeakHandles(Step(w, op).value) == WeakStep(WeakHandles(w), op, GarbageOf(w, op))
  {
    hide Core, Stored, Filled, Abs, Step, Legal, PlainStep, WeakHandles, WeakStep;
    y := StepKeeps(w, x, op);
    StepRefines(w, x, op);
    StepWeakness(w, x, op);
  }

  lemma BlockStep(nodes: map<Address, Node>, base: nat, i: nat)
    requires 0 < i <= BLOCK_SIZE
    ensures nodes + BlockFrom(base, i - 1) ==
            (nodes + BlockFrom(base, i))[base + i := FreeNode(if i == BLOCK_SIZE then NULL else base + i + 1)]
  {
    assert BlockFrom(base, i - 1) ==
           BlockFrom(base, i)[base + i := FreeNode(if i == BLOCK_SIZE then NULL else base + i + 1)];
  }

  lemma BlockEnds(nodes: map<Address, Node>, base: nat)
    ensures nodes + BlockFrom(base, BLOCK_SIZE) == nodes && BlockFrom(base, 0) == NewBlock(base)
  {
    assert BlockFrom(base, BLOCK_SIZE) == map[];
  }

  class Isolate {
    var nodes: map<Address, Node>
    var top: nat
    var firstFree: Address
    var count: int
    var pending: seq<Pending>
    var second: seq<ParamId>
    var vals: map<Location, Address>
    var traits: map<MapId, Traits>
    var impls: map<MapId, map<Key, Address>>
    var frames: seq<Frame>
    var vectors: map<VectorId, seq<Address>>
    var params: seq<ParamRecord>
    var log: seq<Event>

    ghost function State(): World
      reads this
    {
      World(nodes, top, firstFree, count, pending, second, vals, traits, impls, frames, vectors, params, log)
    }

    constructor ()
      ensures State() == EMPTY
    {
      nodes, top, firstFree, count, pending, second := map[], 0, NULL, 0, [], [];
      vals, traits, impls, frames, vectors, params, log := map[], map[], map[], [], map[], [], [];
    }

    /** Between two operations: the ownership invariant holds and no callback is pending. */
    ghost predicate Sound(x: Witness)
      reads this
    {
      Good(State(), x) && pending == []
    }

    /** What the embedder sees. */
    ghost function Values(): Plain
      reads this
    {
      Abs(State())
    }

    /** The handles that a collection may empty. */
    ghost function Collectable(): set<Location>
      reads this
    {
      WeakHandles(State())
    }

    // ----------------------------------------------- node space

    /** A new block, whose nodes go on the free list from the last one to the first. */
    method PutNodesOnFreeList()
      requires firstFree == NULL
      modifies this`nodes, this`top, this`firstFree
      ensures State() == Grown(old(State()))
      ensures firstFree in nodes && nodes[firstFree].payload.NextFree?
    {
      hide BlockFrom, NewBlock;
      var base := top;
      top := top + BLOCK_SIZE;
      var i := BLOCK_SIZE;
      BlockEnds(nodes, base);
      while i > 0
        invariant 0 <= i <= BLOCK_SIZE && top == base + BLOCK_SIZE
        invariant firstFree == if i == BLOCK_SIZE then NULL else base + i + 1
        invariant nodes == old(nodes) + BlockFrom(base, i)
        invariant i < BLOCK_SIZE ==> firstFree in nodes && nodes[firstFree].payload.NextFree?
      {
        BlockStep(old(nodes), base, i);
        nodes := nodes[base + i := FreeNode(firstFree)];
        firstFree := base + i;
        i := i - 1;
      }
    }

    method Create(c: Contents) returns (a: Address)
      requires firstFree == NULL || (firstFree in nodes && nodes[firstFree].payload.NextFree?)
      modifies this`nodes, this`top, this`firstFree, this`count, this`log
      ensures Cells.Create(old(State()), c) == Done((State(), a))
    {
      hide NewBlock;
      if firstFree == NULL {
        PutNodesOnFreeList();
      }
      a := firstFree;
      firstFree := nodes[a].payload.next;
      count := count + 1;
      nodes := nodes[a := nodes[a].(state := Normal, contents := c, payload := Param(NullParameter))];
      log := log + [Created(a)];
    }

    method Destroy(a: Address)
      requires a == NULL || InUse(State(), a)
      modifies this`nodes, this`firstFree, this`count, this`log
      ensures Cells.Destroy(old(State()), a) == Done(State())
    {
      if a != NULL {
        nodes := nodes[a := nodes[a].(state := Free, contents := Zapped, callback := None,
                                      payload := NextFree(firstFree))];
        firstFree := a;
        count := count - 1;
        log := log + [Destroyed(a)];
      }
    }

    /** `val_ = New(isolate, slot)`. */
    method Fill(l: Location, c: Contents)
      requires firstFree == NULL || (firstFree in nodes && nodes[firstFree].payload.NextFree?)
      modifies this
      ensures Handles.Fill(old(State()), l, c) == Done(State())
    {
      var a := Create(c);
      vals := vals[l := a];
    }

    /** `Release`, with the callback kind of the map's traits. */
    method Release(kind: CallbackKind, a: Address)
      requires kind != NotWeak && a != NULL ==> a in nodes
      requires kind != NotWeak && a != NULL && nodes[a].state == Weak ==>
                 nodes[a].payload.Param? && nodes[a].payload.parameter.CallbackData?
      modifies this`nodes, this`log
      ensures Containers.Release(old(State()), kind, a) == Done(State())
    {
      if kind != NotWeak && a != NULL && nodes[a].state == Weak {
        var data := nodes[a].payload.parameter;
        nodes := nodes[a := nodes[a].(state := Normal, payload := Param(NullParameter))];
        log := log + [DataDisposed(data.id)];
      }
    }

    /** The first half of `SetUnique`: a strong cell is labelled, a weak one armed. */
    method Arm(m: MapId, k: Key, a: Address)
      requires m in traits && a in nodes
      requires traits[m].callbackKind != NotWeak ==> InUse(State(), a) && nodes[a].contents != Zapped
      modifies this`nodes, this`params
      ensures m in old(traits) && Containers.Arm(old(State()), m, k, a) == Done(State())
    {
      var t := traits[m];
      if t.callbackKind == NotWeak {
        nodes := nodes[a := nodes[a].(payload := Param(Label(t.name)))];
      } else {
        var data := |params|;
        params := params + [ParamRecord(m, k)];
        var weakness := if t.callbackKind == WeakWithInternalFields then WithCallbackAndFields else WithCallback;
        nodes := nodes[a := nodes[a].(state := Weak, weakness := weakness, callback := Some(t.mapClass),
                                      payload := Param(CallbackData(data)))];
      }
    }

    /** The common end of both moves: the cell changes hands and `rhs` is left empty. */
    method MoveInto(l: Location, rhs: Location)
      requires rhs in vals && (vals[rhs] != NULL ==> vals[rhs] in nodes)
      modifies this`nodes, this`vals
      ensures Handles.MoveInto(old(State()), l, rhs) == Done(State())
    {
      if vals[rhs] != NULL {
        vals := vals[l := vals[rhs]];
        var n := nodes[vals[rhs]];
        if n.state == Weak && n.weakness == NoCallback {
          nodes := nodes[vals[rhs] := n.(payload := Param(Slot(l)))];
        }
        vals := vals[rhs := NULL];
      }
    }

    // ----------------------------------------------- handles

    /** `Global()` at an unused location. */
    method NewHandle(l: Location, ghost x: Witness) returns (ghost y: Witness)
      requires Sound(x) && l !in vals
      modifies this
      ensures Sound(y) && Step(old(State()), OpNewHandle(l)) == Done(State())
      ensures Values() == old(Values()).(handles := old(Values()).handles[l := None])
      ensures Collectable() == old(Collectable())
    {
      hide Core, Stored, Filled, Abs, WeakHandles;
      y := Foreseen(State(), x, OpNewHandle(l));
      vals := vals[l := NULL];
    }

    /** `Global(isolate, Local)`. */
    method NewFromLocal(l: Location, local: Option<Object>, ghost x: Witness) returns (ghost y: Witness)
      requires Sound(x) && l !in vals
      modifies this
      ensures Sound(y) && Step(old(State()), OpNewFromLocal(l, local)) == Done(State())
      ensures Values() == old(Values()).(handles := old(Values()).handles[l := local])
      ensures Collectable() == old(Collectable())
    {
      hide Core, Stored, Filled, Abs, WeakHandles;
      y := Foreseen(State(), x, OpNewFromLocal(l, local));
      vals := vals[l := NULL];
      if local.Some? {
        Fill(l, Holds(local.value));
      }
    }

    /** `Global(isolate, PersistentBase)`. */
    method NewFromHandle(l: Location, that: Location, ghost x: Witness) returns (ghost y: Witness)
      requires Sound(x) && l !in vals && that in vals
      modifies this
      ensures Sound(y) && Step(old(State()), OpNewFromHandle(l, that)) == Done(State())
      ensures Values() == old(Values()).(handles := old(Values()).handles[l := PlainGet(old(Values()), that)])
      ensures Collectable() == old(Collectable())
    {
      hide Core, Stored, Filled, Abs, WeakHandles;
      y := Foreseen(State(), x, OpNewFromHandle(l, that));
      vals := vals[l := NULL];
      if vals[that] != NULL {
        Fill(l, nodes[vals[that]].contents);
      }
    }

    /** `Global(Global&&)`. */
    method MoveConstruct(l: Location, rhs: Location, ghost x: Witness) returns (ghost y: Witness)
      requires Sound(x) && l !in vals && rhs in vals
      modifies this
      ensures Sound(y) && Step(old(State()), OpMoveConstruct(l, rhs)) == Done(State())
      ensures Values() == old(Values()).(
                handles := old(Values()).handles[l := PlainGet(old(Values()), rhs)][rhs := None])
      ensures Collectable() == WeakMove(old(Collectable()), l, rhs)
    {
      hide Core, Stored, Filled, Abs, WeakHandles;
      y := Foreseen(State(), x, OpMoveConstruct(l, rhs));
      vals := vals[l := NULL];
      MoveInto(l, rhs);
    }

    /** The body of `Reset()`, which most handle operations begin with. */
    method Drop(l: Location)
      requires l in vals && (vals[l] == NULL || InUse(State(), vals[l]))
      modifies this
      ensures Handles.Reset(old(State()), l) == Done(State())
    {
      if vals[l] == NULL {
        return;
      }
      Destroy(vals[l]);
      vals := vals[l := NULL];
    }

    /** `Reset()`. */
    method Reset(l: Location, ghost x: Witness) returns (ghost y: Witness)
      requires Sound(x) && l in vals
      modifies this
      ensures Sound(y) && Step(old(State()), OpReset(l)) == Done(State())
      ensures Values() == old(Values()).(handles := old(Values()).handles[l := None])
      ensures Collectable() == old(Collectable()) - {l}
    {
      hide Core, Stored, Filled, Abs, WeakHandles;
      y := Foreseen(State(), x, OpReset(l));
      Drop(l);
    }

    /** `Reset(isolate, Local)`. */
    method ResetToLocal(l: Location, local: Option<Object>, ghost x: Witness) returns (ghost y: Witness)
      requires Sound(x) && l in vals
      modifies this
      ensures Sound(y) && Step(old(State()), OpResetToLocal(l, local)) == Done(State())
      ensures Values() == old(Values()).(handles := old(Values()).handles[l := local])
      ensures Collectable() == old(Collectable()) - {l}
    {
      hide Core, Stored, Filled, Abs, WeakHandles;
      y := Foreseen(State(), x, OpResetToLocal(l, local));
      Drop(l);
      if local.Some? {
        Fill(l, Holds(local.value));
      }
    }

    /** `Persistent::Copy`: the target is reset before the source is read. */
    method Copy(l: Location, that: Location, ghost x: Witness) returns (ghost y: Witness)
      requires Sound(x) && l in vals && that in vals
      modifies this
      ensures Sound(y) && Step(old(State()), OpCopy(l, that)) == Done(State())
      ensures Values() == old(Values()).(
                handles := old(Values()).handles[l := if l == that then None else PlainGet(old(Values()), that)])
      ensures Collectable() == old(Collectable()) - {l}
    {
      hide Core, Stored, Filled, Abs, WeakHandles;
      y := Foreseen(State(), x, OpCopy(l, that));
      Drop(l);
      if vals[that] != NULL {
        Fill(l, nodes[vals[that]].contents);
      }
    }

    /** `Global::operator=(Global&&)`. */
    method MoveAssign(l: Location, rhs: Location, ghost x: Witness) returns (ghost y: Witness)
      requires Sound(x) && l in vals && rhs in vals
      modifies this
      ensures Sound(y) && Step(old(State()), OpMoveAssign(l, rhs)) == Done(State())
      ensures Values() == if l == rhs then old(Values()) else old(Values()).(
                handles := old(Values()).handles[l := PlainGet(old(Values()), rhs)][rhs := None])
      ensures Collectable() == if l == rhs then old(Collectable()) else WeakMove(old(Collectable()), l, rhs)
    {
      hide Core, Stored, Filled, Abs, WeakHandles;
      y := Foreseen(State(), x, OpMoveAssign(l, rhs));
      if l != rhs {
        Drop(l);
        MoveInto(l, rhs);
      }
    }

    /** `SetWeak()` without a callback; the value stays. */
    method SetWeak(l: Location, ghost x: Witness) returns (ghost y: Witness)
      requires Sound(x) && NonEmpty(State(), l)
      modifies this
      ensures Sound(y) && Step(old(State()), OpSetWeak(l)) == Done(State())
      ensures Values() == old(Values())
      ensures Collectable() == old(Collectable()) + {l}
    {
      hide Core, Stored, Filled, Abs, WeakHandles;
      y := Foreseen(State(), x, OpSetWeak(l));
      var a := vals[l];
      nodes := nodes[a := nodes[a].(state := Weak, weakness := NoCallback, callback := None,
                                    payload := Param(Slot(l)))];
    }

    /** `ClearWeak()`; the value stays. */
    method ClearWeak(l: Location, ghost x: Witness) returns (ghost y: Witness)
      requires Sound(x) && NonEmpty(State(), l)
      modifies this
      ensures Sound(y) && Step(old(State()), OpClearWeak(l)) == Done(State())
      ensures Values() == old(Values())
      ensures Collectable() == old(Collectable()) - {l}
    {
      hide Core, Stored, Filled, Abs, WeakHandles;
      y := Foreseen(State(), x, OpClearWeak(l));
      var a := vals[l];
      nodes := nodes[a := nodes[a].(state := Normal, payload := Param(NullParameter))];
    }

    /** `~Global()`. */
    method DestroyHandle(l: Location, ghost x: Witness) returns (ghost y: Witness)
      requires Sound(x) && l in vals
      modifies this
      ensures Sound(y) && Step(old(State()), OpDestroyHandle(l)) == Done(State())
      ensures Values() == old(Values()).(handles := old(Values()).handles - {l})
      ensures Collectable() == old(Collectable()) - {l}
    {
      hide Core, Stored, Filled, Abs, WeakHandles;
      y := Foreseen(State(), x, OpDestroyHandle(l));
      Drop(l);
      vals := vals - {l};
    }

    // ----------------------------------------------- containers

    /** A map with the given traits. */
    method NewMap(m: MapId, t: Traits, ghost x: Witness) returns (ghost y: Witness)
      requires Sound(x) && m !in traits && m !in impls
      modifies this
      ensures Sound(y) && Step(old(State()), OpNewMap(m, t)) == Done(State())
      ensures Values() == old(Values()).(maps := old(Values()).maps[m := map[]])
      ensures Collectable() == old(Collectable())
    {
      hide Core, Stored, Filled, Abs, WeakHandles;
      y := Foreseen(State(), x, OpNewMap(m, t));
      traits := traits[m := t];
      impls := impls[m := map[]];
    }

    /** `SetUnique`: the value of `l` is under `k` now, and the value that was there is at `out`. */
    method SetUnique(m: MapId, k: Key, l: Location, out: Location, ghost x: Witness) returns (ghost y: Witness)
      requires Sound(x) && IsMap(State(), m) && NonEmpty(State(), l) && out !in vals
      requires traits[m].callbackKind == NotWeak ==> !HoldsPhantom(State(), l)
      modifies this
      ensures Sound(y) && Step(old(State()), OpSet(m, k, l, out)) == Done(State())
      ensures Values() == PlainSet(old(Values()), m, k, l, out)
      ensures Collectable() == old(Collectable()) - {l}
    {
      hide Core, Stored, Filled, Abs, WeakHandles, MapSet, PlainSet;
      y := Foreseen(State(), x, OpSet(m, k, l, out));
      Exchange(m, k, l, out);
    }

    /** The body of `SetUnique`. */
    method Exchange(m: MapId, k: Key, l: Location, out: Location)
      requires MapSet(State(), m, k, l, out).Done?
      modifies this
      ensures MapSet(old(State()), m, k, l, out) == Done(State())
    {
      var a := vals[l];
      Arm(m, k, a);
      vals := vals[l := NULL];
      var oldValue := if k in impls[m] then impls[m][k] else NULL;
      var impl := impls[m][k := a];
      impls := impls[m := impl];
      Surrender(traits[m].callbackKind, oldValue, out);
    }

    /** The end of `Set`, `Remove` and each step of `Clear`: the cell is released into `out`. */
    method Surrender(kind: CallbackKind, a: Address, out: Location)
      requires kind != NotWeak && a != NULL ==> a in nodes
      requires kind != NotWeak && a != NULL && nodes[a].state == Weak ==>
                 nodes[a].payload.Param? && nodes[a].payload.parameter.CallbackData?
      modifies this`nodes, this`log, this`vals
      ensures Containers.Release(old(State()), kind, a) == Done(State().(vals := old(vals)))
      ensures vals == old(vals)[out := a]
    {
      Release(kind, a);
      vals := vals[out := a];
    }

    /** `Remove`: the value is at `out`, if there was one. */
    method Remove(m: MapId, k: Key, out: Location, ghost x: Witness) returns (ghost y: Witness)
      requires Sound(x) && IsMap(State(), m) && out !in vals
      modifies this
      ensures Sound(y) && Step(old(State()), OpRemove(m, k, out)) == Done(State())
      ensures Values() == PlainTake(old(Values()), m, k, out)
      ensures Collectable() == old(Collectable())
    {
      hide Core, Stored, Filled, Abs, WeakHandles, PlainTake;
      y := Foreseen(State(), x, OpRemove(m, k, out));
      var value := if k in impls[m] then impls[m][k] else NULL;
      var impl := impls[m] - {k};
      impls := impls[m := impl];
      Surrender(traits[m].callbackKind, value, out);
    }

    /** A round of `Clear` starts: the backing map is swapped with an empty local one. */
    method BeginRound(m: MapId, ghost x: Witness) returns (ghost y: Witness)
      requires Sound(x) && IsMap(State(), m)
      modifies this
      ensures Sound(y) && Step(old(State()), OpBeginRound(m)) == Done(State())
      ensures Values() == old(Values()).(
                maps := old(Values()).maps[m := map[]],
                rounds := old(Values()).rounds + [Round(m, PlainMap(old(Values()), m))])
      ensures Collectable() == old(Collectable())
    {
      hide Core, Stored, Filled, Abs, WeakHandles;
      y := Foreseen(State(), x, OpBeginRound(m));
      var impl := impls[m];
      impls := impls[m := map[]];
      frames := frames + [Frame(m, impl)];
    }

    /** The round releases one entry and hands it to `Dispose` at `out`. */
    method DrainOne(k: Key, out: Location, ghost x: Witness) returns (ghost y: Witness)
      requires Sound(x) && frames != [] && k in frames[|frames| - 1].rest && out !in vals
      modifies this
      ensures Sound(y) && Step(old(State()), OpDrainOne(k, out)) == Done(State())
      ensures Values() == PlainDrain(old(Values()), k, out)
      ensures Collectable() == old(Collectable())
    {
      hide Core, Stored, Filled, Abs, WeakHandles, PlainDrain;
      y := Foreseen(State(), x, OpDrainOne(k, out));
      var f := frames[|frames| - 1];
      frames := frames[|frames| - 1 := f.(rest := f.rest - {k})];
      Surrender(traits[f.mapId].callbackKind, f.rest[k], out);
    }

    /** The round has visited every entry. */
    method EndRound(ghost x: Witness) returns (ghost y: Witness)
      requires Sound(x) && frames != [] && frames[|frames| - 1].rest == map[]
      modifies this
      ensures Sound(y) && Step(old(State()), OpEndRound) == Done(State())
      ensures Values() == PlainStep(old(Values()), OpEndRound, Garbage({}, {}))
      ensures Collectable() == old(Collectable())
    {
      hide Core, Stored, Filled, Abs, WeakHandles;
      y := Foreseen(State(), x, OpEndRound);
      frames := frames[..|frames| - 1];
    }

    /** The end of the destructor, after its `Clear`. */
    method DestroyMap(m: MapId, ghost x: Witness) returns (ghost y: Witness)
      requires Sound(x) && IsMap(State(), m) && impls[m] == map[]
      requires forall i: nat :: i < |frames| && frames[i].mapId == m ==> frames[i].rest == map[]
      modifies this
      ensures Sound(y) && Step(old(State()), OpDestroyMap(m)) == Done(State())
      ensures Values() == old(Values()).(maps := old(Values()).maps - {m})
      ensures Collectable() == old(Collectable())
    {
      hide Core, Stored, Filled, Abs, WeakHandles;
      y := Foreseen(State(), x, OpDestroyMap(m));
      traits := traits - {m};
      impls := impls - {m};
    }

    method NewVector(v: VectorId, ghost x: Witness) returns (ghost y: Witness)
      requires Sound(x) && v !in vectors
      modifies this
      ensures Sound(y) && Step(old(State()), OpNewVector(v)) == Done(State())
      ensures Values() == old(Values()).(vectors := old(Values()).vectors[v := []])
      ensures Collectable() == old(Collectable())
    {
      hide Core, Stored, Filled, Abs, WeakHandles;
      y := Foreseen(State(), x, OpNewVector(v));
      vectors := vectors[v := []];
    }

    /** `Append`: the value moves to the end of the vector. */
    method Append(v: VectorId, l: Location, ghost x: Witness) returns (ghost y: Witness)
      requires Sound(x) && v in vectors && l in vals && !HoldsPhantom(State(), l)
      modifies this
      ensures Sound(y) && Step(old(State()), OpAppend(v, l)) == Done(State())
      ensures Values() == PlainAppend(old(Values()), v, l)
      ensures Collectable() == old(Collectable())
    {
      hide Core, Stored, Filled, Abs, WeakHandles, PlainAppend;
      y := Foreseen(State(), x, OpAppend(v, l));
      var a := vals[l];
      vals := vals[l := NULL];
      var cells := vectors[v] + [a];
      vectors := vectors[v := cells];
    }

    /** A temporary handle is destroyed for every element. */
    method DestroyElements(cells: seq<Address>)
      requires DestroyAll(State(), cells).Done?
      modifies this
      ensures DestroyAll(old(State()), cells) == Done(State())
    {
      for i := 0 to |cells|
        invariant DestroyAll(State(), cells[i..]) == DestroyAll(old(State()), cells)
      {
        Destroy(cells[i]);
        assert cells[i..][1..] == cells[i + 1..];
      }
    }

    /** `PersistentValueVector::Clear`. */
    method VectorClear(v: VectorId, ghost x: Witness) returns (ghost y: Witness)
      requires Sound(x) && v in vectors
      modifies this
      ensures Sound(y) && Step(old(State()), OpVectorClear(v)) == Done(State())
      ensures Values() == old(Values()).(vectors := old(Values()).vectors[v := []])
      ensures Collectable() == old(Collectable())
    {
      hide Core, Stored, Filled, Abs, WeakHandles, DestroyAll;
      y := Foreseen(State(), x, OpVectorClear(v));
      DestroyElements(vectors[v]);
      vectors := vectors[v := []];
    }

    /** `~PersistentValueVector`. */
    method DestroyVector(v: VectorId, ghost x: Witness) returns (ghost y: Witness)
      requires Sound(x) && v in vectors
      modifies this
      ensures Sound(y) && Step(old(State()), OpDestroyVector(v)) == Done(State())
      ensures Values() == old(Values()).(vectors := old(Values()).vectors - {v})
      ensures Collectable() == old(Collectable())
    {
      hide Core, Stored, Filled, Abs, WeakHandles, DestroyAll;
      y := Foreseen(State(), x, OpDestroyVector(v));
      DestroyElements(vectors[v]);
      vectors := vectors[v := []];
      vectors := vectors - {v};
    }

    // ----------------------------------------------- collection

    /** `IterateWeakRootsForPhantomHandles`, over the nodes that a collection looks at. */
    method IterateWeakRoots(visit: seq<Address>, dead: set<Address>)
      requires Scan(State(), visit, dead).Done?
      modifies this
      ensures State() == Scan(old(State()), visit, dead).value
    {
      for i := 0 to |visit|
        invariant Scan(State(), visit[i..], dead) == Scan(old(State()), visit, dead)
      {
        var a := visit[i];
        var n := nodes[a];
        if n.state == Weak && a in dead {
          if n.weakness == NoCallback {
            vals := vals[n.payload.parameter.location := NULL];
            Destroy(a);
          } else {
            pending := pending + [Pending(a, n.payload.parameter.id, n.callback.value)];
            nodes := nodes[a := n.(state := NearDeath, contents := CalledOut)];
          }
        }
        assert visit[i..][1..] == visit[i + 1..];
      }
    }

    /** `InvokeFirstPassWeakCallbacks`. No callback adds to the list, so it is worked off in place. */
    method InvokeFirstPassWeakCallbacks()
      requires FirstPasses(State()).Done?
      modifies this
      ensures State() == FirstPasses(old(State())).value
    {
      while pending != []
        invariant FirstPasses(State()) == FirstPasses(old(State()))
        decreases |pending|
      {
        var data, cls := pending[0].param, pending[0].callback;
        pending := pending[1..];
        log := log + [FirstPass(data)];
        RunFirstPass(data, cls);
      }
    }

    method RunFirstPass(data: ParamId, cls: MapClass)
      requires if cls == PersistentValueMap then PersistentCallback(State(), data).Done?
               else GlobalCallback(State(), data).Done?
      modifies this
      ensures Done(State()) ==
              if cls == PersistentValueMap then PersistentCallback(old(State()), data)
              else GlobalCallback(old(State()), data)
    {
      var m, k := params[data].mapId, params[data].key;
      var value := if k in impls[m] then impls[m][k] else NULL;
      var impl := impls[m] - {k};
      impls := impls[m := impl];
      if cls == PersistentValueMap {
        Release(traits[m].callbackKind, value);
        Destroy(value);
        log := log + [DataDisposed(data)];
      } else {
        Destroy(value);
        second := second + [data];
      }
    }

    /** One collection with its first-pass callbacks: exactly the values of dead weak cells go away. */
    method Gc(visit: seq<Address>, dead: set<Address>, ghost x: Witness) returns (ghost y: Witness)
      requires Sound(x) && (forall a :: a in visit ==> a in nodes) && GcSafe(State(), visit, dead)
      modifies this
      ensures Sound(y) && Step(old(State()), OpGc(visit, dead)) == Done(State())
      ensures Values() == PlainGc(old(Values()), GarbageIn(old(State()), visit, dead))
      ensures Collectable() == old(Collectable()) - GarbageIn(old(State()), visit, dead).handles
    {
      hide Core, Stored, Filled, Abs, WeakHandles, PlainGc, GarbageIn, GcSafe, Scan, FirstPasses;
      y := Foreseen(State(), x, OpGc(visit, dead));
      IterateWeakRoots(visit, dead);
      InvokeFirstPassWeakCallbacks();
    }

    /** The callback queued last runs its second pass. */
    method SecondPass(ghost x: Witness) returns (ghost y: Witness)
      requires Sound(x) && second != []
      modifies this
      ensures Sound(y) && Step(old(State()), OpSecondPass) == Done(State())
      ensures Values() == old(Values())
      ensures Collectable() == old(Collectable())
    {
      hide Core, Stored, Filled, Abs, WeakHandles;
      y := Foreseen(State(), x, OpSecondPass);
      var data := second[|second| - 1];
      second := second[..|second| - 1];
      log := log + [WeakDisposed(data)];
    }

    /** `InvokeSecondPassPhantomCallbacks`. */
    method InvokeSecondPassPhantomCallbacks(ghost x: Witness) returns (ghost y: Witness)
      requires Sound(x)
      modifies this
      ensures Sound(y) && State() == SecondPasses(old(State())) && second == []
      ensures Values() == old(Values()) && Collectable() == old(Collectable())
    {
      hide Core, Stored, Filled, Abs, WeakHandles;
      y := x;
      while second != []
        invariant Sound(y) && SecondPasses(State()) == SecondPasses(old(State()))
        invariant Values() == old(Values()) && Collectable() == old(Collectable())
        decreases |second|
      {
        y := SecondPass(y);
      }
    }

    // ----------------------------------------------- whole runs

    method Execute(op: Op, ghost x: Witness) returns (ghost y: Witness)
      requires Sound(x) && Legal(State(), op)
      modifies this
      ensures Sound(y) && Step(old(State()), op) == Done(State())
    {
      hide Core, Stored, Filled, Abs, WeakHandles, Step, WeakMove, GarbageIn, PlainSet, PlainTake, PlainDrain,
           PlainAppend, PlainGc, PlainGet, PlainMap, PlainStep, GcSafe;
      match op
      case OpNewHandle(l) => y := NewHandle(l, x);
      case OpNewFromLocal(l, local) => y := NewFromLocal(l, local, x);
      case OpNewFromHandle(l, that) => y := NewFromHandle(l, that, x);
      case OpMoveConstruct(l, rhs) => y := MoveConstruct(l, rhs, x);
      case OpMoveAssign(l, rhs) => y := MoveAssign(l, rhs, x);
      case OpCopy(l, that) => y := Copy(l, that, x);
      case OpReset(l) => y := Reset(l, x);
      case OpResetToLocal(l, local) => y := ResetToLocal(l, local, x);
      case OpSetWeak(l) => y := SetWeak(l, x);
      case OpClearWeak(l) => y := ClearWeak(l, x);
      case OpDestroyHandle(l) => y := DestroyHandle(l, x);
      case OpNewMap(m, t) => y := NewMap(m, t, x);
      case OpSet(m, k, l, out) => y := SetUnique(m, k, l, out, x);
      case OpRemove(m, k, out) => y := Remove(m, k, out, x);
      case OpBeginRound(m) => y := BeginRound(m, x);
      case OpDrainOne(k, out) => y := DrainOne(k, out, x);
      case OpEndRound => y := EndRound(x);
      case OpDestroyMap(m) => y := DestroyMap(m, x);
      case OpNewVector(v) => y := NewVector(v, x);
      case OpAppend(v, l) => y := Append(v, l, x);
      case OpVectorClear(v) => y := VectorClear(v, x);
      case OpDestroyVector(v) => y := DestroyVector(v, x);
      case OpGc(visit, dead) => y := Gc(visit, dead, x);
      case OpSecondPass => y := SecondPass(x);
    }

    /** Every legal run executes without a fault, keeps the ownership invariant, and does to the
        values and to the weak handles what the plain run does. */
    method ExecuteAll(ops: seq<Op>, ghost x: Witness) returns (ghost y: Witness)
      requires Sound(x) && LegalRun(State(), ops)
      modifies this
      ensures Sound(y)
      ensures Run(old(State()), ops) == Done(State())
      ensures Values() == PlainRun(old(Values()), ops, GarbageOfRun(old(State()), ops))
      ensures Collectable() == WeakRun(old(Collectable()), ops, GarbageOfRun(old(State()), ops))
    {
      hide Core, Stored, Filled, Step, Legal, Abs, PlainRun, WeakHandles, WeakRun, GarbageOfRun;
      RunRefines(State(), x, ops);
      RunWeakness(State(), x, ops);
      y := x;
      assert ops[0..] == ops;
      for i := 0 to |ops|
        invariant Sound(y) && LegalRun(State(), ops[i..])
        invariant Run(State(), ops[i..]) == Run(old(State()), ops)
      {
        assert ops[i..][0] == ops[i] && ops[i..][1..] == ops[i + 1..];
        y := Execute(ops[i], y);
      }
    }
  }
}
