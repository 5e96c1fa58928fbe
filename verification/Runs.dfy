/** Whole runs: any sequence of handle, container and collector operations. */
module Runs {
  import opened Cells
  import opened Handles
  import opened Containers
  import opened Collector
  import opened Ownership
  import opened Safety
  import opened Collection

  datatype Op =
    | OpNewHandle(l: Location)
    | OpNewFromLocal(l: Location, local: Option<Object>)
    | OpNewFromHandle(l: Location, that: Location)
    | OpMoveConstruct(l: Location, rhs: Location)
    | OpMoveAssign(l: Location, rhs: Location)
    | OpCopy(l: Location, that: Location)
    | OpReset(l: Location)
    | OpResetToLocal(l: Location, local: Option<Object>)
    | OpSetWeak(l: Location)
    | OpClearWeak(l: Location)
    | OpDestroyHandle(l: Location)
    | OpNewMap(m: MapId, traits: Traits)
    | OpSet(m: MapId, k: Key, l: Location, out: Location)
    | OpRemove(m: MapId, k: Key, out: Location)
    | OpBeginRound(m: MapId)
    | OpDrainOne(k: Key, out: Location)
    | OpEndRound
    | OpDestroyMap(m: MapId)
    | OpNewVector(v: VectorId)
    | OpAppend(v: VectorId, l: Location)
    | OpVectorClear(v: VectorId)
    | OpDestroyVector(v: VectorId)
    | OpGc(visit: seq<Address>, dead: set<Address>)
    | OpSecondPass

  function Step(w: World, op: Op): Outcome<World> {
    match op
    case OpNewHandle(l) => NewHandle(w, l)
    case OpNewFromLocal(l, local) => NewFromLocal(w, l, local)
    case OpNewFromHandle(l, that) => NewFromHandle(w, l, that)
    case OpMoveConstruct(l, rhs) => MoveConstruct(w, l, rhs)
    case OpMoveAssign(l, rhs) => MoveAssign(w, l, rhs)
    case OpCopy(l, that) => Copy(w, l, that)
    case OpReset(l) => Reset(w, l)
    case OpResetToLocal(l, local) => ResetToLocal(w, l, local)
    case OpSetWeak(l) => SetWeak(w, l)
    case OpClearWeak(l) => ClearWeak(w, l)
    case OpDestroyHandle(l) => DestroyHandle(w, l)
    case OpNewMap(m, t) => NewMap(w, m, t)
    case OpSet(m, k, l, out) => MapSet(w, m, k, l, out)
    case OpRemove(m, k, out) => MapRemove(w, m, k, out)
    case OpBeginRound(m) => BeginRound(w, m)
    case OpDrainOne(k, out) => DrainOne(w, k, out)
    case OpEndRound => EndRound(w)
    case OpDestroyMap(m) => DestroyMap(w, m)
    case OpNewVector(v) => NewVector(w, v)
    case OpAppend(v, l) => Append(w, v, l)
    case OpVectorClear(v) => VectorClear(w, v)
    case OpDestroyVector(v) => DestroyVector(w, v)
    case OpGc(visit, dead) => Gc(w, visit, dead)
    case OpSecondPass => SecondPass(w)
  }

  predicate NonEmpty(w: World, l: Location) {
    l in w.vals && w.vals[l] != NULL
  }

  predicate HoldsPhantom(w: World, l: Location) {
    l in w.vals && w.vals[l] in w.nodes && IsPhantom(w.nodes[w.vals[l]])
  }

  /** What the headers ask of their callers: objects are used within their lifetimes, weakness
      is only changed on non-empty handles, maps are given non-empty handles, containers that
      hold cells strongly are not given weak ones, and no collection takes place that would hit
      an entry which a running `Clear` has swapped out. */
  ghost predicate Legal(w: World, op: Op) {
    match op
    case OpNewHandle(l) => l !in w.vals
    case OpNewFromLocal(l, local) => l !in w.vals
    case OpNewFromHandle(l, that) => l !in w.vals && that in w.vals
    case OpMoveConstruct(l, rhs) => l !in w.vals && rhs in w.vals
    case OpMoveAssign(l, rhs) => l in w.vals && rhs in w.vals
    case OpCopy(l, that) => l in w.vals && that in w.vals
    case OpReset(l) => l in w.vals
    case OpResetToLocal(l, local) => l in w.vals
    case OpSetWeak(l) => NonEmpty(w, l)
    case OpClearWeak(l) => NonEmpty(w, l)
    case OpDestroyHandle(l) => l in w.vals
    case OpNewMap(m, t) => m !in w.traits && m !in w.impls
    case OpSet(m, k, l, out) =>
      && IsMap(w, m) && NonEmpty(w, l) && out !in w.vals
      && (w.traits[m].callbackKind == NotWeak ==> !HoldsPhantom(w, l))
    case OpRemove(m, k, out) => IsMap(w, m) && out !in w.vals
    case OpBeginRound(m) => IsMap(w, m)
    case OpDrainOne(k, out) => w.frames != [] && k in w.frames[|w.frames| - 1].rest && out !in w.vals
    case OpEndRound => w.frames != [] && w.frames[|w.frames| - 1].rest == map[]
    case OpDestroyMap(m) =>
      && IsMap(w, m) && w.impls[m] == map[]
      && (forall i: nat :: i < |w.frames| && w.frames[i].mapId == m ==> w.frames[i].rest == map[])
    case OpNewVector(v) => v !in w.vectors
    case OpAppend(v, l) => v in w.vectors && l in w.vals && !HoldsPhantom(w, l)
    case OpVectorClear(v) => v in w.vectors
    case OpDestroyVector(v) => v in w.vectors
    case OpGc(visit, dead) => (forall a :: a in visit ==> a in w.nodes) && GcSafe(w, visit, dead)
    case OpSecondPass => w.second != []
  }

  predicate IsConstruction(op: Op) {
    op.OpNewHandle? || op.OpNewFromLocal? || op.OpNewFromHandle? || op.OpMoveConstruct?
  }

  predicate IsUpdate(op: Op) {
    op.OpMoveAssign? || op.OpCopy? || op.OpReset? || op.OpResetToLocal? || op.OpSetWeak? || op.OpClearWeak?
    || op.OpDestroyHandle?
  }

  lemma ConstructionKeeps(w: World, x: Witness, op: Op) returns (y: Witness)
    requires Good(w, x) && Legal(w, op) && IsConstruction(op)
    ensures Step(w, op).Done? && Good(Step(w, op).value, y) && Step(w, op).value.pending == w.pending
  {
    hide Core, Stored, Filled, Reset, Fill, FillFrom, MoveInto;
    match op
    case OpNewHandle(l) =>
      NewHandleKeeps(w, x, l);
      y := x;
    case OpNewFromLocal(l, local) =>
      NewHandleKeeps(w, x, l);
      y := x;
      if local.Some? {
        y := FillKeeps(NewHandle(w, l).value, x, l, local.value);
      }
    case OpNewFromHandle(l, that) =>
      NewHandleKeeps(w, x, l);
      y := FillFromKeeps(NewHandle(w, l).value, x, l, that);
    case OpMoveConstruct(l, rhs) =>
      NewHandleKeeps(w, x, l);
      y := MoveIntoKeeps(NewHandle(w, l).value, x, l, rhs);
  }

  lemma UpdateKeeps(w: World, x: Witness, op: Op) returns (y: Witness)
    requires Good(w, x) && Legal(w, op) && IsUpdate(op)
    ensures Step(w, op).Done? && Good(Step(w, op).value, y) && Step(w, op).value.pending == w.pending
  {
    hide Core, Stored, Filled, Reset, Fill, FillFrom, MoveInto;
    match op
    case OpMoveAssign(l, rhs) =>
      y := x;
      if l != rhs {
        y := ResetKeeps(w, x, l);
        y := MoveIntoKeeps(Reset(w, l).value, y, l, rhs);
      }
    case OpCopy(l, that) =>
      y := ResetKeeps(w, x, l);
      y := FillFromKeeps(Reset(w, l).value, y, l, that);
    case OpReset(l) =>
      y := ResetKeeps(w, x, l);
    case OpResetToLocal(l, local) =>
      y := ResetKeeps(w, x, l);
      if local.Some? {
        y := FillKeeps(Reset(w, l).value, y, l, local.value);
      }
    case OpSetWeak(l) =>
      HandleCell(w, x, l);
      y := TweakKeeps(w, x, l, SetWeak(w, l).value.nodes[w.vals[l]]);
    case OpClearWeak(l) =>
      HandleCell(w, x, l);
      y := TweakKeeps(w, x, l, ClearWeak(w, l).value.nodes[w.vals[l]]);
    case OpDestroyHandle(l) =>
      y := ResetKeeps(w, x, l);
      ForgetKeeps(Reset(w, l).value, y, l);
  }

  lemma ContainerStepKeeps(w: World, x: Witness, op: Op) returns (y: Witness)
    requires Good(w, x) && w.pending == [] && Legal(w, op) && !IsConstruction(op) && !IsUpdate(op)
    requires !op.OpGc? && !op.OpSecondPass?
    ensures Step(w, op).Done? && Good(Step(w, op).value, y) && Step(w, op).value.pending == []
  {
    hide Core, Stored, Filled;
    y := x;
    match op
    case OpNewMap(m, t) => NewMapKeeps(w, x, m, t);
    case OpSet(m, k, l, out) =>
      HandleCell(w, x, l);
      y := MapSetKeeps(w, x, m, k, l, out);
    case OpRemove(m, k, out) => y := MapRemoveKeeps(w, x, m, k, out);
    case OpBeginRound(m) => y := BeginRoundKeeps(w, x, m);
    case OpDrainOne(k, out) => y := DrainOneKeeps(w, x, k, out);
    case OpEndRound => EndRoundKeeps(w, x);
    case OpDestroyMap(m) => DestroyMapKeeps(w, x, m);
    case OpNewVector(v) => NewVectorKeeps(w, x, v);
    case OpAppend(v, l) => y := AppendKeeps(w, x, v, l);
    case OpVectorClear(v) =>
      y := VectorClearKeeps(w, x, v);
      DestroyAllPending(w, w.vectors[v]);
    case OpDestroyVector(v) =>
      y := VectorClearKeeps(w, x, v);
      DestroyAllPending(w, w.vectors[v]);
      ForgetVectorKeeps(VectorClear(w, v).value, y, v);
  }

  lemma StepKeeps(w: World, x: Witness, op: Op) returns (y: Witness)
    requires Good(w, x) && w.pending == [] && Legal(w, op)
    ensures Step(w, op).Done? && Good(Step(w, op).value, y) && Step(w, op).value.pending == []
  {
    hide Core, Stored, Filled, Gc, GcSafe;
    if IsConstruction(op) {
      y := ConstructionKeeps(w, x, op);
    } else if IsUpdate(op) {
      y := UpdateKeeps(w, x, op);
    } else if op.OpGc? {
      y := GcFaultsExactly(w, x, op.visit, op.dead);
    } else if op.OpSecondPass? {
      y := SecondPassKeeps(w, x);
    } else {
      y := ContainerStepKeeps(w, x, op);
    }
  }

  function Run(w: World, ops: seq<Op>): Outcome<World>
    decreases |ops|
  {
    if ops == [] then Done(w)
    else
      var w1 :- Step(w, ops[0]);
      Run(w1, ops[1..])
  }

  ghost predicate LegalRun(w: World, ops: seq<Op>)
    decreases |ops|
  {
    ops != [] ==> Legal(w, ops[0]) && (Step(w, ops[0]).Done? ==> LegalRun(Step(w, ops[0]).value, ops[1..]))
  }

  /** Every legal run goes through without a fault and ends in a good world. */
  lemma {:induction false} RunKeeps(w: World, x: Witness, ops: seq<Op>) returns (y: Witness)
    requires Good(w, x) && w.pending == [] && LegalRun(w, ops)
    ensures Run(w, ops).Done? && Good(Run(w, ops).value, y) && Run(w, ops).value.pending == []
    decreases |ops|
  {
    hide Core, Stored, Filled, Step, Legal;
    y := x;
    if ops != [] {
      y := StepKeeps(w, x, ops[0]);
      y := RunKeeps(Step(w, ops[0]).value, y, ops[1..]);
    }
  }
}
