/** `PersistentValueMap`, `GlobalValueMap` and `PersistentValueVector`: containers that keep
    bare cell addresses and own the cells behind them. */
module Containers {
  import opened Cells

  /** `StdMapTraits::Get`. */
  function Lookup(impl: map<Key, Address>, k: Key): Address {
    if k in impl then impl[k] else NULL
  }

  function WithImpl(w: World, m: MapId, impl: map<Key, Address>): World
  {
    w.(impls := w.impls[m := impl])
  }

  /** `Traits::DisposeCallbackData`. */
  function DisposeData(w: World, p: ParamId): World {
    w.(log := w.log + [DataDisposed(p)])
  }

  /** `Release`: a weak cell is disarmed and its callback data disposed. The caller puts the
      address into a `Global`. */
  function Release(w: World, kind: CallbackKind, a: Address): Outcome<World> {
    if kind == NotWeak || a == NULL then Done(w)
    else if a !in w.nodes then Fault
    else if w.nodes[a].state != Weak then Done(w)
    else
      match w.nodes[a].payload
      case Param(CallbackData(p)) =>
        var w1 :- ClearWeakness(w, a);
        Done(DisposeData(w1, p))
      case _ => Fault
  }

  /** The first half of `SetUnique`: the cell is labelled, or armed for key `k`. */
  function Arm(w: World, m: MapId, k: Key, a: Address): Outcome<World>
    requires m in w.traits
  {
    var t := w.traits[m];
    if t.callbackKind == NotWeak then Annotate(w, a, t.name)
    else MakeWeak(w.(params := w.params + [ParamRecord(m, k)]), a, |w.params|, t.mapClass, t.callbackKind)
  }

  predicate IsMap(w: World, m: MapId) {
    m in w.traits && m in w.impls
  }

  /** `Set`/`SetUnique`: moves the cell of `l` under `k`; the result `Global` is at `out`. */
  function MapSet(w: World, m: MapId, k: Key, l: Location, out: Location): Outcome<World> {
    if !IsMap(w, m) || l !in w.vals || out in w.vals then Fault
    else
      var impl := w.impls[m];
      var w1 :- Arm(w, m, k, w.vals[l]);
      var w2 := WithImpl(w1, m, impl[k := w.vals[l]]).(vals := w.vals[l := NULL]);
      var w3 :- Release(w2, w.traits[m].callbackKind, Lookup(impl, k));
      Done(w3.(vals := w3.vals[out := Lookup(impl, k)]))
  }

  /** `Remove`: the result `Global` is at `out`. */
  function MapRemove(w: World, m: MapId, k: Key, out: Location): Outcome<World> {
    if !IsMap(w, m) || out in w.vals then Fault
    else
      var impl := w.impls[m];
      var w1 :- Release(WithImpl(w, m, impl - {k}), w.traits[m].callbackKind, Lookup(impl, k));
      Done(w1.(vals := w1.vals[out := Lookup(impl, k)]))
  }

  /** One round of `Clear` starts: the backing map is swapped with an empty one. */
  function BeginRound(w: World, m: MapId): Outcome<World> {
    if !IsMap(w, m) then Fault
    else Done(WithImpl(w, m, map[]).(frames := w.frames + [Frame(m, w.impls[m])]))
  }

  /** The round reaches key `k`: its cell is released and `Traits::Dispose` is entered with it
      at `out`. What `Dispose` does comes next; it ends with the destruction of `out`. */
  function DrainOne(w: World, k: Key, out: Location): Outcome<World> {
    if |w.frames| == 0 || out in w.vals then Fault
    else
      var top := |w.frames| - 1;
      var f := w.frames[top];
      if k !in f.rest || f.mapId !in w.traits then Fault
      else
        var w1 :- Release(w.(frames := w.frames[top := f.(rest := f.rest - {k})]),
                          w.traits[f.mapId].callbackKind, f.rest[k]);
        Done(w1.(vals := w1.vals[out := f.rest[k]]))
  }

  /** The round has visited every entry. */
  function EndRound(w: World): Outcome<World> {
    if |w.frames| == 0 || w.frames[|w.frames| - 1].rest != map[] then Fault
    else Done(w.(frames := w.frames[..|w.frames| - 1]))
  }

  function NewMap(w: World, m: MapId, t: Traits): Outcome<World> {
    if m in w.traits || m in w.impls then Fault
    else Done(w.(traits := w.traits[m := t], impls := w.impls[m := map[]]))
  }

  /** The end of `~PersistentValueMapBase`, after its `Clear` has returned. */
  function DestroyMap(w: World, m: MapId): Outcome<World> {
    if !IsMap(w, m) || w.impls[m] != map[] then Fault
    else Done(w.(traits := w.traits - {m}, impls := w.impls - {m}))
  }

  /** `PersistentValueVector::Append(Global)`. */
  function Append(w: World, v: VectorId, l: Location): Outcome<World> {
    if v !in w.vectors || l !in w.vals then Fault
    else Done(w.(vectors := w.vectors[v := w.vectors[v] + [w.vals[l]]], vals := w.vals[l := NULL]))
  }

  /** Destroys the cells one after the other, as temporaries `Global p` do in a loop. */
  function DestroyAll(w: World, cells: seq<Address>): Outcome<World>
    decreases |cells|
  {
    if cells == [] then Done(w)
    else
      var w1 :- Destroy(w, cells[0]);
      DestroyAll(w1, cells[1..])
  }

  /** `PersistentValueVector::Clear`. */
  function VectorClear(w: World, v: VectorId): Outcome<World> {
    if v !in w.vectors then Fault
    else
      var w1 :- DestroyAll(w, w.vectors[v]);
      Done(w1.(vectors := w1.vectors[v := []]))
  }

  function NewVector(w: World, v: VectorId): Outcome<World> {
    if v in w.vectors then Fault else Done(w.(vectors := w.vectors[v := []]))
  }

  function DestroyVector(w: World, v: VectorId): Outcome<World> {
    var w1 :- VectorClear(w, v);
    Done(w1.(vectors := w1.vectors - {v}))
  }
}
