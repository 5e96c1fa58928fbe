/** What a garbage collection does to weak cells: one scan, the first-pass callbacks inside
    the collection, and second-pass callbacks some time later. */
module Collector {
  import opened Cells
  import opened Containers

  /** `ResetWeakNodeIfDead` on one node. The collector may ask about any node of the space;
      `dead` is its verdict on the object each node holds. */
  function Visit(w: World, a: Address, dead: set<Address>): Outcome<World> {
    if a !in w.nodes then Fault
    else
      var n := w.nodes[a];
      if n.state != Weak || a !in dead then Done(w)
      else if n.weakness == NoCallback then ResetPhantom(w, a)
      else Collect(w, a)
  }

  /** `ResetPhantomHandle`: writes null to the recorded location and frees the node. */
  function ResetPhantom(w: World, a: Address): Outcome<World>
    requires a in w.nodes
  {
    match w.nodes[a].payload
    case Param(Slot(l)) => if l in w.vals then Destroy(w.(vals := w.vals[l := NULL]), a) else Fault
    case _ => Fault
  }

  /** `CollectPhantomCallbackData`: queues the callback and takes the node out of the weak state. */
  function Collect(w: World, a: Address): Outcome<World>
    requires a in w.nodes
  {
    var n := w.nodes[a];
    match n.payload
    case Param(CallbackData(p)) =>
      if n.callback.None? then Fault
      else
        Done(WithCell(w, a, n.(state := NearDeath, contents := CalledOut))
             .(pending := w.pending + [Pending(a, p, n.callback.value)]))
    case _ => Fault
  }

  function Scan(w: World, visit: seq<Address>, dead: set<Address>): Outcome<World>
    decreases |visit|
  {
    if visit == [] then Done(w)
    else
      var w1 :- Visit(w, visit[0], dead);
      Scan(w1, visit[1..], dead)
  }

  /** `PersistentValueMap::WeakCallback`: `Remove(key)`, `Dispose` of the removed value (which
      must not outlive the callback), then `DisposeCallbackData`. */
  function PersistentCallback(w: World, p: ParamId): Outcome<World> {
    if p >= |w.params| || !IsMap(w, w.params[p].mapId) then Fault
    else
      var ParamRecord(m, k) := w.params[p];
      var impl := w.impls[m];
      var w1 :- Release(WithImpl(w, m, impl - {k}), w.traits[m].callbackKind, Lookup(impl, k));
      var w2 :- Destroy(w1, Lookup(impl, k));
      Done(DisposeData(w2, p))
  }

  /** `GlobalValueMap::OnWeakCallback`: `RemoveWeak(key)`, then `SetSecondPassCallback`. */
  function GlobalCallback(w: World, p: ParamId): Outcome<World> {
    if p >= |w.params| || !IsMap(w, w.params[p].mapId) then Fault
    else
      var ParamRecord(m, k) := w.params[p];
      var impl := w.impls[m];
      var w1 :- Destroy(WithImpl(w, m, impl - {k}), Lookup(impl, k));
      Done(w1.(second := w1.second + [p]))
  }

  /** One iteration of `InvokeFirstPassWeakCallbacks`, with its CHECK that the callback has
      reset the handle. */
  function InvokeFirst(w: World): (r: Outcome<World>)
    requires w.pending != []
    ensures r.Done? ==> r.value.pending == w.pending[1..]
  {
    var Pending(a, p, cls) := w.pending[0];
    var w0 := w.(pending := w.pending[1..], log := w.log + [FirstPass(p)]);
    var w1 :- if cls == PersistentValueMap then PersistentCallback(w0, p) else GlobalCallback(w0, p);
    if a in w1.nodes && w1.nodes[a].state == Free then Done(w1) else Fault
  }

  function FirstPasses(w: World): Outcome<World>
    decreases |w.pending|
  {
    if w.pending == [] then Done(w)
    else
      var w1 :- InvokeFirst(w);
      FirstPasses(w1)
  }

  /** One collection, up to and including its first-pass callbacks. */
  function Gc(w: World, visit: seq<Address>, dead: set<Address>): Outcome<World> {
    var w1 :- Scan(w, visit, dead);
    FirstPasses(w1)
  }

  /** One iteration of `InvokeSecondPassPhantomCallbacks`: the last queued callback runs
      `DisposeWeak`. */
  function SecondPass(w: World): Outcome<World> {
    if w.second == [] then Fault
    else
      var p := w.second[|w.second| - 1];
      Done(w.(second := w.second[..|w.second| - 1], log := w.log + [WeakDisposed(p)]))
  }
}
