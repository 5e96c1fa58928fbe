/** The storage cells behind `v8::Global`, and the memory of an embedder that uses them.

    A `World` is one snapshot of everything the handle protocol touches: the node space of
    `GlobalHandles`, the `val_` fields of all handle objects (a handle object is identified
    by the location of its `val_`, exactly as `MakeWeak(Address**)` identifies it), the
    backing stores of all containers, the callback data, and the queues of pending callbacks.

    Operations return an `Outcome`. `Fault` stands for a failed CHECK, a null dereference or
    the use of an object outside its lifetime. */
module Cells {
  /** A JavaScript object; only its identity matters here. */
  type Object(==, !new)
  /** The key type `K` of a map; keys are only ever compared for equality. */
  type Key(==, !new)

  type Address = nat   // NULL, or the address of a node
  type Location = nat  // where the `val_` field of a handle object lives
  type MapId = nat
  type VectorId = nat
  type ParamId = nat

  const NULL: Address := 0
  const BLOCK_SIZE := 256

  datatype Option<+T> = None | Some(value: T)

  datatype Outcome<+T> = Done(value: T) | Fault {
    predicate IsFailure() {
      Fault?
    }
    function PropagateFailure<U>(): Outcome<U>
      requires Fault?
    {
      Fault
    }
    function Extract(): T
      requires Done?
    {
      value
    }
  }

  datatype State = Free | Normal | Weak | NearDeath
  datatype WeaknessType = WithCallback | WithCallbackAndFields | NoCallback
  datatype Contents = Zapped | CalledOut | Holds(it: Object)
  datatype CallbackKind = NotWeak | WeakWithParameter | WeakWithInternalFields
  datatype MapClass = PersistentValueMap | GlobalValueMap

  datatype Parameter =
    | NullParameter
    | Label(name: string)
    | Slot(location: Location)
    | CallbackData(id: ParamId)

  /** The union `data_` of a node. */
  datatype Payload = NextFree(next: Address) | Param(parameter: Parameter)

  datatype Node = Node(state: State, contents: Contents, weakness: WeaknessType,
                       callback: Option<MapClass>, payload: Payload)

  datatype Pending = Pending(node: Address, param: ParamId, callback: MapClass)

  /** What `Traits::WeakCallbackParameter(map, key, value)` remembers. */
  datatype ParamRecord = ParamRecord(mapId: MapId, key: Key)

  /** The parts of a map object that never change: its class, the callback kind of its traits
      and its label. */
  datatype Traits = Traits(mapClass: MapClass, callbackKind: CallbackKind, name: string)

  /** The local `impl` of one round of a running `Clear`: what is still to be released. */
  datatype Frame = Frame(mapId: MapId, rest: map<Key, Address>)

  datatype Event =
    | Created(address: Address)
    | Destroyed(address: Address)
    | FirstPass(param: ParamId)
    | DataDisposed(param: ParamId)
    | WeakDisposed(param: ParamId)

  datatype World = World(
    nodes: map<Address, Node>,
    top: nat,  // number of nodes ever added; their addresses are 1 to top
    firstFree: Address,
    count: int,
    pending: seq<Pending>,
    second: seq<ParamId>,
    vals: map<Location, Address>,
    traits: map<MapId, Traits>,
    impls: map<MapId, map<Key, Address>>,
    frames: seq<Frame>,
    vectors: map<VectorId, seq<Address>>,
    params: seq<ParamRecord>,
    log: seq<Event>)

  const EMPTY: World := World(map[], 0, NULL, 0, [], [], map[], map[], map[], [], map[], [], [])

  predicate InUse(w: World, a: Address) {
    a in w.nodes && w.nodes[a].state != Free
  }

  function WithCell(w: World, a: Address, n: Node): World {
    w.(nodes := w.nodes[a := n])
  }

  /** A cell that the collector resets by itself, writing null to the recorded location. */
  predicate IsPhantom(n: Node) {
    n.state == Weak && n.weakness == NoCallback
  }

  // ---------------------------------------------------------------- node space

  function FreeNode(next: Address): Node {
    Node(Free, Zapped, WithCallback, None, NextFree(next))
  }

  predicate InBlock(top: nat, a: Address) {
    top < a <= top + BLOCK_SIZE
  }

  /** A new block: every node is free and links to the next one, the last one to nothing. */
  function NewBlock(top: nat): map<Address, Node> {
    map a: Address | a <= top + BLOCK_SIZE && InBlock(top, a) ::
      FreeNode(if a == top + BLOCK_SIZE then NULL else a + 1)
  }

  function Grown(w: World): World {
    if w.firstFree != NULL then w
    else w.(nodes := w.nodes + NewBlock(w.top), top := w.top + BLOCK_SIZE, firstFree := w.top + 1)
  }

  /** `GlobalHandles::Create`: takes the first free node and publishes `c` in it. */
  function Create(w: World, c: Contents): Outcome<(World, Address)> {
    var g := Grown(w);
    var a := g.firstFree;
    if a !in g.nodes || !g.nodes[a].payload.NextFree? then Fault
    else
      var n := g.nodes[a].(state := Normal, contents := c, payload := Param(NullParameter));
      Done((WithCell(g, a, n).(firstFree := g.nodes[a].payload.next, count := g.count + 1,
                               log := g.log + [Created(a)]), a))
  }

  /** `GlobalHandles::Destroy`: CHECKs that the node is in use and puts it on the free list. */
  function Destroy(w: World, a: Address): Outcome<World> {
    if a == NULL then Done(w)
    else if !InUse(w, a) then Fault
    else
      var n := w.nodes[a].(state := Free, contents := Zapped, callback := None,
                           payload := NextFree(w.firstFree));
      Done(WithCell(w, a, n).(firstFree := a, count := w.count - 1, log := w.log + [Destroyed(a)]))
  }

  /** `Node::MakeWeak` with a callback. */
  function MakeWeak(w: World, a: Address, p: ParamId, cls: MapClass, kind: CallbackKind): Outcome<World> {
    if !InUse(w, a) || w.nodes[a].contents == Zapped then Fault
    else
      var weakness := if kind == WeakWithInternalFields then WithCallbackAndFields else WithCallback;
      Done(WithCell(w, a, w.nodes[a].(state := Weak, weakness := weakness, callback := Some(cls),
                                      payload := Param(CallbackData(p)))))
  }

  /** `Node::MakeWeak(Address**)`: weak without a callback, remembering where the handle is. */
  function MakePhantom(w: World, a: Address, l: Location): Outcome<World> {
    if !InUse(w, a) || w.nodes[a].contents == Zapped then Fault
    else Done(WithCell(w, a, w.nodes[a].(state := Weak, weakness := NoCallback, callback := None,
                                         payload := Param(Slot(l)))))
  }

  /** `Node::ClearWeakness`; its result is the parameter the node had. */
  function ClearWeakness(w: World, a: Address): Outcome<World> {
    if !InUse(w, a) then Fault
    else Done(WithCell(w, a, w.nodes[a].(state := Normal, payload := Param(NullParameter))))
  }

  /** `GlobalHandles::MoveGlobal`: only phantom nodes record where their handle lives. */
  function MoveGlobal(w: World, a: Address, to: Location): Outcome<World> {
    if a !in w.nodes then Fault
    else if IsPhantom(w.nodes[a]) then Done(WithCell(w, a, w.nodes[a].(payload := Param(Slot(to)))))
    else Done(w)
  }

  function Annotate(w: World, a: Address, name: string): Outcome<World> {
    if a !in w.nodes then Fault
    else Done(WithCell(w, a, w.nodes[a].(payload := Param(Label(name)))))
  }
}
