/** The invariant of the cell protocol: every cell in use has exactly one owner, its weakness
    fits that owner, and every piece of callback data is in exactly one place. */
module Ownership {
  import opened Cells
  import opened Containers

  datatype Place =
    | InHandle(location: Location)
    | InMap(mapId: MapId, key: Key)
    | InFrame(frame: nat, mapId: MapId, key: Key)
    | InVector(vector: VectorId, index: nat)

  datatype Whereabouts = AtCell(address: Address) | Queued(position: nat) | Finished

  /** Witnesses for the invariant: the free list, the cell held at each place and, inversely,
      the owner of each cell, and where each piece of callback data is. */
  datatype Witness = Witness(free: seq<Address>, held: map<Place, Address>,
                             owner: map<Address, Place>, data: seq<Whereabouts>)

  /** The address kept at a place; NULL if there is none. */
  function CellAt(w: World, p: Place): Address {
    match p
    case InHandle(l) => if l in w.vals then w.vals[l] else NULL
    case InMap(m, k) => if m in w.impls then Lookup(w.impls[m], k) else NULL
    case InFrame(i, m, k) =>
      if i < |w.frames| && w.frames[i].mapId == m then Lookup(w.frames[i].rest, k) else NULL
    case InVector(v, i) => if v in w.vectors && i < |w.vectors[v]| then w.vectors[v][i] else NULL
  }

  function HeldAt(held: map<Place, Address>, p: Place): Address {
    if p in held then held[p] else NULL
  }

  /** `held` lists exactly the places that keep an address. */
  ghost predicate Stored(w: World, held: map<Place, Address>) {
    forall p: Place :: CellAt(w, p) == HeldAt(held, p)
  }

  function LinkAt(free: seq<Address>, i: nat): Address {
    if i < |free| then free[i] else NULL
  }

  ghost predicate Chained(nodes: map<Address, Node>, free: seq<Address>) {
    forall i: nat :: i < |free| ==>
      && free[i] in nodes
      && nodes[free[i]].state == Free
      && nodes[free[i]].payload == NextFree(LinkAt(free, i + 1))
  }

  ghost predicate Distinct(free: seq<Address>) {
    forall i: nat, j: nat :: i < j < |free| ==> free[i] != free[j]
  }

  ghost predicate Complete(nodes: map<Address, Node>, top: nat, free: seq<Address>) {
    forall a :: a in nodes ==> 1 <= a <= top && (nodes[a].state == Free ==> a in free)
  }

  /** The free nodes form one list without repetition, linked through their payloads. */
  ghost predicate FreeListed(nodes: map<Address, Node>, top: nat, firstFree: Address, free: seq<Address>) {
    firstFree == LinkAt(free, 0) && Chained(nodes, free) && Distinct(free) && Complete(nodes, top, free)
  }

  /** The cells in use correspond one to one to the places that keep an address. */
  ghost predicate Owned(nodes: map<Address, Node>, held: map<Place, Address>, owner: map<Address, Place>) {
    && owner.Keys <= nodes.Keys
    && (forall a :: a in nodes ==> (a in owner <==> nodes[a].state != Free))
    && (forall a :: a in owner ==> owner[a] in held && held[owner[a]] == a)
    && (forall p :: p in held ==> held[p] in owner && owner[held[p]] == p)
  }

  /** The cell of an entry is labelled for its strong map; or armed for its key, in the way the
      traits of its weak map ask for, or its callback is about to run. */
  predicate ArmedFor(t: Traits, n: Node, a: Address, r: ParamRecord,
                     params: seq<ParamRecord>, data: seq<Whereabouts>)
  {
    if t.callbackKind == NotWeak then n.state == Normal && n.payload == Param(Label(t.name))
    else
      && (n.state == Weak || n.state == NearDeath)
      && n.weakness == (if t.callbackKind == WeakWithInternalFields then WithCallbackAndFields else WithCallback)
      && n.callback == Some(t.mapClass)
      && n.payload.Param? && n.payload.parameter.CallbackData?
      && var p := n.payload.parameter.id;
         p < |params| && p < |data| && params[p] == r && data[p] == AtCell(a)
  }

  /** What the owner of a cell implies about the cell. */
  predicate FitsOwner(traits: map<MapId, Traits>, params: seq<ParamRecord>, data: seq<Whereabouts>,
                      n: Node, a: Address, p: Place)
  {
    match p
    case InHandle(l) => n.state == Normal || (IsPhantom(n) && n.payload == Param(Slot(l)))
    case InMap(m, k) => m in traits && ArmedFor(traits[m], n, a, ParamRecord(m, k), params, data)
    case InFrame(i, m, k) => m in traits && ArmedFor(traits[m], n, a, ParamRecord(m, k), params, data)
    case InVector(_, _) => n.state == Normal
  }

  ghost predicate Disciplined(nodes: map<Address, Node>, traits: map<MapId, Traits>,
                              params: seq<ParamRecord>, data: seq<Whereabouts>, owner: map<Address, Place>)
  {
    && (forall a :: a in owner ==> a in nodes && FitsOwner(traits, params, data, nodes[a], a, owner[a]))
    && (forall a :: a in nodes && (nodes[a].state == Normal || nodes[a].state == Weak) ==>
          nodes[a].contents.Holds?)
  }

  /** Callback data is attached to one weak cell, or waits once for its second pass, or has
      been disposed once. */
  ghost predicate DataTracked(nodes: map<Address, Node>, second: seq<ParamId>, data: seq<Whereabouts>) {
    && (forall p: ParamId :: p < |data| ==>
          match data[p]
          case AtCell(a) =>
            && a in nodes
            && (nodes[a].state == Weak || nodes[a].state == NearDeath)
            && nodes[a].payload == Param(CallbackData(p))
          case Queued(i) => i < |second| && second[i] == p
          case Finished => true)
    && (forall i: nat :: i < |second| ==> second[i] < |data| && data[second[i]] == Queued(i))
  }

  /** Exactly the near-death cells have a pending callback, and each has one. */
  ghost predicate PendingListed(nodes: map<Address, Node>, pending: seq<Pending>) {
    && (forall i: nat :: i < |pending| ==>
          && pending[i].node in nodes
          && nodes[pending[i].node].state == NearDeath
          && nodes[pending[i].node].payload == Param(CallbackData(pending[i].param))
          && nodes[pending[i].node].callback == Some(pending[i].callback))
    && (forall i: nat, j: nat :: i < j < |pending| ==> pending[i].node != pending[j].node)
    && (forall a :: a in nodes && nodes[a].state == NearDeath ==>
          exists i: nat :: i < |pending| && pending[i].node == a)
  }

  /** Every cell that was created has been destroyed, except those in use, which lack exactly
      one destruction; finished callback data was disposed once, other data never. */
  ghost predicate Accounted(nodes: map<Address, Node>, log: multiset<Event>, data: seq<Whereabouts>) {
    && (forall a: Address :: log[Created(a)] ==
                             log[Destroyed(a)] + (if a in nodes && nodes[a].state != Free then 1 else 0))
    && (forall p: ParamId :: log[DataDisposed(p)] + log[WeakDisposed(p)] ==
                             if p < |data| && data[p] == Finished then 1 else 0)
  }

  /** Everything except where addresses are stored. */
  ghost predicate Core(w: World, x: Witness) {
    && FreeListed(w.nodes, w.top, w.firstFree, x.free)
    && Owned(w.nodes, x.held, x.owner)
    && w.count == |x.owner|
    && Disciplined(w.nodes, w.traits, w.params, x.data, x.owner)
    && |x.data| == |w.params|
    && DataTracked(w.nodes, w.second, x.data)
    && PendingListed(w.nodes, w.pending)
    && Accounted(w.nodes, multiset(w.log), x.data)
  }

  /** Maps only hold non-empty handles. */
  ghost predicate Filled(w: World) {
    && (forall m, k :: m in w.impls && k in w.impls[m] ==> w.impls[m][k] != NULL)
    && (forall i: nat, k :: i < |w.frames| && k in w.frames[i].rest ==> w.frames[i].rest[k] != NULL)
  }

  ghost predicate Good(w: World, x: Witness) {
    Core(w, x) && Stored(w, x.held) && Filled(w)
  }

  /** Only the stored addresses differ. */
  ghost predicate SameCore(w: World, r: World) {
    && r.nodes == w.nodes && r.top == w.top && r.firstFree == w.firstFree && r.count == w.count
    && r.pending == w.pending && r.second == w.second
    && r.traits == w.traits && r.params == w.params && r.log == w.log
  }

  lemma CoreKept(w: World, r: World, x: Witness)
    requires Core(w, x) && SameCore(w, r)
    ensures Core(r, x)
  {
    hide FreeListed, Owned, Disciplined, DataTracked, PendingListed, Accounted;
  }

  lemma EmptyIsGood()
    ensures Good(EMPTY, Witness([], map[], map[], []))
  {
  }

  // ------------------------------------------------- where addresses are stored

  /** Place `q` now keeps `a`; every other place is as before. */
  ghost predicate Rewritten(w: World, r: World, q: Place, a: Address) {
    forall p: Place :: CellAt(r, p) == if p == q then a else CellAt(w, p)
  }

  /** What `from` kept is now kept at `to`. */
  ghost predicate Relocated(w: World, r: World, from: Place, to: Place) {
    forall p: Place :: CellAt(r, p) ==
                       if p == to then CellAt(w, from) else if p == from then NULL else CellAt(w, p)
  }

  lemma StoredAdded(w: World, r: World, held: map<Place, Address>, q: Place, a: Address)
    requires Stored(w, held) && Rewritten(w, r, q, a)
    ensures Stored(r, held[q := a])
    ensures a == NULL ==> Stored(r, held - {q})
  {
    hide CellAt;
    forall p: Place
      ensures CellAt(r, p) == HeldAt(held[q := a], p)
      ensures a == NULL ==> CellAt(r, p) == HeldAt(held - {q}, p)
    {
      assert CellAt(w, p) == HeldAt(held, p);
    }
  }

  lemma StoredMoved(w: World, r: World, held: map<Place, Address>, from: Place, to: Place)
    requires Stored(w, held) && from in held && Relocated(w, r, from, to)
    ensures Stored(r, (held - {from})[to := held[from]])
  {
    hide CellAt;
    forall p: Place ensures CellAt(r, p) == HeldAt((held - {from})[to := held[from]], p) {
      assert CellAt(w, p) == HeldAt(held, p) && CellAt(w, from) == HeldAt(held, from);
    }
  }

  lemma StoredSame(w: World, r: World, held: map<Place, Address>)
    requires Stored(w, held) && forall p: Place :: CellAt(r, p) == CellAt(w, p)
    ensures Stored(r, held)
  {
    hide CellAt;
  }

  // ------------------------------------------------- generic steps, component by component

  lemma FreeListKept(nodes: map<Address, Node>, top: nat, first: Address, free: seq<Address>, a: Address, n: Node)
    requires FreeListed(nodes, top, first, free) && a in nodes && nodes[a].state != Free && n.state != Free
    ensures FreeListed(nodes[a := n], top, first, free)
  {
  }

  lemma FreeListPush(nodes: map<Address, Node>, top: nat, first: Address, free: seq<Address>, a: Address, n: Node)
    requires FreeListed(nodes, top, first, free) && a in nodes && nodes[a].state != Free
    requires n.state == Free && n.payload == NextFree(first)
    ensures FreeListed(nodes[a := n], top, a, [a] + free)
  {
    hide Chained, Distinct, Complete;
    ChainedPush(nodes, free, a, n);
    CompletePush(nodes, top, free, a, n);
  }

  lemma ChainedPush(nodes: map<Address, Node>, free: seq<Address>, a: Address, n: Node)
    requires Chained(nodes, free) && Distinct(free) && a in nodes && nodes[a].state != Free
    requires n.state == Free && n.payload == NextFree(LinkAt(free, 0))
    ensures Chained(nodes[a := n], [a] + free) && Distinct([a] + free)
  {
    var free' := [a] + free;
    assert forall i: nat :: 0 < i < |free'| ==> free'[i] == free[i - 1];
    assert forall i: nat :: 0 < i ==> LinkAt(free', i) == LinkAt(free, i - 1);
  }

  lemma CompletePush(nodes: map<Address, Node>, top: nat, free: seq<Address>, a: Address, n: Node)
    requires Complete(nodes, top, free) && a in nodes
    ensures Complete(nodes[a := n], top, [a] + free)
  {
  }

  lemma FreeListPop(nodes: map<Address, Node>, top: nat, free: seq<Address>, n: Node)
    requires free != [] && FreeListed(nodes, top, free[0], free) && n.state != Free
    ensures free[0] in nodes && nodes[free[0]].payload.NextFree?
    ensures FreeListed(nodes[free[0] := n], top, nodes[free[0]].payload.next, free[1..])
  {
    hide Chained, Distinct, Complete;
    ChainedPop(nodes, free, n);
    CompletePop(nodes, top, free, n);
  }

  lemma ChainedPop(nodes: map<Address, Node>, free: seq<Address>, n: Node)
    requires free != [] && Chained(nodes, free) && Distinct(free)
    ensures free[0] in nodes && nodes[free[0]].payload == NextFree(LinkAt(free[1..], 0))
    ensures Chained(nodes[free[0] := n], free[1..]) && Distinct(free[1..])
  {
    var tail := free[1..];
    assert forall i: nat :: i < |tail| ==> tail[i] == free[i + 1];
    assert forall i: nat :: LinkAt(tail, i) == LinkAt(free, i + 1);
  }

  lemma CompletePop(nodes: map<Address, Node>, top: nat, free: seq<Address>, n: Node)
    requires free != [] && Complete(nodes, top, free) && free[0] in nodes && n.state != Free
    ensures Complete(nodes[free[0] := n], top, free[1..])
  {
    assert free == [free[0]] + free[1..];
  }

  lemma OwnedMoved(nodes: map<Address, Node>, held: map<Place, Address>, owner: map<Address, Place>,
                   a: Address, n: Node, q: Place)
    requires Owned(nodes, held, owner) && a in owner && n.state != Free
    requires q !in held || q == owner[a]
    ensures Owned(nodes[a := n], (held - {owner[a]})[q := a], owner[a := q])
    ensures |owner[a := q]| == |owner|
  {
    assert owner[a := q].Keys == owner.Keys;
  }

  lemma OwnedDropped(nodes: map<Address, Node>, held: map<Place, Address>, owner: map<Address, Place>,
                     a: Address, n: Node)
    requires Owned(nodes, held, owner) && a in owner && n.state == Free
    ensures Owned(nodes[a := n], held - {owner[a]}, owner - {a})
    ensures |owner - {a}| == |owner| - 1
  {
    assert owner.Keys == (owner - {a}).Keys + {a};
  }

  lemma OwnedAdded(nodes: map<Address, Node>, held: map<Place, Address>, owner: map<Address, Place>,
                   a: Address, n: Node, q: Place)
    requires Owned(nodes, held, owner) && a in nodes && a !in owner && n.state != Free && q !in held
    ensures Owned(nodes[a := n], held[q := a], owner[a := q])
    ensures |owner[a := q]| == |owner| + 1
  {
    assert owner[a := q].Keys == owner.Keys + {a};
  }

  lemma DisciplineMoved(nodes: map<Address, Node>, traits: map<MapId, Traits>, params: seq<ParamRecord>,
                        data: seq<Whereabouts>, owner: map<Address, Place>, a: Address, n: Node, q: Place)
    requires Disciplined(nodes, traits, params, data, owner) && FitsOwner(traits, params, data, n, a, q)
    requires (n.state == Normal || n.state == Weak) ==> n.contents.Holds?
    ensures Disciplined(nodes[a := n], traits, params, data, owner[a := q])
  {
    hide FitsOwner;
  }

  lemma DisciplineDropped(nodes: map<Address, Node>, traits: map<MapId, Traits>, params: seq<ParamRecord>,
                          data: seq<Whereabouts>, owner: map<Address, Place>, a: Address, n: Node)
    requires Disciplined(nodes, traits, params, data, owner) && n.state == Free
    ensures Disciplined(nodes[a := n], traits, params, data, owner - {a})
  {
    hide FitsOwner;
  }

  ghost predicate CarriesNoData(data: seq<Whereabouts>, a: Address) {
    forall p: ParamId :: p < |data| ==> data[p] != AtCell(a)
  }

  lemma DataKept(nodes: map<Address, Node>, second: seq<ParamId>, data: seq<Whereabouts>, a: Address, n: Node)
    requires DataTracked(nodes, second, data) && CarriesNoData(data, a)
    ensures DataTracked(nodes[a := n], second, data)
  {
  }

  lemma PendingKept(nodes: map<Address, Node>, pending: seq<Pending>, a: Address, n: Node)
    requires PendingListed(nodes, pending) && n.state != NearDeath
    requires a in nodes ==> nodes[a].state != NearDeath
    ensures PendingListed(nodes[a := n], pending)
  {
  }

  lemma AccountsKept(nodes: map<Address, Node>, log: multiset<Event>, data: seq<Whereabouts>, a: Address, n: Node)
    requires Accounted(nodes, log, data) && a in nodes && nodes[a].state != Free && n.state != Free
    ensures Accounted(nodes[a := n], log, data)
  {
  }

  lemma AccountsDropped(nodes: map<Address, Node>, log: multiset<Event>, data: seq<Whereabouts>, a: Address, n: Node)
    requires Accounted(nodes, log, data) && a in nodes && nodes[a].state != Free && n.state == Free
    ensures Accounted(nodes[a := n], log + multiset{Destroyed(a)}, data)
  {
  }

  lemma AccountsAdded(nodes: map<Address, Node>, log: multiset<Event>, data: seq<Whereabouts>, a: Address, n: Node)
    requires Accounted(nodes, log, data) && a in nodes && nodes[a].state == Free && n.state != Free
    ensures Accounted(nodes[a := n], log + multiset{Created(a)}, data)
  {
  }

  // ------------------------------------------------- the primitive steps

  lemma OwnedCell(w: World, x: Witness, a: Address)
    requires Core(w, x) && a in x.owner
    ensures a in w.nodes && w.nodes[a].state != Free && a != NULL && x.owner[a] in x.held
    ensures FitsOwner(w.traits, w.params, x.data, w.nodes[a], a, x.owner[a])
  {
    hide FitsOwner;
  }

  /** The witness after cell `a` has moved to place `q`. */
  ghost function Moved(x: Witness, a: Address, q: Place): Witness
    requires a in x.owner
  {
    x.(held := (x.held - {x.owner[a]})[q := a], owner := x.owner[a := q])
  }

  ghost function Dropped(x: Witness, a: Address): Witness
    requires a in x.owner
  {
    x.(free := [a] + x.free, held := x.held - {x.owner[a]}, owner := x.owner - {a})
  }

  lemma MoveKeeps(w: World, x: Witness, a: Address, n: Node, q: Place)
    requires Core(w, x) && a in x.owner && (q !in x.held || q == x.owner[a])
    requires n.state == Normal || n.state == Weak
    requires w.nodes[a].state != NearDeath && CarriesNoData(x.data, a)
    requires n.contents.Holds? && FitsOwner(w.traits, w.params, x.data, n, a, q)
    ensures Core(WithCell(w, a, n), Moved(x, a, q))
  {
    hide FreeListed, Owned, Disciplined, DataTracked, PendingListed, Accounted, FitsOwner, CarriesNoData;
    OwnedCell(w, x, a);
    FreeListKept(w.nodes, w.top, w.firstFree, x.free, a, n);
    OwnedMoved(w.nodes, x.held, x.owner, a, n, q);
    DisciplineMoved(w.nodes, w.traits, w.params, x.data, x.owner, a, n, q);
    DataKept(w.nodes, w.second, x.data, a, n);
    PendingKept(w.nodes, w.pending, a, n);
    AccountsKept(w.nodes, multiset(w.log), x.data, a, n);
  }

  lemma DestroyKeeps(w: World, x: Witness, a: Address)
    requires Core(w, x) && a in x.owner && w.nodes[a].state != NearDeath && CarriesNoData(x.data, a)
    ensures Destroy(w, a).Done?
    ensures Core(Destroy(w, a).value, Dropped(x, a))
  {
    hide FreeListed, Owned, Disciplined, DataTracked, PendingListed, Accounted, FitsOwner, CarriesNoData;
    OwnedCell(w, x, a);
    var r := Destroy(w, a).value;
    var n := r.nodes[a];
    FreeListPush(w.nodes, w.top, w.firstFree, x.free, a, n);
    OwnedDropped(w.nodes, x.held, x.owner, a, n);
    DisciplineDropped(w.nodes, w.traits, w.params, x.data, x.owner, a, n);
    DataKept(w.nodes, w.second, x.data, a, n);
    PendingKept(w.nodes, w.pending, a, n);
    AccountsDropped(w.nodes, multiset(w.log), x.data, a, n);
  }

  /** A block of free nodes at fresh addresses. */
  ghost predicate FreshBlock(nodes: map<Address, Node>, block: map<Address, Node>) {
    forall a :: a in block ==> a !in nodes && block[a].state == Free
  }

  lemma FreeListGrown(nodes: map<Address, Node>, top: nat) returns (free: seq<Address>)
    requires FreeListed(nodes, top, NULL, [])
    ensures FreshBlock(nodes, NewBlock(top)) && free != []
    ensures FreeListed(nodes + NewBlock(top), top + BLOCK_SIZE, top + 1, free)
  {
    hide Chained, Distinct, Complete, NewBlock, FreshBlock;
    free := BlockAddresses(top);
    ChainedGrown(nodes, top);
    CompleteGrown(nodes, top);
  }

  ghost function BlockAddresses(top: nat): seq<Address> {
    seq(BLOCK_SIZE, (i: nat) => top + 1 + i)
  }

  lemma ChainedGrown(nodes: map<Address, Node>, top: nat)
    ensures Chained(nodes + NewBlock(top), BlockAddresses(top)) && Distinct(BlockAddresses(top))
    ensures BlockAddresses(top) != [] && LinkAt(BlockAddresses(top), 0) == top + 1
  {
    hide FreeListed;
  }

  lemma CompleteGrown(nodes: map<Address, Node>, top: nat)
    requires Complete(nodes, top, [])
    ensures FreshBlock(nodes, NewBlock(top))
    ensures Complete(nodes + NewBlock(top), top + BLOCK_SIZE, BlockAddresses(top))
  {
    forall a | a in NewBlock(top) ensures a in BlockAddresses(top) {
      assert BlockAddresses(top)[a - top - 1] == a;
    }
  }

  lemma OwnedGrown(nodes: map<Address, Node>, block: map<Address, Node>, held: map<Place, Address>,
                   owner: map<Address, Place>)
    requires Owned(nodes, held, owner) && FreshBlock(nodes, block)
    ensures Owned(nodes + block, held, owner)
  {
  }

  lemma DisciplineGrown(nodes: map<Address, Node>, block: map<Address, Node>, traits: map<MapId, Traits>,
                        params: seq<ParamRecord>, data: seq<Whereabouts>, owner: map<Address, Place>)
    requires Disciplined(nodes, traits, params, data, owner) && FreshBlock(nodes, block)
    ensures Disciplined(nodes + block, traits, params, data, owner)
  {
    hide FitsOwner;
  }

  lemma DataGrown(nodes: map<Address, Node>, block: map<Address, Node>, second: seq<ParamId>, data: seq<Whereabouts>)
    requires DataTracked(nodes, second, data) && FreshBlock(nodes, block)
    ensures DataTracked(nodes + block, second, data)
  {
  }

  lemma PendingGrown(nodes: map<Address, Node>, block: map<Address, Node>, pending: seq<Pending>)
    requires PendingListed(nodes, pending) && FreshBlock(nodes, block)
    ensures PendingListed(nodes + block, pending)
  {
  }

  lemma AccountsGrown(nodes: map<Address, Node>, block: map<Address, Node>, log: multiset<Event>,
                      data: seq<Whereabouts>)
    requires Accounted(nodes, log, data) && FreshBlock(nodes, block)
    ensures Accounted(nodes + block, log, data)
  {
  }

  lemma FreeListEmpty(w: World, x: Witness)
    requires Core(w, x)
    ensures w.firstFree == NULL <==> x.free == []
  {
    hide Owned, Disciplined, DataTracked, PendingListed, Accounted;
  }

  lemma GrownKeeps(w: World, x: Witness) returns (y: Witness)
    requires Core(w, x)
    ensures Core(Grown(w), y) && y.free != [] && y == x.(free := y.free)
  {
    hide FreeListed, Owned, Disciplined, DataTracked, PendingListed, Accounted, FreshBlock, NewBlock;
    FreeListEmpty(w, x);
    y := x;
    if w.firstFree == NULL {
      var b := NewBlock(w.top);
      var free := FreeListGrown(w.nodes, w.top);
      y := x.(free := free);
      OwnedGrown(w.nodes, b, x.held, x.owner);
      DisciplineGrown(w.nodes, b, w.traits, w.params, x.data, x.owner);
      DataGrown(w.nodes, b, w.second, x.data);
      PendingGrown(w.nodes, b, w.pending);
      AccountsGrown(w.nodes, b, multiset(w.log), x.data);
    }
  }

  lemma FirstFreeNode(w: World, x: Witness)
    requires Core(w, x) && x.free != []
    ensures w.firstFree == x.free[0] && w.firstFree in w.nodes && w.firstFree !in x.owner
    ensures w.nodes[w.firstFree].state == Free && w.nodes[w.firstFree].payload.NextFree?
    ensures CarriesNoData(x.data, w.firstFree)
  {
    hide FitsOwner;
  }

  /** A new cell starts strong, so any owner that accepts strong cells can receive it. */
  lemma CreateKeeps(w: World, x: Witness, c: Contents, l: Location) returns (y: Witness)
    requires Core(w, x) && InHandle(l) !in x.held && c.Holds?
    ensures Create(w, c).Done?
    ensures var (r, a) := Create(w, c).value;
            Core(r, y) && y == x.(free := y.free, held := x.held[InHandle(l) := a], owner := x.owner[a := InHandle(l)])
  {
    hide FreeListed, Owned, Disciplined, DataTracked, PendingListed, Accounted, CarriesNoData, NewBlock;
    var z := GrownKeeps(w, x);
    var g := Grown(w);
    FirstFreeNode(g, z);
    var a := g.firstFree;
    var (r, _) := Create(w, c).value;
    var n := r.nodes[a];
    FreeListPop(g.nodes, g.top, z.free, n);
    OwnedAdded(g.nodes, x.held, x.owner, a, n, InHandle(l));
    DisciplineMoved(g.nodes, g.traits, g.params, x.data, x.owner, a, n, InHandle(l));
    DataKept(g.nodes, g.second, x.data, a, n);
    PendingKept(g.nodes, g.pending, a, n);
    AccountsAdded(g.nodes, multiset(g.log), x.data, a, n);
    y := Witness(z.free[1..], x.held[InHandle(l) := a], x.owner[a := InHandle(l)], x.data);
  }

  // ------------------------------------------------- callback data

  lemma FitsExtended(traits: map<MapId, Traits>, params: seq<ParamRecord>, data: seq<Whereabouts>,
                     n: Node, a: Address, q: Place, r: ParamRecord, d: Whereabouts)
    requires FitsOwner(traits, params, data, n, a, q) && |params| == |data|
    ensures FitsOwner(traits, params + [r], data + [d], n, a, q)
  {
  }

  lemma DisciplineExtended(nodes: map<Address, Node>, traits: map<MapId, Traits>, params: seq<ParamRecord>,
                           data: seq<Whereabouts>, owner: map<Address, Place>, r: ParamRecord, d: Whereabouts)
    requires Disciplined(nodes, traits, params, data, owner) && |params| == |data|
    ensures Disciplined(nodes, traits, params + [r], data + [d], owner)
  {
    hide FitsOwner;
    forall a | a in owner
      ensures a in nodes && FitsOwner(traits, params + [r], data + [d], nodes[a], a, owner[a])
    {
      FitsExtended(traits, params, data, nodes[a], a, owner[a], r, d);
    }
  }

  lemma DataArmed(nodes: map<Address, Node>, second: seq<ParamId>, data: seq<Whereabouts>, a: Address, n: Node)
    requires DataTracked(nodes, second, data) && CarriesNoData(data, a)
    requires n.state == Weak && n.payload == Param(CallbackData(|data|))
    ensures DataTracked(nodes[a := n], second, data + [AtCell(a)])
  {
  }

  lemma AccountsArmed(nodes: map<Address, Node>, log: multiset<Event>, data: seq<Whereabouts>, a: Address)
    requires Accounted(nodes, log, data)
    ensures Accounted(nodes, log, data + [AtCell(a)])
  {
  }

  /** The data `p` of cell `a` goes elsewhere: other cells do not notice. */
  lemma FitsElsewhere(traits: map<MapId, Traits>, params: seq<ParamRecord>, data: seq<Whereabouts>,
                      n: Node, a: Address, q: Place, p: ParamId, d: Whereabouts)
    requires FitsOwner(traits, params, data, n, a, q) && p < |data| && data[p] != AtCell(a)
    ensures FitsOwner(traits, params, data[p := d], n, a, q)
  {
  }

  lemma DisciplineElsewhere(nodes: map<Address, Node>, traits: map<MapId, Traits>, params: seq<ParamRecord>,
                            data: seq<Whereabouts>, owner: map<Address, Place>, a: Address, p: ParamId, d: Whereabouts)
    requires Disciplined(nodes, traits, params, data, owner) && p < |data| && data[p] == AtCell(a)
    ensures Disciplined(nodes, traits, params, data[p := d], owner - {a})
  {
    hide FitsOwner;
    forall b | b in owner && b != a
      ensures b in nodes && FitsOwner(traits, params, data[p := d], nodes[b], b, owner[b])
    {
      FitsElsewhere(traits, params, data, nodes[b], b, owner[b], p, d);
    }
  }

  lemma DataFinished(nodes: map<Address, Node>, second: seq<ParamId>, data: seq<Whereabouts>,
                     a: Address, n: Node, p: ParamId)
    requires DataTracked(nodes, second, data) && p < |data| && data[p] == AtCell(a)
    ensures DataTracked(nodes[a := n], second, data[p := Finished]) && CarriesNoData(data[p := Finished], a)
  {
  }

  lemma AccountsFinished(nodes: map<Address, Node>, log: multiset<Event>, data: seq<Whereabouts>, p: ParamId)
    requires Accounted(nodes, log, data) && p < |data| && data[p] != Finished
    ensures Accounted(nodes, log + multiset{DataDisposed(p)}, data[p := Finished])
    ensures Accounted(nodes, log + multiset{WeakDisposed(p)}, data[p := Finished])
  {
  }

  lemma DataQueued(nodes: map<Address, Node>, second: seq<ParamId>, data: seq<Whereabouts>,
                   a: Address, n: Node, p: ParamId)
    requires DataTracked(nodes, second, data) && p < |data| && data[p] == AtCell(a)
    ensures DataTracked(nodes[a := n], second + [p], data[p := Queued(|second|)])
    ensures CarriesNoData(data[p := Queued(|second|)], a)
  {
  }

  lemma DataDequeued(nodes: map<Address, Node>, second: seq<ParamId>, data: seq<Whereabouts>)
    requires DataTracked(nodes, second, data) && second != []
    ensures var p := second[|second| - 1];
            p < |data| && DataTracked(nodes, second[..|second| - 1], data[p := Finished])
  {
  }

  lemma PendingAdded(nodes: map<Address, Node>, pending: seq<Pending>, a: Address, n: Node, e: Pending)
    requires PendingListed(nodes, pending) && a in nodes && nodes[a].state != NearDeath
    requires n.state == NearDeath && n.payload == Param(CallbackData(e.param)) && n.callback == Some(e.callback)
    requires e.node == a
    ensures PendingListed(nodes[a := n], pending + [e])
  {
    var after, nodes' := pending + [e], nodes[a := n];
    assert after[|pending|] == e;
    forall b | b in nodes' && nodes'[b].state == NearDeath
      ensures exists i: nat :: i < |after| && after[i].node == b
    {
      if b != a {
        var i: nat :| i < |pending| && pending[i].node == b;
        assert after[i] == pending[i];
      }
    }
  }

  lemma PendingPopped(nodes: map<Address, Node>, pending: seq<Pending>, n: Node)
    requires PendingListed(nodes, pending) && pending != [] && n.state != NearDeath
    ensures PendingListed(nodes[pending[0].node := n], pending[1..])
  {
    var a, after := pending[0].node, pending[1..];
    forall b | b in nodes && b != a && nodes[b].state == NearDeath
      ensures exists i: nat :: i < |after| && after[i].node == b
    {
      var i: nat :| i < |pending| && pending[i].node == b;
      assert after[i - 1] == pending[i];
    }
  }

  lemma AccountsNoted(nodes: map<Address, Node>, log: multiset<Event>, data: seq<Whereabouts>, p: ParamId)
    requires Accounted(nodes, log, data)
    ensures Accounted(nodes, log + multiset{FirstPass(p)}, data)
  {
  }

  lemma AccountsQueued(nodes: map<Address, Node>, log: multiset<Event>, data: seq<Whereabouts>, p: ParamId, i: nat)
    requires Accounted(nodes, log, data) && p < |data| && data[p] != Finished
    ensures Accounted(nodes, log, data[p := Queued(i)])
  {
  }

  lemma DataDying(nodes: map<Address, Node>, second: seq<ParamId>, data: seq<Whereabouts>, a: Address, n: Node)
    requires DataTracked(nodes, second, data) && a in nodes && n.state == NearDeath && n.payload == nodes[a].payload
    ensures DataTracked(nodes[a := n], second, data)
  {
  }

  // ------------------------------------------------- a round of Clear takes over a whole map

  function Shift(q: Place, m: MapId, n: nat): Place {
    if q.InMap? && q.mapId == m then InFrame(n, m, q.key) else q
  }

  function Unshift(q: Place, m: MapId, n: nat): Place {
    if q.InFrame? && q.frame == n && q.mapId == m then InMap(m, q.key) else q
  }

  ghost function Shifted(x: Witness, m: MapId, n: nat): Witness {
    var places := set q | q in x.held :: Shift(q, m, n);
    x.(held := map q | q in places && Unshift(q, m, n) in x.held :: x.held[Unshift(q, m, n)],
       owner := map a | a in x.owner :: Shift(x.owner[a], m, n))
  }

  ghost predicate NoFrame(held: map<Place, Address>, n: nat) {
    forall q :: q in held ==> !(q.InFrame? && q.frame == n)
  }

  lemma OwnedShifted(nodes: map<Address, Node>, x: Witness, m: MapId, n: nat)
    requires Owned(nodes, x.held, x.owner) && NoFrame(x.held, n)
    ensures Owned(nodes, Shifted(x, m, n).held, Shifted(x, m, n).owner)
    ensures |Shifted(x, m, n).owner| == |x.owner|
  {
    var y := Shifted(x, m, n);
    assert y.owner.Keys == x.owner.Keys;
    forall a | a in y.owner ensures y.owner[a] in y.held && y.held[y.owner[a]] == a {
      assert Unshift(y.owner[a], m, n) == x.owner[a];
    }
    forall q | q in y.held ensures y.held[q] in y.owner && y.owner[y.held[q]] == q {
      var b :| b in x.held && q == Shift(b, m, n);
      assert Unshift(q, m, n) == b;
    }
  }

  lemma DisciplineShifted(nodes: map<Address, Node>, traits: map<MapId, Traits>, params: seq<ParamRecord>,
                          x: Witness, m: MapId, n: nat)
    requires Disciplined(nodes, traits, params, x.data, x.owner)
    ensures Disciplined(nodes, traits, params, x.data, Shifted(x, m, n).owner)
  {
    hide ArmedFor;
  }

  lemma StoredShifted(w: World, r: World, x: Witness, m: MapId, n: nat)
    requires Stored(w, x.held) && NoFrame(x.held, n)
    requires forall p: Place :: CellAt(r, p) == if p.InMap? && p.mapId == m then NULL else CellAt(w, Unshift(p, m, n))
    ensures Stored(r, Shifted(x, m, n).held)
  {
    hide CellAt;
    var y := Shifted(x, m, n);
    forall p: Place ensures CellAt(r, p) == HeldAt(y.held, p) {
      var b := Unshift(p, m, n);
      assert CellAt(w, b) == HeldAt(x.held, b);
      if p.InMap? && p.mapId == m {
        assert p !in y.held;
      } else if b in x.held {
        assert Shift(b, m, n) == p;
      }
    }
  }
}
