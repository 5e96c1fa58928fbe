/** Handles and containers as plain values: the specification that cells implement. */
module PlainValues {
  import opened Cells
  import opened Ownership
  import opened Runs

  type Value = Option<Object>

  datatype Round = Round(mapId: MapId, rest: map<Key, Value>)

  /** An embedder's memory without cells: a handle is an optional object, a map is a map. */
  datatype Plain = Plain(handles: map<Location, Value>, maps: map<MapId, map<Key, Value>>,
                         rounds: seq<Round>, vectors: map<VectorId, seq<Value>>)

  /** What a collection takes away. */
  datatype Garbage = Garbage(handles: set<Location>, entries: set<(MapId, Key)>)

  function Read(w: World, a: Address): Value {
    if a in w.nodes && w.nodes[a].contents.Holds? then Some(w.nodes[a].contents.it) else None
  }

  function ValueAt(w: World, p: Place): Value {
    Read(w, CellAt(w, p))
  }

  function HandleValues(w: World): map<Location, Value> {
    map l | l in w.vals :: ValueAt(w, InHandle(l))
  }

  function MapValues(w: World, m: MapId): map<Key, Value>
    requires m in w.impls
  {
    map k | k in w.impls[m] :: ValueAt(w, InMap(m, k))
  }

  function RoundValues(w: World, i: nat): Round
    requires i < |w.frames|
  {
    Round(w.frames[i].mapId, map k | k in w.frames[i].rest :: ValueAt(w, InFrame(i, w.frames[i].mapId, k)))
  }

  function VectorValues(w: World, v: VectorId): seq<Value>
    requires v in w.vectors
  {
    seq(|w.vectors[v]|, (i: nat) => ValueAt(w, InVector(v, i)))
  }

  /** The plain values that a world implements. */
  function Abs(w: World): Plain {
    Plain(HandleValues(w),
          map m | m in w.impls :: MapValues(w, m),
          seq(|w.frames|, (i: nat) requires i < |w.frames| => RoundValues(w, i)),
          map v | v in w.vectors :: VectorValues(w, v))
  }

  function Find(m: map<Key, Value>, k: Key): Value {
    if k in m then m[k] else None
  }

  /** Each operation on plain values. */
  function PlainStep(p: Plain, op: Op, g: Garbage): Plain {
    match op
    case OpNewHandle(l) => p.(handles := p.handles[l := None])
    case OpNewFromLocal(l, local) => p.(handles := p.handles[l := local])
    case OpNewFromHandle(l, that) => p.(handles := p.handles[l := PlainGet(p, that)])
    case OpMoveConstruct(l, rhs) => p.(handles := p.handles[l := PlainGet(p, rhs)][rhs := None])
    case OpMoveAssign(l, rhs) =>
      if l == rhs then p else p.(handles := p.handles[l := PlainGet(p, rhs)][rhs := None])
    case OpCopy(l, that) => p.(handles := p.handles[l := if l == that then None else PlainGet(p, that)])
    case OpReset(l) => p.(handles := p.handles[l := None])
    case OpResetToLocal(l, local) => p.(handles := p.handles[l := local])
    case OpSetWeak(l) => p
    case OpClearWeak(l) => p
    case OpDestroyHandle(l) => p.(handles := p.handles - {l})
    case OpNewMap(m, t) => p.(maps := p.maps[m := map[]])
    case OpSet(m, k, l, out) => PlainSet(p, m, k, l, out)
    case OpRemove(m, k, out) => PlainTake(p, m, k, out)
    case OpBeginRound(m) => p.(maps := p.maps[m := map[]], rounds := p.rounds + [Round(m, PlainMap(p, m))])
    case OpDrainOne(k, out) => PlainDrain(p, k, out)
    case OpEndRound => if p.rounds == [] then p else p.(rounds := p.rounds[..|p.rounds| - 1])
    case OpDestroyMap(m) => p.(maps := p.maps - {m})
    case OpNewVector(v) => p.(vectors := p.vectors[v := []])
    case OpAppend(v, l) => PlainAppend(p, v, l)
    case OpVectorClear(v) => p.(vectors := p.vectors[v := []])
    case OpDestroyVector(v) => p.(vectors := p.vectors - {v})
    case OpGc(_, _) => PlainGc(p, g)
    case OpSecondPass => p
  }

  function PlainGet(p: Plain, l: Location): Value {
    if l in p.handles then p.handles[l] else None
  }

  function PlainMap(p: Plain, m: MapId): map<Key, Value> {
    if m in p.maps then p.maps[m] else map[]
  }

  function PlainVector(p: Plain, v: VectorId): seq<Value> {
    if v in p.vectors then p.vectors[v] else []
  }

  function PlainGc(p: Plain, g: Garbage): Plain {
    p.(handles := map l | l in p.handles :: if l in g.handles then None else p.handles[l],
       maps := map m | m in p.maps :: Swept(p.maps[m], m, g))
  }

  function Swept(entries: map<Key, Value>, m: MapId, g: Garbage): map<Key, Value> {
    map k | k in entries && (m, k) !in g.entries :: entries[k]
  }

  function PlainSet(p: Plain, m: MapId, k: Key, l: Location, out: Location): Plain {
    p.(maps := p.maps[m := PlainMap(p, m)[k := PlainGet(p, l)]],
       handles := p.handles[l := None][out := Find(PlainMap(p, m), k)])
  }

  function PlainTake(p: Plain, m: MapId, k: Key, out: Location): Plain {
    p.(maps := p.maps[m := PlainMap(p, m) - {k}], handles := p.handles[out := Find(PlainMap(p, m), k)])
  }

  function PlainDrain(p: Plain, k: Key, out: Location): Plain {
    if p.rounds == [] then p
    else
      var top := |p.rounds| - 1;
      var r := p.rounds[top];
      p.(rounds := p.rounds[top := r.(rest := r.rest - {k})], handles := p.handles[out := Find(r.rest, k)])
  }

  function PlainAppend(p: Plain, v: VectorId, l: Location): Plain {
    p.(vectors := p.vectors[v := PlainVector(p, v) + [PlainGet(p, l)]], handles := p.handles[l := None])
  }

  // ------------------------------------------------- values at places

  ghost predicate ValueSet(w: World, r: World, q: Place, v: Value) {
    forall p: Place :: ValueAt(r, p) == if p == q then v else ValueAt(w, p)
  }

  ghost predicate ValueMoved(w: World, r: World, from: Place, to: Place) {
    forall p: Place :: ValueAt(r, p) == if p == to then ValueAt(w, from) else if p == from then None else ValueAt(w, p)
  }

  ghost predicate SameValues(w: World, r: World) {
    forall p: Place :: ValueAt(r, p) == ValueAt(w, p)
  }

  /** Places outside `s` keep their values. */
  ghost predicate ValuesApart(w: World, r: World, s: set<Place>) {
    forall p: Place :: p in s || ValueAt(r, p) == ValueAt(w, p)
  }

  lemma MapSame(w: World, r: World, s: set<Place>, m: MapId)
    requires ValuesApart(w, r, s) && m in w.impls && m in r.impls && r.impls[m] == w.impls[m]
    requires forall q :: q in s ==> !(q.InMap? && q.mapId == m)
    ensures MapValues(r, m) == MapValues(w, m)
  {
    hide ValueAt;
  }

  lemma RoundSame(w: World, r: World, s: set<Place>, i: nat)
    requires ValuesApart(w, r, s) && i < |w.frames| && i < |r.frames| && r.frames[i] == w.frames[i]
    requires forall q :: q in s ==> !(q.InFrame? && q.frame == i)
    ensures RoundValues(r, i) == RoundValues(w, i)
  {
    hide ValueAt;
  }

  lemma VectorSame(w: World, r: World, s: set<Place>, v: VectorId)
    requires ValuesApart(w, r, s) && v in w.vectors && v in r.vectors && r.vectors[v] == w.vectors[v]
    requires forall q :: q in s ==> !(q.InVector? && q.vector == v)
    ensures VectorValues(r, v) == VectorValues(w, v)
  {
    hide ValueAt;
  }

  lemma HandlesSame(w: World, r: World, s: set<Place>)
    requires ValuesApart(w, r, s) && (forall q :: q in s ==> !q.InHandle?) && r.vals == w.vals
    ensures HandleValues(r) == HandleValues(w)
  {
    hide ValueAt;
  }

  /** No address was stored, moved or forgotten. */
  lemma NothingMoved(w: World, r: World)
    requires r.nodes == w.nodes && forall p: Place :: CellAt(r, p) == CellAt(w, p)
    ensures ValuesApart(w, r, {})
  {
    hide CellAt;
  }

  lemma MapsSame(w: World, r: World, s: set<Place>)
    requires ValuesApart(w, r, s) && (forall q :: q in s ==> !q.InMap?) && r.impls == w.impls
    ensures Abs(r).maps == Abs(w).maps
  {
    hide ValuesApart, MapValues;
    forall m | m in w.impls ensures MapValues(r, m) == MapValues(w, m) {
      MapSame(w, r, s, m);
    }
  }

  lemma MapsSameBut(w: World, r: World, s: set<Place>, m: MapId)
    requires ValuesApart(w, r, s) && forall q :: q in s ==> q.InMap? ==> q.mapId == m
    requires m in w.impls && m in r.impls && r.impls == w.impls[m := r.impls[m]]
    ensures Abs(r).maps == Abs(w).maps[m := MapValues(r, m)]
  {
    hide ValuesApart, MapValues;
    forall n | n in w.impls && n != m ensures MapValues(r, n) == MapValues(w, n) {
      MapSame(w, r, s, n);
    }
  }

  lemma RoundsSame(w: World, r: World, s: set<Place>)
    requires ValuesApart(w, r, s) && (forall q :: q in s ==> !q.InFrame?) && r.frames == w.frames
    ensures Abs(r).rounds == Abs(w).rounds
  {
    hide ValuesApart, RoundValues;
    forall i: nat | i < |w.frames| ensures RoundValues(r, i) == RoundValues(w, i) {
      RoundSame(w, r, s, i);
    }
  }

  lemma VectorsSame(w: World, r: World, s: set<Place>)
    requires ValuesApart(w, r, s) && (forall q :: q in s ==> !q.InVector?) && r.vectors == w.vectors
    ensures Abs(r).vectors == Abs(w).vectors
  {
    hide ValuesApart, VectorValues;
    forall v | v in w.vectors ensures VectorValues(r, v) == VectorValues(w, v) {
      VectorSame(w, r, s, v);
    }
  }

  lemma VectorsSameBut(w: World, r: World, s: set<Place>, v: VectorId)
    requires ValuesApart(w, r, s) && forall q :: q in s ==> q.InVector? ==> q.vector == v
    requires v in w.vectors && v in r.vectors && r.vectors == w.vectors[v := r.vectors[v]]
    ensures Abs(r).vectors == Abs(w).vectors[v := VectorValues(r, v)]
  {
    hide ValuesApart, VectorValues;
    forall u | u in w.vectors && u != v ensures VectorValues(r, u) == VectorValues(w, u) {
      VectorSame(w, r, s, u);
    }
  }

  /** Only handles change. */
  lemma AbsOutsideHandles(w: World, r: World, s: set<Place>)
    requires ValuesApart(w, r, s) && forall q :: q in s ==> q.InHandle?
    requires r.impls == w.impls && r.frames == w.frames && r.vectors == w.vectors
    ensures Abs(r) == Abs(w).(handles := HandleValues(r))
  {
    hide ValuesApart, MapValues, RoundValues, VectorValues;
    MapsSame(w, r, s);
    RoundsSame(w, r, s);
    VectorsSame(w, r, s);
  }

  lemma AbsHandleSet(w: World, r: World, l: Location, v: Value)
    requires ValueSet(w, r, InHandle(l), v) && r.vals.Keys == w.vals.Keys + {l}
    requires r.impls == w.impls && r.frames == w.frames && r.vectors == w.vectors
    ensures Abs(r) == Abs(w).(handles := Abs(w).handles[l := v])
  {
    hide ValueAt;
    AbsOutsideHandles(w, r, {InHandle(l)});
    assert HandleValues(r) == HandleValues(w)[l := v];
  }

  lemma AbsHandleMove(w: World, r: World, l: Location, rhs: Location)
    requires ValueMoved(w, r, InHandle(rhs), InHandle(l)) && l in w.vals && rhs in w.vals && l != rhs
    requires r.vals.Keys == w.vals.Keys
    requires r.impls == w.impls && r.frames == w.frames && r.vectors == w.vectors
    ensures Abs(r) == Abs(w).(handles := Abs(w).handles[l := Abs(w).handles[rhs]][rhs := None])
  {
    hide ValueAt;
    AbsOutsideHandles(w, r, {InHandle(l), InHandle(rhs)});
    assert HandleValues(r) == HandleValues(w)[l := HandleValues(w)[rhs]][rhs := None];
  }

  lemma TakeParts(w: World, r: World, m: MapId, k: Key, out: Location)
    requires ValueMoved(w, r, InMap(m, k), InHandle(out)) && m in w.impls && out !in w.vals
    requires k !in w.impls[m] ==> ValueAt(w, InMap(m, k)) == None
    requires m in r.impls && r.impls[m] == w.impls[m] - {k} && r.vals.Keys == w.vals.Keys + {out}
    ensures ValuesApart(w, r, {InMap(m, k), InHandle(out)})
    ensures MapValues(r, m) == MapValues(w, m) - {k}
    ensures HandleValues(r) == HandleValues(w)[out := Find(MapValues(w, m), k)]
  {
    hide ValueAt;
  }

  lemma AbsTake(w: World, r: World, m: MapId, k: Key, out: Location)
    requires ValueMoved(w, r, InMap(m, k), InHandle(out)) && m in w.impls && out !in w.vals
    requires k !in w.impls[m] ==> ValueAt(w, InMap(m, k)) == None
    requires m in r.impls && r.impls == w.impls[m := r.impls[m]] && r.impls[m] == w.impls[m] - {k}
    requires r.frames == w.frames && r.vectors == w.vectors && r.vals.Keys == w.vals.Keys + {out}
    ensures Abs(r) == PlainTake(Abs(w), m, k, out)
  {
    hide ValueAt, ValuesApart, MapValues, RoundValues, VectorValues, HandleValues, ValueMoved;
    var s := {InMap(m, k), InHandle(out)};
    TakeParts(w, r, m, k, out);
    MapsSameBut(w, r, s, m);
    RoundsSame(w, r, s);
    VectorsSame(w, r, s);
  }

  /** Moving the value of handle `l` under key `k`, when nothing is stored there. */
  function PlainPut(p: Plain, m: MapId, k: Key, l: Location): Plain {
    p.(maps := p.maps[m := PlainMap(p, m)[k := PlainGet(p, l)]], handles := p.handles[l := None])
  }

  lemma PutParts(w: World, r: World, m: MapId, k: Key, l: Location, a: Address)
    requires ValueMoved(w, r, InHandle(l), InMap(m, k)) && m in w.impls && l in w.vals
    requires m in r.impls && r.impls[m] == w.impls[m][k := a] && r.vals.Keys == w.vals.Keys
    ensures ValuesApart(w, r, {InMap(m, k), InHandle(l)})
    ensures l in HandleValues(w) && MapValues(r, m) == MapValues(w, m)[k := HandleValues(w)[l]]
    ensures HandleValues(r) == HandleValues(w)[l := None]
  {
    hide ValueAt;
  }

  lemma AbsPut(w: World, r: World, m: MapId, k: Key, l: Location, a: Address)
    requires ValueMoved(w, r, InHandle(l), InMap(m, k)) && m in w.impls && l in w.vals
    requires m in r.impls && r.impls == w.impls[m := r.impls[m]] && r.impls[m] == w.impls[m][k := a]
    requires r.frames == w.frames && r.vectors == w.vectors && r.vals.Keys == w.vals.Keys
    ensures Abs(r) == PlainPut(Abs(w), m, k, l)
  {
    hide ValueAt, ValuesApart, MapValues, RoundValues, VectorValues, HandleValues, ValueMoved;
    var s := {InMap(m, k), InHandle(l)};
    PutParts(w, r, m, k, l, a);
    MapsSameBut(w, r, s, m);
    RoundsSame(w, r, s);
    VectorsSame(w, r, s);
  }

  lemma TopDrained(w: World, r: World, q: Place, k: Key)
    requires w.frames != [] && q.InHandle?
    requires var top := |w.frames| - 1;
             var f := w.frames[top];
             && ValuesApart(w, r, {InFrame(top, f.mapId, k), q})
             && r.frames == w.frames[top := f.(rest := f.rest - {k})]
    ensures var top := |w.frames| - 1;
            var d := RoundValues(w, top);
            RoundValues(r, top) == d.(rest := d.rest - {k})
  {
    hide ValueAt;
    var top := |w.frames| - 1;
    assert RoundValues(r, top).rest == RoundValues(w, top).rest - {k};
  }

  lemma RoundsDrained(w: World, r: World, q: Place, k: Key)
    requires w.frames != [] && q.InHandle?
    requires var top := |w.frames| - 1;
             var f := w.frames[top];
             && ValuesApart(w, r, {InFrame(top, f.mapId, k), q})
             && r.frames == w.frames[top := f.(rest := f.rest - {k})]
    ensures var top := |w.frames| - 1;
            var d := RoundValues(w, top);
            Abs(r).rounds == Abs(w).rounds[top := d.(rest := d.rest - {k})]
  {
    hide ValuesApart, RoundValues;
    var top := |w.frames| - 1;
    TopDrained(w, r, q, k);
    forall i: nat | i < top ensures RoundValues(r, i) == RoundValues(w, i) {
      RoundSame(w, r, {InFrame(top, w.frames[top].mapId, k), q}, i);
    }
  }

  lemma DrainParts(w: World, r: World, k: Key, out: Location)
    requires w.frames != [] && out !in w.vals
    requires var top := |w.frames| - 1;
             var f := w.frames[top];
             k in f.rest && ValueMoved(w, r, InFrame(top, f.mapId, k), InHandle(out))
    requires r.vals.Keys == w.vals.Keys + {out}
    ensures var top := |w.frames| - 1;
            && ValuesApart(w, r, {InFrame(top, w.frames[top].mapId, k), InHandle(out)})
            && HandleValues(r) == HandleValues(w)[out := Find(RoundValues(w, top).rest, k)]
  {
    hide ValueAt;
  }

  lemma AbsDrain(w: World, r: World, k: Key, out: Location)
    requires w.frames != [] && out !in w.vals
    requires var top := |w.frames| - 1;
             var f := w.frames[top];
             && k in f.rest
             && ValueMoved(w, r, InFrame(top, f.mapId, k), InHandle(out))
             && r.frames == w.frames[top := f.(rest := f.rest - {k})]
    requires r.impls == w.impls && r.vectors == w.vectors && r.vals.Keys == w.vals.Keys + {out}
    ensures Abs(r) == PlainDrain(Abs(w), k, out)
  {
    hide ValueAt, ValuesApart, MapValues, RoundValues, VectorValues, HandleValues, ValueMoved;
    var top := |w.frames| - 1;
    var s := {InFrame(top, w.frames[top].mapId, k), InHandle(out)};
    DrainParts(w, r, k, out);
    MapsSame(w, r, s);
    RoundsDrained(w, r, InHandle(out), k);
    VectorsSame(w, r, s);
  }

  lemma AbsAppend(w: World, r: World, v: VectorId, l: Location, a: Address)
    requires v in w.vectors && l in w.vals && ValueMoved(w, r, InHandle(l), InVector(v, |w.vectors[v]|))
    requires r.impls == w.impls && r.frames == w.frames && r.vals.Keys == w.vals.Keys
    requires v in r.vectors && r.vectors == w.vectors[v := r.vectors[v]] && r.vectors[v] == w.vectors[v] + [a]
    ensures Abs(r) == PlainAppend(Abs(w), v, l)
  {
    hide ValueAt, ValuesApart, MapValues, RoundValues, VectorValues, HandleValues, ValueMoved;
    var s := {InVector(v, |w.vectors[v]|), InHandle(l)};
    AppendParts(w, r, v, l, a);
    MapsSame(w, r, s);
    RoundsSame(w, r, s);
    VectorsSameBut(w, r, s, v);
  }

  lemma AppendParts(w: World, r: World, v: VectorId, l: Location, a: Address)
    requires v in w.vectors && l in w.vals && ValueMoved(w, r, InHandle(l), InVector(v, |w.vectors[v]|))
    requires r.vals.Keys == w.vals.Keys && v in r.vectors && r.vectors[v] == w.vectors[v] + [a]
    ensures l in HandleValues(w) && HandleValues(r) == HandleValues(w)[l := None]
    ensures ValuesApart(w, r, {InVector(v, |w.vectors[v]|), InHandle(l)})
    ensures VectorValues(r, v) == VectorValues(w, v) + [HandleValues(w)[l]]
  {
    hide ValueAt;
  }

  /** A round of `Clear` takes over all entries of a map. */
  ghost predicate RoundBegun(w: World, r: World, m: MapId) {
    && m in w.impls && r.impls == w.impls[m := map[]] && r.frames == w.frames + [Frame(m, w.impls[m])]
    && r.vals == w.vals && r.vectors == w.vectors && r.nodes == w.nodes
  }

  lemma RoundBegunMaps(w: World, r: World, m: MapId)
    requires RoundBegun(w, r, m)
    ensures HandleValues(r) == HandleValues(w) && MapValues(r, m) == map[]
    ensures forall n :: n in w.impls && n != m ==> MapValues(r, n) == MapValues(w, n)
  {
  }

  lemma RoundBegunRounds(w: World, r: World, m: MapId)
    requires RoundBegun(w, r, m)
    ensures forall i: nat :: i < |w.frames| ==> RoundValues(r, i) == RoundValues(w, i)
    ensures RoundValues(r, |w.frames|) == Round(m, MapValues(w, m))
    ensures forall v :: v in w.vectors ==> VectorValues(r, v) == VectorValues(w, v)
  {
    assert RoundValues(r, |w.frames|).rest == MapValues(w, m);
  }

  lemma AbsBeginRound(w: World, r: World, m: MapId)
    requires RoundBegun(w, r, m)
    ensures Abs(r) == Abs(w).(maps := Abs(w).maps[m := map[]],
                              rounds := Abs(w).rounds + [Round(m, MapValues(w, m))])
  {
    hide ValueAt, MapValues, RoundValues, VectorValues, HandleValues;
    RoundBegunMaps(w, r, m);
    RoundBegunRounds(w, r, m);
    assert Abs(r).maps == Abs(w).maps[m := map[]];
    assert Abs(r).rounds == Abs(w).rounds + [Round(m, MapValues(w, m))];
    assert Abs(r).vectors == Abs(w).vectors;
  }
}
