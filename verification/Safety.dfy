/** Each operation of the protocol keeps the ownership invariant and does not fault. */
module Safety {
  import opened Cells
  import opened Handles
  import opened Containers
  import opened Ownership

  lemma StoredCell(w: World, x: Witness, p: Place)
    requires Good(w, x) && CellAt(w, p) != NULL
    ensures var a := CellAt(w, p);
            && a in x.owner && x.owner[a] == p && p in x.held && x.held[p] == a
            && a in w.nodes && w.nodes[a].state != Free
            && FitsOwner(w.traits, w.params, x.data, w.nodes[a], a, p)
    ensures p.InHandle? || p.InVector? ==>
              CarriesNoData(x.data, CellAt(w, p)) && w.nodes[CellAt(w, p)].contents.Holds?
  {
  }

  lemma NotHeld(w: World, x: Witness, p: Place)
    requires Good(w, x) && CellAt(w, p) == NULL
    ensures p !in x.held
  {
    hide FreeListed, Disciplined, DataTracked, PendingListed, Accounted;
    assert CellAt(w, p) == HeldAt(x.held, p);
    NullIsNoCell(w, x);
  }

  lemma NullIsNoCell(w: World, x: Witness)
    requires Core(w, x)
    ensures NULL !in x.owner
  {
    hide Disciplined, DataTracked, PendingListed, Accounted;
  }

  lemma HandleCell(w: World, x: Witness, l: Location)
    requires Good(w, x) && l in w.vals && w.vals[l] != NULL
    ensures var a := w.vals[l];
            && a in w.nodes && a in x.owner && x.owner[a] == InHandle(l)
            && InHandle(l) in x.held && x.held[InHandle(l)] == a
            && (w.nodes[a].state == Normal || (IsPhantom(w.nodes[a]) && w.nodes[a].payload == Param(Slot(l))))
            && w.nodes[a].contents.Holds? && CarriesNoData(x.data, a)
  {
    hide Core, Stored;
    StoredCell(w, x, InHandle(l));
  }

  // ------------------------------------------------- handles

  lemma ResetKeeps(w: World, x: Witness, l: Location) returns (y: Witness)
    requires Good(w, x) && l in w.vals
    ensures Reset(w, l).Done? && Good(Reset(w, l).value, y)
    ensures y.data == x.data && y.owner == x.owner - {w.vals[l]}
    ensures Reset(w, l).value.vals == w.vals[l := NULL] && Reset(w, l).value.pending == w.pending
  {
    hide Core, Stored;
    y := x;
    NullIsNoCell(w, x);
    var a := w.vals[l];
    if a != NULL {
      HandleCell(w, x, l);
      DestroyKeeps(w, x, a);
      y := Dropped(x, a);
      CoreKept(Destroy(w, a).value, Reset(w, l).value, y);
      StoredAdded(w, Reset(w, l).value, x.held, InHandle(l), NULL);
    }
  }

  lemma NewHandleKeeps(w: World, x: Witness, l: Location)
    requires Good(w, x) && l !in w.vals
    ensures NewHandle(w, l).Done? && Good(NewHandle(w, l).value, x)
  {
    hide Core, Stored;
    CoreKept(w, NewHandle(w, l).value, x);
    StoredSame(w, NewHandle(w, l).value, x.held);
  }

  lemma ForgetKeeps(w: World, x: Witness, l: Location)
    requires Good(w, x) && l in w.vals && w.vals[l] == NULL
    ensures Good(w.(vals := w.vals - {l}), x)
  {
    hide Core, Stored;
    CoreKept(w, w.(vals := w.vals - {l}), x);
    StoredSame(w, w.(vals := w.vals - {l}), x.held);
  }

  lemma FillKeeps(w: World, x: Witness, l: Location, o: Object) returns (y: Witness)
    requires Good(w, x) && l in w.vals && w.vals[l] == NULL
    ensures Fill(w, l, Holds(o)).Done? && Good(Fill(w, l, Holds(o)).value, y)
    ensures Fill(w, l, Holds(o)).value.pending == w.pending
  {
    hide Core, Stored, Grown;
    NotHeld(w, x, InHandle(l));
    y := CreateKeeps(w, x, Holds(o), l);
    var (r, a) := Create(w, Holds(o)).value;
    CreatePlaces(w, Holds(o));
    var f := Fill(w, l, Holds(o)).value;
    CoreKept(r, f, y);
    StoredAdded(w, f, x.held, InHandle(l), a);
  }

  lemma CreatePlaces(w: World, c: Contents)
    requires Create(w, c).Done?
    ensures var r := Create(w, c).value.0;
            && r.vals == w.vals && r.impls == w.impls && r.frames == w.frames && r.vectors == w.vectors
            && r.pending == w.pending
  {
  }

  lemma FillFromKeeps(w: World, x: Witness, l: Location, that: Location) returns (y: Witness)
    requires Good(w, x) && l in w.vals && w.vals[l] == NULL && that in w.vals
    ensures FillFrom(w, l, that).Done? && Good(FillFrom(w, l, that).value, y)
    ensures FillFrom(w, l, that).value.pending == w.pending
  {
    hide Core, Stored, Fill;
    y := x;
    if w.vals[that] != NULL {
      HandleCell(w, x, that);
      y := FillKeeps(w, x, l, w.nodes[w.vals[that]].contents.it);
    }
  }

  lemma MoveIntoKeeps(w: World, x: Witness, l: Location, rhs: Location) returns (y: Witness)
    requires Good(w, x) && l in w.vals && rhs in w.vals && l != rhs && w.vals[l] == NULL
    ensures MoveInto(w, l, rhs).Done? && Good(MoveInto(w, l, rhs).value, y)
    ensures MoveInto(w, l, rhs).value.pending == w.pending
  {
    hide Core, Stored;
    y := x;
    var a := w.vals[rhs];
    if a != NULL {
      HandleCell(w, x, rhs);
      NotHeld(w, x, InHandle(l));
      var n := if IsPhantom(w.nodes[a]) then w.nodes[a].(payload := Param(Slot(l))) else w.nodes[a];
      MoveKeeps(w, x, a, n, InHandle(l));
      y := Moved(x, a, InHandle(l));
      assert w.nodes[a := w.nodes[a]] == w.nodes;
      CoreKept(WithCell(w, a, n), MoveInto(w, l, rhs).value, y);
      StoredMoved(w, MoveInto(w, l, rhs).value, x.held, InHandle(rhs), InHandle(l));
    }
  }

  /** The cell of a handle is made weak without callback, or strong again. */
  lemma TweakKeeps(w: World, x: Witness, l: Location, n: Node) returns (y: Witness)
    requires Good(w, x) && l in w.vals && w.vals[l] != NULL
    requires n.state == Normal || (IsPhantom(n) && n.payload == Param(Slot(l)))
    requires n.contents.Holds?
    ensures Good(WithCell(w, w.vals[l], n), y)
  {
    hide Core, Stored;
    HandleCell(w, x, l);
    MoveKeeps(w, x, w.vals[l], n, InHandle(l));
    y := Moved(x, w.vals[l], InHandle(l));
    assert y.held == x.held;
    StoredSame(w, WithCell(w, w.vals[l], n), x.held);
  }

  // ------------------------------------------------- maps

  /** `m`, `k` is the map and key that place `p` belongs to. */
  predicate EntryOf(p: Place, m: MapId, k: Key) {
    match p
    case InMap(m', k') => m' == m && k' == k
    case InFrame(_, m', k') => m' == m && k' == k
    case _ => false
  }

  /** The data attached to an entry that is armed or near death. */
  lemma EntryData(w: World, x: Witness, a: Address, m: MapId, k: Key)
    requires Core(w, x) && a in x.owner && EntryOf(x.owner[a], m, k)
    ensures a in w.nodes && w.nodes[a].state != Free && a != NULL && m in w.traits
    ensures if w.traits[m].callbackKind == NotWeak then
              w.nodes[a].state == Normal && CarriesNoData(x.data, a) && w.nodes[a].contents.Holds?
            else
              var n := w.nodes[a];
              && (n.state == Weak || n.state == NearDeath)
              && n.weakness != NoCallback && n.callback == Some(w.traits[m].mapClass)
              && n.payload.Param? && n.payload.parameter.CallbackData?
              && var p := n.payload.parameter.id;
                 && p < |x.data| && x.data[p] == AtCell(a)
                 && p < |w.params| && w.params[p] == ParamRecord(m, k)
                 && (n.state == Weak ==> n.contents.Holds?)
  {
    hide FreeListed, PendingListed, Accounted;
    NullIsNoCell(w, x);
    assert FitsOwner(w.traits, w.params, x.data, w.nodes[a], a, x.owner[a]);
  }

  /** `Release` of an entry on its way to a handle. */
  lemma ReleaseKeeps(w: World, x: Witness, a: Address, m: MapId, k: Key, l: Location) returns (y: Witness)
    requires Core(w, x) && a in x.owner && EntryOf(x.owner[a], m, k) && InHandle(l) !in x.held
    requires a in w.nodes ==> w.nodes[a].state != NearDeath
    ensures m in w.traits && Release(w, w.traits[m].callbackKind, a).Done?
    ensures Core(Release(w, w.traits[m].callbackKind, a).value, y)
    ensures y == Moved(x, a, InHandle(l)).(data := y.data)
    ensures !w.traits[m].callbackKind.NotWeak? ==>
              w.nodes[a].state == Weak && w.nodes[a].payload.parameter.CallbackData?
  {
    hide FreeListed, Owned, Disciplined, DataTracked, PendingListed, Accounted, CarriesNoData, EntryOf;
    EntryData(w, x, a, m, k);
    var q := InHandle(l);
    if w.traits[m].callbackKind == NotWeak {
      MoveKeeps(w, x, a, w.nodes[a], q);
      assert w.nodes[a := w.nodes[a]] == w.nodes;
      CoreKept(WithCell(w, a, w.nodes[a]), w, Moved(x, a, q));
      y := Moved(x, a, q);
    } else {
      y := FinishKeeps(w, x, a, w.nodes[a].(state := Normal, payload := Param(NullParameter)), l);
    }
  }

  lemma FinishKeeps(w: World, x: Witness, a: Address, n: Node, l: Location) returns (y: Witness)
    requires Core(w, x) && a in x.owner && a in w.nodes && w.nodes[a].state == Weak && InHandle(l) !in x.held
    requires w.nodes[a].payload.Param? && w.nodes[a].payload.parameter.CallbackData?
    requires var p := w.nodes[a].payload.parameter.id; p < |x.data| && x.data[p] == AtCell(a)
    requires n.state == Normal && n.contents.Holds?
    ensures var p := w.nodes[a].payload.parameter.id;
            && y == Moved(x, a, InHandle(l)).(data := x.data[p := Finished])
            && Core(DisposeData(WithCell(w, a, n), p), y)
  {
    hide FreeListed, Owned, Disciplined, DataTracked, PendingListed, Accounted, CarriesNoData;
    var q, p := InHandle(l), w.nodes[a].payload.parameter.id;
    var data := x.data[p := Finished];
    FreeListKept(w.nodes, w.top, w.firstFree, x.free, a, n);
    OwnedMoved(w.nodes, x.held, x.owner, a, n, q);
    DisciplineElsewhere(w.nodes, w.traits, w.params, x.data, x.owner, a, p, Finished);
    DisciplineMoved(w.nodes, w.traits, w.params, data, x.owner - {a}, a, n, q);
    assert (x.owner - {a})[a := q] == x.owner[a := q];
    DataFinished(w.nodes, w.second, x.data, a, n, p);
    PendingKept(w.nodes, w.pending, a, n);
    AccountsKept(w.nodes, multiset(w.log), x.data, a, n);
    AccountsFinished(w.nodes[a := n], multiset(w.log), x.data, p);
    y := Moved(x, a, q).(data := data);
  }

  /** The first half of `SetUnique`: the cell of a handle becomes a map entry. */
  lemma ArmKeeps(w: World, x: Witness, m: MapId, k: Key, l: Location) returns (y: Witness)
    requires Good(w, x) && l in w.vals && w.vals[l] != NULL && w.vals[l] in x.owner
    requires m in w.traits && InMap(m, k) !in x.held
    requires w.traits[m].callbackKind == NotWeak ==> w.vals[l] in w.nodes && !IsPhantom(w.nodes[w.vals[l]])
    ensures Arm(w, m, k, w.vals[l]).Done? && Core(Arm(w, m, k, w.vals[l]).value, y)
    ensures y == Moved(x, w.vals[l], InMap(m, k)).(data := y.data)
  {
    hide FreeListed, Owned, Disciplined, DataTracked, PendingListed, Accounted, CarriesNoData, Stored;
    HandleCell(w, x, l);
    var a, q := w.vals[l], InMap(m, k);
    var n := Arm(w, m, k, a).value.nodes[a];
    if w.traits[m].callbackKind == NotWeak {
      MoveKeeps(w, x, a, n, q);
      y := Moved(x, a, q);
    } else {
      var r := ParamRecord(m, k);
      var params, data := w.params + [r], x.data + [AtCell(a)];
      FreeListKept(w.nodes, w.top, w.firstFree, x.free, a, n);
      OwnedMoved(w.nodes, x.held, x.owner, a, n, q);
      DisciplineExtended(w.nodes, w.traits, w.params, x.data, x.owner, r, AtCell(a));
      assert FitsOwner(w.traits, params, data, n, a, q);
      DisciplineMoved(w.nodes, w.traits, params, data, x.owner, a, n, q);
      DataArmed(w.nodes, w.second, x.data, a, n);
      PendingKept(w.nodes, w.pending, a, n);
      AccountsKept(w.nodes, multiset(w.log), x.data, a, n);
      AccountsArmed(w.nodes[a := n], multiset(w.log), x.data, a);
      y := Moved(x, a, q).(data := data);
    }
  }

  /** An entry moves to the result handle `out`. */
  lemma TakeKeeps(w: World, x: Witness, p: Place, m: MapId, k: Key, v: World, out: Location) returns (y: Witness)
    requires Good(w, x) && EntryOf(p, m, k) && CellAt(w, p) != NULL && out !in w.vals
    requires CellAt(w, p) in w.nodes ==> w.nodes[CellAt(w, p)].state != NearDeath
    requires SameCore(w, v) && v.vals == w.vals && Rewritten(w, v, p, NULL) && Filled(v)
    ensures m in w.traits && Release(v, w.traits[m].callbackKind, CellAt(w, p)).Done?
    ensures var r := Release(v, w.traits[m].callbackKind, CellAt(w, p)).value;
            Good(r.(vals := r.vals[out := CellAt(w, p)]), y)
    ensures y == Moved(x, CellAt(w, p), InHandle(out)).(data := y.data)
  {
    hide Core, Stored;
    var a := CellAt(w, p);
    StoredCell(w, x, p);
    NotHeld(w, x, InHandle(out));
    CoreKept(w, v, x);
    y := ReleaseKeeps(v, x, a, m, k, out);
    ReleasePlaces(v, v, w.traits[m].callbackKind, a);
    hide Release;
    var r := Release(v, w.traits[m].callbackKind, a).value;
    var f := r.(vals := r.vals[out := a]);
    CoreKept(r, f, y);
    StoredMoved(w, f, x.held, p, InHandle(out));
  }

  lemma MapRemoveKeeps(w: World, x: Witness, m: MapId, k: Key, out: Location) returns (y: Witness)
    requires Good(w, x) && w.pending == [] && IsMap(w, m) && out !in w.vals
    ensures MapRemove(w, m, k, out).Done? && Good(MapRemove(w, m, k, out).value, y)
  {
    hide Core, Stored;
    var p, v := InMap(m, k), WithImpl(w, m, w.impls[m] - {k});
    if CellAt(w, p) == NULL {
      y := x;
      assert w.impls[m] - {k} == w.impls[m];
      assert w.impls[m := w.impls[m]] == w.impls;
      NewHandleKeeps(w, x, out);
      assert MapRemove(w, m, k, out) == NewHandle(w, out);
    } else {
      StoredCell(w, x, p);
      NoneNearDeath(w, x, CellAt(w, p));
      y := TakeKeeps(w, x, p, m, k, v, out);
    }
  }

  lemma NoneNearDeath(w: World, x: Witness, a: Address)
    requires Core(w, x) && w.pending == [] && a in w.nodes
    ensures w.nodes[a].state != NearDeath
  {
    hide FreeListed, Owned, Disciplined, DataTracked, Accounted;
  }

  /** The second half of `SetUnique`, when nothing is stored under the key. */
  function Insert(w: World, m: MapId, k: Key, l: Location): Outcome<World>
    requires IsMap(w, m) && l in w.vals
  {
    var w1 :- Arm(w, m, k, w.vals[l]);
    Done(WithImpl(w1, m, w.impls[m][k := w.vals[l]]).(vals := w.vals[l := NULL]))
  }

  lemma InsertKeeps(w: World, x: Witness, m: MapId, k: Key, l: Location) returns (y: Witness)
    requires Good(w, x) && l in w.vals && w.vals[l] != NULL && IsMap(w, m) && k !in w.impls[m]
    requires w.traits[m].callbackKind == NotWeak ==> w.vals[l] in w.nodes && !IsPhantom(w.nodes[w.vals[l]])
    ensures Insert(w, m, k, l).Done? && Good(Insert(w, m, k, l).value, y)
  {
    hide Core, Stored;
    HandleCell(w, x, l);
    NotHeld(w, x, InMap(m, k));
    y := ArmKeeps(w, x, m, k, l);
    var f := Insert(w, m, k, l).value;
    CoreKept(Arm(w, m, k, w.vals[l]).value, f, y);
    StoredMoved(w, f, x.held, InHandle(l), InMap(m, k));
  }

  /** `r` with the stored addresses of `v`. */
  function WithPlaces(r: World, v: World): World {
    r.(vals := v.vals, impls := v.impls, frames := v.frames, vectors := v.vectors)
  }

  lemma ReleasePlaces(w: World, v: World, kind: CallbackKind, b: Address)
    requires SameCore(w, v)
    ensures Release(v, kind, b).Done? <==> Release(w, kind, b).Done?
    ensures Release(w, kind, b).Done? ==>
              && Release(v, kind, b).value == WithPlaces(Release(w, kind, b).value, v)
              && WithPlaces(Release(w, kind, b).value, w) == Release(w, kind, b).value
              && Release(w, kind, b).value.traits == w.traits
  {
  }

  lemma ArmPlaces(w: World, v: World, m: MapId, k: Key, a: Address)
    requires SameCore(w, v) && m in w.traits && Arm(w, m, k, a).Done?
    ensures Arm(v, m, k, a) == Done(WithPlaces(Arm(w, m, k, a).value, v))
    ensures Arm(w, m, k, a).value.traits == w.traits && WithPlaces(Arm(w, m, k, a).value, w) == Arm(w, m, k, a).value
  {
  }

  /** Arming one cell and releasing another commute; neither looks at stored addresses. */
  lemma ArmThenRelease(w: World, m: MapId, k: Key, a: Address, b: Address)
    requires m in w.traits && a in w.nodes && w.nodes[a].state != Free && w.nodes[a].contents != Zapped
    requires a != b && Release(w, w.traits[m].callbackKind, b).Done?
    ensures Arm(w, m, k, a).Done? && Arm(Release(w, w.traits[m].callbackKind, b).value, m, k, a).Done?
    ensures Release(Arm(w, m, k, a).value, w.traits[m].callbackKind, b)
         == Arm(Release(w, w.traits[m].callbackKind, b).value, m, k, a)
  {
    var kind := w.traits[m].callbackKind;
    var u, v := Arm(w, m, k, a).value, Release(w, kind, b).value;
    if kind != NotWeak && b != NULL {
      assert Release(u, kind, b).value.nodes == Arm(v, m, k, a).value.nodes;
    }
  }

  /** `SetUnique` arms the new cell before it releases the old one; the effect is that of
      removing the old entry and then inserting the new one. */
  lemma SetIsRemoveThenInsert(w: World, x: Witness, m: MapId, k: Key, l: Location, out: Location)
    requires Good(w, x) && w.pending == [] && IsMap(w, m) && out !in w.vals
    requires l in w.vals && w.vals[l] != NULL
    ensures var u := MapRemove(w, m, k, out);
            u.Done? && IsMap(u.value, m) && l in u.value.vals && MapSet(w, m, k, l, out) == Insert(u.value, m, k, l)
  {
    hide Core, Stored, Filled;
    var a, b, kind := w.vals[l], Lookup(w.impls[m], k), w.traits[m].callbackKind;
    var _ := MapRemoveKeeps(w, x, m, k, out);
    HandleCell(w, x, l);
    assert CellAt(w, InMap(m, k)) == b;
    if b != NULL {
      StoredCell(w, x, InMap(m, k));
    }
    assert a != b;
    ReleasePlaces(w, WithImpl(w, m, w.impls[m] - {k}), kind, b);
    ArmThenRelease(w, m, k, a, b);
    hide Arm, Release;
    var armed := Arm(w, m, k, a).value;
    ReleasePlaces(armed, WithImpl(armed, m, w.impls[m][k := a]).(vals := w.vals[l := NULL]), kind, b);
    var u := MapRemove(w, m, k, out).value;
    ArmPlaces(Release(w, kind, b).value, u, m, k, a);
    assert w.vals[l := NULL][out := b] == w.vals[out := b][l := NULL];
    assert (w.impls[m] - {k})[k := a] == w.impls[m][k := a];
    assert w.impls[m := w.impls[m] - {k}][m := w.impls[m][k := a]] == w.impls[m := w.impls[m][k := a]];
  }

  lemma MapSetKeeps(w: World, x: Witness, m: MapId, k: Key, l: Location, out: Location) returns (y: Witness)
    requires Good(w, x) && w.pending == [] && IsMap(w, m) && out !in w.vals
    requires l in w.vals && w.vals[l] != NULL
    requires w.traits[m].callbackKind == NotWeak ==> w.vals[l] in w.nodes && !IsPhantom(w.nodes[w.vals[l]])
    ensures MapSet(w, m, k, l, out).Done? && Good(MapSet(w, m, k, l, out).value, y)
  {
    hide Core, Stored, MapSet, Insert;
    SetIsRemoveThenInsert(w, x, m, k, l, out);
    var z := MapRemoveKeeps(w, x, m, k, out);
    var u := MapRemove(w, m, k, out).value;
    y := InsertKeeps(u, z, m, k, l);
  }

  lemma BeginRoundPlaces(w: World, m: MapId, p: Place)
    requires IsMap(w, m)
    ensures CellAt(BeginRound(w, m).value, p) ==
            if p.InMap? && p.mapId == m then NULL else CellAt(w, Unshift(p, m, |w.frames|))
  {
  }

  lemma BeginRoundKeeps(w: World, x: Witness, m: MapId) returns (y: Witness)
    requires Good(w, x) && IsMap(w, m)
    ensures BeginRound(w, m).Done? && Good(BeginRound(w, m).value, y)
  {
    hide FreeListed, Owned, Disciplined, DataTracked, PendingListed, Accounted, Stored, CellAt;
    var n := |w.frames|;
    var r := BeginRound(w, m).value;
    y := Shifted(x, m, n);
    forall q | q in x.held ensures !(q.InFrame? && q.frame == n) {
      HeldNotNull(w, x, q);
      NoSuchFrame(w, q);
    }
    OwnedShifted(w.nodes, x, m, n);
    DisciplineShifted(w.nodes, w.traits, w.params, x, m, n);
    forall p: Place
      ensures CellAt(r, p) == if p.InMap? && p.mapId == m then NULL else CellAt(w, Unshift(p, m, n))
    {
      BeginRoundPlaces(w, m, p);
    }
    StoredShifted(w, r, x, m, n);
  }

  lemma NoSuchFrame(w: World, q: Place)
    ensures q.InFrame? && q.frame == |w.frames| ==> CellAt(w, q) == NULL
  {
  }

  lemma HeldNotNull(w: World, x: Witness, q: Place)
    requires Good(w, x) && q in x.held
    ensures CellAt(w, q) == x.held[q] != NULL
  {
    hide FreeListed, Disciplined, DataTracked, PendingListed, Accounted, CellAt;
    NullIsNoCell(w, x);
    assert CellAt(w, q) == HeldAt(x.held, q);
  }

  lemma DrainOneKeeps(w: World, x: Witness, k: Key, out: Location) returns (y: Witness)
    requires Good(w, x) && w.pending == [] && w.frames != [] && out !in w.vals
    requires k in w.frames[|w.frames| - 1].rest
    ensures DrainOne(w, k, out).Done? && Good(DrainOne(w, k, out).value, y)
  {
    hide Core, Stored, Release;
    var top := |w.frames| - 1;
    var f := w.frames[top];
    var p, v := InFrame(top, f.mapId, k), w.(frames := w.frames[top := f.(rest := f.rest - {k})]);
    StoredCell(w, x, p);
    NoneNearDeath(w, x, CellAt(w, p));
    y := TakeKeeps(w, x, p, f.mapId, k, v, out);
  }

  lemma EndRoundKeeps(w: World, x: Witness)
    requires Good(w, x) && w.frames != [] && w.frames[|w.frames| - 1].rest == map[]
    ensures EndRound(w).Done? && Good(EndRound(w).value, x)
  {
    hide Core, Stored;
    CoreKept(w, EndRound(w).value, x);
    StoredSame(w, EndRound(w).value, x.held);
  }

  lemma TraitsFit(nodes: map<Address, Node>, traits: map<MapId, Traits>, params: seq<ParamRecord>,
                  data: seq<Whereabouts>, owner: map<Address, Place>, m: MapId, t: Traits)
    requires Disciplined(nodes, traits, params, data, owner)
    ensures m !in traits ==> Disciplined(nodes, traits[m := t], params, data, owner)
    ensures (forall a, k: Key :: a in owner ==> !EntryOf(owner[a], m, k)) ==>
              Disciplined(nodes, traits - {m}, params, data, owner)
  {
    hide ArmedFor;
    if forall a, k: Key :: a in owner ==> !EntryOf(owner[a], m, k) {
      forall a | a in owner
        ensures a in nodes && FitsOwner(traits - {m}, params, data, nodes[a], a, owner[a])
      {
        assert owner[a].InMap? || owner[a].InFrame? ==> !EntryOf(owner[a], m, owner[a].key);
      }
    }
  }

  lemma NewMapKeeps(w: World, x: Witness, m: MapId, t: Traits)
    requires Good(w, x) && m !in w.traits && m !in w.impls
    ensures NewMap(w, m, t).Done? && Good(NewMap(w, m, t).value, x)
  {
    hide FreeListed, Owned, Disciplined, DataTracked, PendingListed, Accounted, Stored;
    TraitsFit(w.nodes, w.traits, w.params, x.data, x.owner, m, t);
    StoredSame(w, NewMap(w, m, t).value, x.held);
  }

  /** A map may be destroyed once it is empty and none of its entries is still being cleared. */
  lemma DestroyMapKeeps(w: World, x: Witness, m: MapId)
    requires Good(w, x) && IsMap(w, m) && w.impls[m] == map[]
    requires forall i: nat :: i < |w.frames| && w.frames[i].mapId == m ==> w.frames[i].rest == map[]
    ensures DestroyMap(w, m).Done? && Good(DestroyMap(w, m).value, x)
  {
    hide FreeListed, Owned, Disciplined, DataTracked, PendingListed, Accounted, Stored;
    forall a, k: Key | a in x.owner ensures !EntryOf(x.owner[a], m, k) {
      OwnerStores(w, x, a);
    }
    TraitsFit(w.nodes, w.traits, w.params, x.data, x.owner, m, Traits(PersistentValueMap, NotWeak, ""));
    StoredSame(w, DestroyMap(w, m).value, x.held);
  }

  lemma OwnerStores(w: World, x: Witness, a: Address)
    requires Good(w, x) && a in x.owner
    ensures CellAt(w, x.owner[a]) == a != NULL && a in w.nodes && w.nodes[a].state != Free
  {
    hide FreeListed, Disciplined, DataTracked, PendingListed, Accounted, CellAt;
    NullIsNoCell(w, x);
    assert CellAt(w, x.owner[a]) == HeldAt(x.held, x.owner[a]);
  }

  // ------------------------------------------------- vectors

  lemma AppendKeeps(w: World, x: Witness, v: VectorId, l: Location) returns (y: Witness)
    requires Good(w, x) && v in w.vectors && l in w.vals
    requires w.vals[l] in w.nodes ==> !IsPhantom(w.nodes[w.vals[l]])
    ensures Append(w, v, l).Done? && Good(Append(w, v, l).value, y)
  {
    hide Core, Stored;
    var a, q, r := w.vals[l], InVector(v, |w.vectors[v]|), Append(w, v, l).value;
    if a == NULL {
      y := x;
      CoreKept(w, r, x);
      StoredSame(w, r, x.held);
    } else {
      HandleCell(w, x, l);
      NotHeld(w, x, q);
      MoveKeeps(w, x, a, w.nodes[a], q);
      y := Moved(x, a, q);
      assert w.nodes[a := w.nodes[a]] == w.nodes;
      CoreKept(WithCell(w, a, w.nodes[a]), r, y);
      StoredMoved(w, r, x.held, InHandle(l), q);
    }
  }

  lemma {:induction false} DestroyAllPlaces(w: World, cells: seq<Address>, vectors: map<VectorId, seq<Address>>)
    ensures DestroyAll(w.(vectors := vectors), cells).Done? <==> DestroyAll(w, cells).Done?
    ensures DestroyAll(w, cells).Done? ==>
              && DestroyAll(w.(vectors := vectors), cells).value == DestroyAll(w, cells).value.(vectors := vectors)
              && DestroyAll(w, cells).value.vectors == w.vectors
    decreases |cells|
  {
    if cells != [] && Destroy(w, cells[0]).Done? {
      DestroyAllPlaces(Destroy(w, cells[0]).value, cells[1..], vectors);
      assert Destroy(w.(vectors := vectors), cells[0]).value == Destroy(w, cells[0]).value.(vectors := vectors);
    }
  }

  /** The loop of `PersistentValueVector::Clear` from index `i` on. Forgetting each address
      right after its cell is destroyed, instead of all of them at the end, makes no difference. */
  lemma {:induction false} ClearFromKeeps(w: World, x: Witness, v: VectorId, i: nat) returns (y: Witness)
    requires Good(w, x) && v in w.vectors && i <= |w.vectors[v]|
    requires forall j: nat :: j < i ==> w.vectors[v][j] == NULL
    ensures var r := DestroyAll(w, w.vectors[v][i..]);
            r.Done? && Good(r.value.(vectors := w.vectors[v := []]), y)
    decreases |w.vectors[v]| - i
  {
    hide Core, Stored;
    var cells := w.vectors[v];
    if i == |cells| {
      y := x;
      CoreKept(w, w.(vectors := w.vectors[v := []]), x);
      StoredSame(w, w.(vectors := w.vectors[v := []]), x.held);
    } else {
      var a := cells[i];
      assert cells[i..][1..] == cells[i + 1..];
      if a == NULL {
        y := ClearFromKeeps(w, x, v, i + 1);
      } else {
        var u, z := ClearOneKeeps(w, x, v, i);
        assert u.vectors[v][i + 1..] == cells[i + 1..];
        y := ClearFromKeeps(u, z, v, i + 1);
        DestroyAllPlaces(Destroy(w, a).value, cells[i + 1..], u.vectors);
        assert u.vectors[v := []] == w.vectors[v := []];
      }
    }
  }

  function Nulled(cells: seq<Address>, i: nat): seq<Address>
    requires i < |cells|
  {
    cells[i := NULL]
  }

  lemma ClearOneKeeps(w: World, x: Witness, v: VectorId, i: nat) returns (u: World, y: Witness)
    requires Good(w, x) && v in w.vectors && i < |w.vectors[v]| && w.vectors[v][i] != NULL
    ensures Destroy(w, w.vectors[v][i]).Done?
    ensures u == Destroy(w, w.vectors[v][i]).value.(vectors := w.vectors[v := Nulled(w.vectors[v], i)])
    ensures Good(u, y)
  {
    hide Core, Stored;
    var a := w.vectors[v][i];
    StoredCell(w, x, InVector(v, i));
    DestroyKeeps(w, x, a);
    u := Destroy(w, a).value.(vectors := w.vectors[v := Nulled(w.vectors[v], i)]);
    y := Dropped(x, a);
    CoreKept(Destroy(w, a).value, u, y);
    StoredAdded(w, u, x.held, InVector(v, i), NULL);
  }

  lemma VectorClearKeeps(w: World, x: Witness, v: VectorId) returns (y: Witness)
    requires Good(w, x) && v in w.vectors
    ensures VectorClear(w, v).Done? && Good(VectorClear(w, v).value, y)
  {
    hide Core, Stored, Filled;
    y := ClearFromKeeps(w, x, v, 0);
    assert w.vectors[v][0..] == w.vectors[v];
    DestroyAllPlaces(w, w.vectors[v], w.vectors);
  }

  lemma {:induction false} DestroyAllPending(w: World, cells: seq<Address>)
    ensures DestroyAll(w, cells).Done? ==> DestroyAll(w, cells).value.pending == w.pending
    decreases |cells|
  {
    if cells != [] && Destroy(w, cells[0]).Done? {
      DestroyAllPending(Destroy(w, cells[0]).value, cells[1..]);
    }
  }

  lemma NewVectorKeeps(w: World, x: Witness, v: VectorId)
    requires Good(w, x) && v !in w.vectors
    ensures NewVector(w, v).Done? && Good(NewVector(w, v).value, x)
  {
    hide Core, Stored;
    CoreKept(w, NewVector(w, v).value, x);
    StoredSame(w, NewVector(w, v).value, x.held);
  }

  lemma ForgetVectorKeeps(w: World, x: Witness, v: VectorId)
    requires Good(w, x) && v in w.vectors && w.vectors[v] == []
    ensures Good(w.(vectors := w.vectors - {v}), x)
  {
    hide Core, Stored;
    CoreKept(w, w.(vectors := w.vectors - {v}), x);
    StoredSame(w, w.(vectors := w.vectors - {v}), x.held);
  }
}
