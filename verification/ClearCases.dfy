/** `Clear` from the outside: what it hands over and gives back, and how that depends on `Dispose`. */
module ClearCases {
  import opened Cells
  import opened Reentrancy
  import opened ClearMachine
  import opened ClearRounds
  import opened ClearLoop

  /** Something was given back exactly if not everything was handed over. */
  lemma NothingMissing(handed: seq<Entry>, displaced: seq<Entry>, all: multiset<Entry>)
    requires multiset(handed) + multiset(displaced) == all
    ensures displaced == [] <==> multiset(handed) == all
  {
    if displaced != [] {
      var e := displaced[0];
      assert e in displaced && multiset(displaced)[e] > 0;
      assert all[e] == multiset(handed)[e] + multiset(displaced)[e];
    }
  }

  /** A `Clear` that has returned leaves the machine at its end. */
  lemma Returned(dispose: Disposer, start: map<Key, Address>, h: seq<Entry>, m: Machine)
    requires OnTrack(dispose, start, h, m) && |m.stack| == 1 && Idle(dispose, m.stack[0]) && m.impl == map[]
    ensures Finished(dispose, start, h) && Rounds(dispose, start, h) == m.rounds
  {
    hide After, Producible;
    var end := Tick(dispose, m);
    assert end.stack == [] && Settle(dispose, m) == Settle(dispose, end) == end;
  }

  /** `Clear` of a map, iterating in any order, with a `Dispose` whose re-insertions descend. It ends, and accounts for
      everything. It hands over everything exactly if in no round, nested or not, a call sets or
      removes what an earlier call of that round has set; the rounds are determined by the history. */
  method ClearAll(impl: map<Key, Address>, dispose: Disposer, order: Order,
                  ghost grade: (seq<Entry>, nat) -> ORDINAL, ghost bound: ORDINAL)
    returns (handed: seq<Entry>, displaced: seq<Entry>, count: nat)
    requires Descending(impl, dispose, grade, bound)
    ensures Finished(dispose, impl, handed) && InOrder(dispose, impl, order, handed)
    ensures handed == [] <==> impl == map[]
    ensures multiset(handed) + multiset(displaced) == Items(impl) + PutBy(dispose, handed)
    ensures Flat(Rounds(dispose, impl, handed)) == Range(0, |handed|)
    ensures displaced == [] <==> AllFree(dispose, handed, Rounds(dispose, impl, handed))
    ensures multiset(handed) == Items(impl) + PutBy(dispose, handed) <==>
            AllFree(dispose, handed, Rounds(dispose, impl, handed))
    ensures AllLost(dispose, handed, Rounds(dispose, impl, handed), displaced)
    ensures bound.IsNat ==> count <= bound.Offset + 1
  {
    hide Items, PutBy, Descending, AllLost, AllFree, Flat, Range, Finished, Rounds, RoundsOf, OnTrack, InOrder;
    var m := new ValueMap(impl, dispose, order, grade, bound);
    assert m.stack == [] + [FRESH];
    ghost var idle;
    idle, count := m.Clear([], FRESH, bound + 1);
    handed, displaced := m.handed, m.displaced;
    Returned(dispose, impl, handed, m.Now());
    NoItems();
    NothingMissing(handed, displaced, Items(impl) + PutBy(dispose, handed));
    assert m.rounds[0..] == m.rounds;
  }

  /** Every history that the machine can finish is what `Clear` hands over in some order. */
  method ClearAlong(impl: map<Key, Address>, dispose: Disposer, h: seq<Entry>,
                    ghost grade: (seq<Entry>, nat) -> ORDINAL, ghost bound: ORDINAL)
    returns (handed: seq<Entry>, displaced: seq<Entry>)
    requires Descending(impl, dispose, grade, bound) && Finished(dispose, impl, h)
    ensures handed == h && multiset(h) + multiset(displaced) == Items(impl) + PutBy(dispose, h)
    ensures displaced == [] <==> AllFree(dispose, h, Rounds(dispose, impl, h))
    ensures multiset(handed) == Items(impl) + PutBy(dispose, h) <==> AllFree(dispose, h, Rounds(dispose, impl, h))
  {
    hide Items, PutBy, Descending, AllLost, AllFree, Flat, Range, Finished, Rounds, InOrder;
    var count;
    handed, displaced, count := ClearAll(impl, dispose, Along(h), grade, bound);
    OrderDecides(dispose, impl, handed, h);
  }

  /** Any order. */
  function AnyOrder(): Order {
    (h: seq<Entry>) => None
  }

  /** However `Clear` goes, no round of it clashes. */
  ghost predicate NeverClashes(start: map<Key, Address>, dispose: Disposer) {
    forall h :: Finished(dispose, start, h) ==> AllFree(dispose, h, Rounds(dispose, start, h))
  }

  /** Then every entry is handed over exactly once for each time it was put in. */
  method ClearHandsOverAll(impl: map<Key, Address>, dispose: Disposer, order: Order,
                           ghost grade: (seq<Entry>, nat) -> ORDINAL, ghost bound: ORDINAL)
    returns (handed: seq<Entry>, count: nat)
    requires Descending(impl, dispose, grade, bound) && NeverClashes(impl, dispose)
    ensures Finished(dispose, impl, handed) && multiset(handed) == Items(impl) + PutBy(dispose, handed)
    ensures bound.IsNat ==> count <= bound.Offset + 1
  {
    hide Items, PutBy, Descending, AllLost, AllFree, Flat, Range, Finished, Rounds;
    var displaced;
    handed, displaced, count := ClearAll(impl, dispose, order, grade, bound);
  }

  /** Enough for this: a `Dispose` that keeps to zones, or one that files everything under keys of
      its own, if no call of it clashes with itself. */
  lemma EnoughNotToClash(start: map<Key, Address>, dispose: Disposer, zone: Key -> Key)
    requires forall h :: Finished(dispose, start, h) ==>
               SelfFree(dispose, h) && (Zoned(dispose, zone, h) || FreshKeys(dispose, h))
    ensures NeverClashes(start, dispose)
  {
    hide Producible, After, Settle, SelfFree, Zoned, FreshKeys, AllFree, Rounds, RoundsOf;
    forall h | Finished(dispose, start, h) ensures AllFree(dispose, h, Rounds(dispose, start, h)) {
      RoundsAreRounds(dispose, start, h);
      if Zoned(dispose, zone, h) {
        ZonesDoNotClash(dispose, zone, h, Rounds(dispose, start, h));
      } else {
        FreshKeysDoNotClash(dispose, h, Rounds(dispose, start, h));
      }
    }
  }

  lemma OneCallIsFree(ops: seq<Reentry>)
    requires |ops| <= 1
    ensures ClashFree(ops)
  {
  }

  // ------------------------------------------------- the default Dispose

  /** A `Dispose` that keeps its hands off the map: everything is handed over in one round. */
  method ClearWithDefaultTraits(impl: map<Key, Address>) returns (handed: seq<Entry>, count: nat)
    ensures multiset(handed) == Items(impl) && count <= 1
  {
    hide Items, Finished, PutBy;
    var dispose: Disposer := h => [];
    NothingClashes();
    EnoughNotToClash(impl, dispose, k => k);
    handed, count := ClearHandsOverAll(impl, dispose, AnyOrder(), (h, i) => 0, 0);
    NothingPut(dispose, handed);
  }

  lemma {:induction false} NothingPut(dispose: Disposer, h: seq<Entry>)
    requires forall g :: dispose(g) == []
    ensures PutBy(dispose, h) == multiset{}
    decreases |h|
  {
    if h != [] {
      NothingPut(dispose, h[..|h| - 1]);
    }
  }

  // ------------------------------------------------- an entry that is never handed over

  /** A `Dispose` that, handed `a`, sets the key of `a` twice. */
  function SetsTwice(k: Key, a: Address, b: Address, c: Address): Disposer {
    (h: seq<Entry>) => if h == [Entry(k, a)] then [Put(k, b), Put(k, c)] else []
  }

  lemma SetsTwiceDescends(start: map<Key, Address>, k: Key, a: Address, b: Address, c: Address)
    ensures Descending(start, SetsTwice(k, a, b, c), (h, i) => 0, 1)
  {
    hide Producible, CauseOf;
    var dispose := SetsTwice(k, a, b, c);
    forall h, i: nat | h != [] && IsPut(dispose, h, i) && Producible(dispose, start, h)
      ensures CauseOf(dispose, start, h).None?
    {
      CauseIsEarlier(dispose, start, h);
    }
  }

  /** Under such a `Dispose`, `b` was put into the map and is yet never handed over. */
  method OverwrittenEntryIsNotHanded(k: Key, a: Address, b: Address, c: Address)
    returns (handed: seq<Entry>, displaced: seq<Entry>)
    requires a != b && b != c && a != c
    ensures Entry(k, b) in PutBy(SetsTwice(k, a, b, c), handed)
    ensures Entry(k, b) !in handed && Entry(k, b) in displaced
  {
    hide Items, PutBy, Descending, AllLost, AllFree, Finished, Rounds;
    var start, dispose := map[k := a], SetsTwice(k, a, b, c);
    SetsTwiceDescends(start, k, a, b, c);
    var count;
    handed, displaced, count := ClearAll(start, dispose, AnyOrder(), (h, i) => 0, 1);
    assert k in start;
    EveryCallLoses(dispose, handed, Rounds(dispose, start, handed), displaced, 0);
    SetsTwiceLoses(k, a, b, c, handed, displaced);
  }

  lemma PutsOfTwo(x: Reentry, y: Reentry)
    ensures Puts([x, y], 0) == PutOf(x) + PutOf(y)
  {
    assert Puts([x, y], 2) == multiset{};
  }

  lemma NoPuts()
    ensures Puts([], 0) == multiset{}
  {
  }

  lemma {:induction false} PutAtFirst(dispose: Disposer, h: seq<Entry>)
    requires h != [] && forall g :: |g| > 1 ==> dispose(g) == []
    ensures PutBy(dispose, h) == Puts(dispose(h[..1]), 0)
    decreases |h|
  {
    var g := h[..|h| - 1];
    if g == [] {
      assert h[..1] == h;
    } else {
      PutAtFirst(dispose, g);
      assert g[..1] == h[..1];
    }
  }

  lemma OneItem(k: Key, a: Address)
    ensures Items(map[k := a]) == multiset{Entry(k, a)}
  {
    var one: map<Key, Address> := map[k := a];
    ItemsWithout(one, k);
    assert one - {k} == map[];
  }

  /** The first entry handed over can only be the one that was there. */
  lemma SetsTwiceFirst(k: Key, a: Address, b: Address, c: Address, handed: seq<Entry>, displaced: seq<Entry>)
    requires handed != []
    requires multiset(handed) + multiset(displaced) ==
             multiset{Entry(k, a)} + Puts(SetsTwice(k, a, b, c)([handed[0]]), 0)
    ensures handed[0] == Entry(k, a)
  {
    hide Puts;
    NoPuts();
    assert handed[0] in multiset(handed) + multiset(displaced);
  }

  lemma SetsTwiceLoses(k: Key, a: Address, b: Address, c: Address, handed: seq<Entry>, displaced: seq<Entry>)
    requires a != b && b != c && a != c && handed != []
    requires multiset(handed) + multiset(displaced) == Items(map[k := a]) + PutBy(SetsTwice(k, a, b, c), handed)
    requires var ops := SetsTwice(k, a, b, c)(handed[..1]); LostIn(ops, |ops|, displaced)
    ensures Entry(k, b) in PutBy(SetsTwice(k, a, b, c), handed)
    ensures Entry(k, b) !in handed && Entry(k, b) in displaced
  {
    hide PutBy, Items, Puts, LostIn;
    var dispose := SetsTwice(k, a, b, c);
    OneItem(k, a);
    PutAtFirst(dispose, handed);
    assert handed[..1] == [handed[0]];
    SetsTwiceFirst(k, a, b, c, handed, displaced);
    PutsOfTwo(Put(k, b), Put(k, c));
    SecondReplacesFirst(k, b, c, displaced);
    Once(Entry(k, a), Entry(k, b), Entry(k, c), handed, displaced);
  }

  lemma SecondReplacesFirst(k: Key, b: Address, c: Address, displaced: seq<Entry>)
    requires LostIn([Put(k, b), Put(k, c)], 2, displaced)
    ensures Entry(k, b) in displaced
  {
    var ops := [Put(k, b), Put(k, c)];
    assert Current(ops, 0, 1) && Touches(ops[1], ops[0].key);
  }

  lemma Once(x: Entry, y: Entry, z: Entry, handed: seq<Entry>, displaced: seq<Entry>)
    requires x != y && y != z && y in displaced
    requires multiset(handed) + multiset(displaced) == multiset{x} + (multiset{y} + multiset{z})
    ensures y !in handed
  {
    assert multiset(displaced)[y] >= 1;
    assert (multiset(handed) + multiset(displaced))[y] == 1;
  }

  // ------------------------------------------------- new keys for old entries

  /** A `Dispose` that in each of its first `n` calls files the entry anew, under another key. */
  function FilesAnew(n: nat, key: nat -> Key): Disposer {
    (h: seq<Entry>) => if h != [] && |h| <= n then [Put(key(|h|), Last(h).cell)] else []
  }

  /** How many more calls will put something in. */
  ghost function CallsLeft(n: nat): (seq<Entry>, nat) -> ORDINAL {
    (h: seq<Entry>, i: nat) => if |h| <= n then (n - |h|) as ORDINAL else 0
  }

  /** A `Dispose` descends if in no possible history it puts anything in after its first `n` calls; in
      particular if there is a bound on how much `Clear` can hand over. */
  lemma FewCallsDescend(start: map<Key, Address>, dispose: Disposer, n: nat)
    requires forall h, i: nat :: |h| > n && Producible(dispose, start, h) ==> !IsPut(dispose, h, i)
    ensures Descending(start, dispose, CallsLeft(n), n as ORDINAL)
  {
    hide Producible, CauseOf;
    forall h, i: nat | h != [] && IsPut(dispose, h, i) && Producible(dispose, start, h)
      ensures CallsLeft(n)(h, i) < Rank(CallsLeft(n), n as ORDINAL, CauseOf(dispose, start, h))
    {
      CauseIsEarlier(dispose, start, h);
    }
  }

  /** Everything is handed over, although no zones could be drawn: any entry may end up under any
      of the new keys. */
  method ClearWithRefiling(impl: map<Key, Address>, n: nat, key: nat -> Key) returns (handed: seq<Entry>, count: nat)
    requires forall i: nat, j: nat :: i < j <= n ==> key(i) != key(j)
    ensures multiset(handed) == Items(impl) + PutBy(FilesAnew(n, key), handed) && count <= n + 1
  {
    hide Items, PutBy, Descending, Finished;
    var dispose := FilesAnew(n, key);
    FewCallsDescend(impl, dispose, n);
    forall h ensures SelfFree(dispose, h) && FreshKeys(dispose, h) {
      RefilingIsFresh(n, key, h);
    }
    EnoughNotToClash(impl, dispose, k => k);
    handed, count := ClearHandsOverAll(impl, dispose, AnyOrder(), CallsLeft(n), n as ORDINAL);
  }

  lemma RefilingIsFresh(n: nat, key: nat -> Key, h: seq<Entry>)
    requires forall i: nat, j: nat :: i < j <= n ==> key(i) != key(j)
    ensures SelfFree(FilesAnew(n, key), h) && FreshKeys(FilesAnew(n, key), h)
  {
    var dispose := FilesAnew(n, key);
    forall g | g != [] && g <= h ensures ClashFree(dispose(g)) {
      OneCallIsFree(dispose(g));
    }
  }

  // ------------------------------------------------- putting entries back

  function PutBack(e: Entry): Reentry {
    Put(e.key, e.cell)
  }

  /** A `Dispose` that puts the entry back in its first `n` calls, and no more. */
  function PutsBackFor(n: nat): Disposer {
    (h: seq<Entry>) => if h != [] && |h| <= n then [PutBack(Last(h))] else []
  }

  /** Such a `Dispose` puts the same entries back again and again, and yet `Clear` ends, after at
      most `n + 1` rounds, and hands over each entry as often as it was in the map. */
  method ClearWithBoundedPuttingBack(impl: map<Key, Address>, n: nat) returns (handed: seq<Entry>, count: nat)
    ensures multiset(handed) == Items(impl) + PutBy(PutsBackFor(n), handed) && count <= n + 1
  {
    hide Items, PutBy, Descending, Finished;
    var dispose := PutsBackFor(n);
    FewCallsDescend(impl, dispose, n);
    forall h ensures SelfFree(dispose, h) && Zoned(dispose, k => k, h) {
      PuttingBackKeepsToItself(dispose, h);
    }
    EnoughNotToClash(impl, dispose, k => k);
    handed, count := ClearHandsOverAll(impl, dispose, AnyOrder(), CallsLeft(n), n as ORDINAL);
  }

  /** All that a `Dispose` does is to put back what it was handed. */
  ghost predicate OnlyPutsBack(dispose: Disposer) {
    forall h :: h != [] ==> dispose(h) == [] || dispose(h) == [PutBack(Last(h))]
  }

  lemma PuttingBackKeepsToItself(dispose: Disposer, h: seq<Entry>)
    requires OnlyPutsBack(dispose)
    ensures SelfFree(dispose, h) && Zoned(dispose, k => k, h)
  {
    forall g | g != [] && g <= h ensures ClashFree(dispose(g)) {
      OneCallIsFree(dispose(g));
    }
  }

  ghost predicate AlwaysPutsBack(dispose: Disposer) {
    forall h :: h != [] ==> dispose(h) == [PutBack(Last(h))]
  }

  lemma OnePut(dispose: Disposer, h: seq<Entry>)
    requires h != [] && dispose(h) == [PutBack(Last(h))]
    ensures PutBy(dispose, h) == PutBy(dispose, h[..|h| - 1]) + multiset{Last(h)}
  {
    PutsOfOne(PutBack(Last(h)));
  }

  lemma PutsOfOne(x: Reentry)
    ensures Puts([x], 0) == PutOf(x)
  {
    assert Puts([x], 1) == multiset{};
  }

  lemma {:induction false} AllPutBack(dispose: Disposer, h: seq<Entry>)
    requires AlwaysPutsBack(dispose)
    ensures PutBy(dispose, h) == multiset(h)
    decreases |h|
  {
    hide PutBy;
    if h == [] {
      NothingPutYet(dispose);
    } else {
      AllPutBack(dispose, h[..|h| - 1]);
      OnePut(dispose, h);
      OneMore(h);
    }
  }

  lemma NothingPutYet(dispose: Disposer)
    ensures PutBy(dispose, []) == multiset{}
  {
  }

  lemma OneMore(h: seq<Entry>)
    requires h != []
    ensures multiset(h) == multiset(h[..|h| - 1]) + multiset{Last(h)}
  {
    assert h == h[..|h| - 1] + [Last(h)];
  }

  lemma StillThere(dispose: Disposer, impl: map<Key, Address>, handed: seq<Entry>, now: map<Key, Address>)
    requires AlwaysPutsBack(dispose)
    requires Accounts(Items(impl), dispose, handed, [], now, multiset{}, multiset{})
    ensures now == impl
  {
    hide Items, PutBy;
    AllPutBack(dispose, handed);
    assert multiset(handed) + Items(now) == Items(impl) + multiset(handed);
    assert Items(now) == (multiset(handed) + Items(now)) - multiset(handed) == Items(impl);
    ItemsInjective(now, impl);
  }

  /** A `Dispose` that puts every entry back: after any number of rounds the map holds what it held
      at the start. */
  method PuttingBackNeverEnds(impl: map<Key, Address>, dispose: Disposer, n: nat)
    returns (now: map<Key, Address>, handed: seq<Entry>)
    requires AlwaysPutsBack(dispose)
    ensures now == impl && (impl != map[] ==> |handed| >= n)
  {
    hide Items, PutBy, Accounts, OnTrack, Reckoned, Descending;
    if impl == map[] {
      return impl, [];
    }
    var m := new ValueMap(impl, dispose, AnyOrder(), (h, i) => 0, 0);
    assert m.stack == [] + [FRESH];
    ghost var idle := FRESH;
    for i := 0 to n
      invariant fresh(m) && m.Valid() && m.At([], idle) && Idle(dispose, idle)
      invariant m.waiting == m.owed == multiset{} && m.displaced == [] && m.impl == impl && |m.handed| >= i
      invariant m.dispose == dispose && m.start == impl && m.grade == ((h, i) => 0) && m.bound == 0
    {
      ghost var h, done := m.handed, m.rounds;
      m.SameKeys();
      idle := m.Round([], idle, 0);
      NothingDisplaced(dispose, m.handed, |h|, m.rounds[|done|..], m.displaced);
      StillThere(dispose, impl, m.handed, m.impl);
    }
    now, handed := m.impl, m.handed;
  }

  lemma NothingDisplaced(dispose: Disposer, h: seq<Entry>, n: nat, rounds: seq<seq<nat>>, displaced: seq<Entry>)
    requires AlwaysPutsBack(dispose) && Reckoned(dispose, h, n, rounds, [], displaced)
    ensures displaced == []
  {
    hide SelfFree, Zoned, AllFree, RoundsOf;
    PuttingBackKeepsToItself(dispose, h);
    ZonesDoNotClash(dispose, k => k, h, rounds);
  }

  /** The machine is between two entries of an outermost round. */
  ghost predicate InRound(dispose: Disposer, m: Machine) {
    |m.stack| == 1 && Due(dispose, m) && Top(m).origin.Keys == Top(m).rest.Keys && m.causes.Keys == m.impl.Keys
  }

  /** The machine when the entry that `h` ends with has been handed over and put back. */
  ghost function PutBackIn(m: Machine, h: seq<Entry>): Machine
    requires h != [] && |m.stack| == 1
  {
    var top, e := Top(m), Last(h);
    var level := Level(top.rest - {e.key}, top.origin - {e.key}, top.calls + [|h| - 1], h, 1);
    m.(impl := m.impl[e.key := e.cell], causes := m.causes[e.key := Some(Cause(h, 0))], stack := [level])
  }

  /** The machine when the next round has begun. */
  ghost function NextRound(m: Machine): Machine
    requires |m.stack| == 1
  {
    var top := Top(m);
    Machine(map[], map[], m.rounds + [top.calls], [top.(rest := m.impl, origin := m.causes, calls := [])])
  }

  lemma PutBackStep(dispose: Disposer, m: Machine, h: seq<Entry>)
    requires InRound(dispose, m) && h != [] && dispose(h) == [PutBack(Last(h))] && Last(h).key in Top(m).rest
    ensures var n := PutBackIn(m, h);
            && Settle(dispose, Hand(m, h)) == (if Top(n).rest != map[] then n else NextRound(n))
            && InRound(dispose, Settle(dispose, Hand(m, h)))
  {
    hide Settle;
    var n := PutBackIn(m, h);
    PutBackTick(dispose, m, h);
    SettleStep(dispose, Hand(m, h), n);
    assert Last(h).key in n.impl;
    if Top(n).rest == map[] {
      RoundStep(dispose, n);
    } else {
      Settled(dispose, n);
    }
  }

  lemma PutBackTick(dispose: Disposer, m: Machine, h: seq<Entry>)
    requires |m.stack| == 1 && h != [] && dispose(h) == [PutBack(Last(h))]
    ensures !Due(dispose, Hand(m, h)) && Tick(dispose, Hand(m, h)) == PutBackIn(m, h)
  {
    Alone(m, Top(Hand(m, h)));
    Alone(Hand(m, h), Top(PutBackIn(m, h)));
  }

  lemma Alone(m: Machine, l: Level)
    requires |m.stack| == 1
    ensures Below(m) == [] && Below(m) + [l] == [l]
  {
  }

  lemma SettleStep(dispose: Disposer, m: Machine, n: Machine)
    requires !Due(dispose, m) && Tick(dispose, m) == n
    ensures Settle(dispose, m) == Settle(dispose, n)
  {
  }

  lemma Settled(dispose: Disposer, m: Machine)
    requires Due(dispose, m)
    ensures Settle(dispose, m) == m
  {
  }

  /** A round ends, and the next one begins. */
  lemma RoundStep(dispose: Disposer, m: Machine)
    requires |m.stack| == 1 && !HasOps(dispose, Top(m)) && Top(m).rest == map[] && Top(m).calls != []
    requires m.impl != map[]
    ensures Settle(dispose, m) == NextRound(m) && Due(dispose, NextRound(m))
  {
    hide Settle, Below;
    var n := m.(rounds := m.rounds + [Top(m).calls], stack := [Top(m).(calls := [])]);
    Alone(m, Top(n));
    Alone(n, Top(NextRound(m)));
    SettleStep(dispose, m, n);
    SettleStep(dispose, n, NextRound(m));
    Settled(dispose, NextRound(m));
  }

  lemma FirstRound(dispose: Disposer, start: map<Key, Address>)
    requires start != map[]
    ensures var m := Settle(dispose, After(dispose, start, []));
            InRound(dispose, m) && Top(m).rest == start && m.impl == map[]
  {
    var m := After(dispose, start, []);
    var n := Tick(dispose, m);
    assert Settle(dispose, m) == Settle(dispose, n) == n;
  }

  /** No iteration order lets `Clear` return: there is always an entry to hand over next. */
  lemma {:induction false} PuttingBackNeverFinishes(start: map<Key, Address>, dispose: Disposer, h: seq<Entry>)
    requires AlwaysPutsBack(dispose) && start != map[] && Producible(dispose, start, h)
    ensures InRound(dispose, Settle(dispose, After(dispose, start, h))) && !Finished(dispose, start, h)
    decreases |h|
  {
    hide Settle, Due, InRound;
    if h == [] {
      FirstRound(dispose, start);
    } else {
      var g := h[..|h| - 1];
      PuttingBackNeverFinishes(start, dispose, g);
      PutBackStep(dispose, Settle(dispose, After(dispose, start, g)), h);
    }
    OneLevel(dispose, Settle(dispose, After(dispose, start, h)));
  }

  lemma OneLevel(dispose: Disposer, m: Machine)
    requires InRound(dispose, m)
    ensures m.stack != []
  {
  }

  /** What put the entry under `k` in: the one yet to be handed over, or the one put back. */
  ghost function Holder(m: Machine, k: Key): Option<Cause>
    requires |m.stack| == 1 && Top(m).origin.Keys == Top(m).rest.Keys && m.causes.Keys == m.impl.Keys
  {
    if k in Top(m).rest then Top(m).origin[k] else if k in m.impl then m.causes[k] else None
  }

  /** Nor do its re-insertions descend: those of a key would have ever smaller grades. */
  lemma PuttingBackHasNoGrade(start: map<Key, Address>, dispose: Disposer, grade: (seq<Entry>, nat) -> ORDINAL,
                              bound: ORDINAL)
    requires AlwaysPutsBack(dispose) && start != map[]
    ensures !Descending(start, dispose, grade, bound)
  {
    hide Settle, Due, Descending;
    var k :| k in start;
    FirstRound(dispose, start);
    EverSmaller(start, dispose, grade, bound, [], k);
  }

  lemma {:induction false} EverSmaller(start: map<Key, Address>, dispose: Disposer, grade: (seq<Entry>, nat) -> ORDINAL,
                                       bound: ORDINAL, h: seq<Entry>, k: Key)
    requires AlwaysPutsBack(dispose) && Producible(dispose, start, h)
    requires var m := Settle(dispose, After(dispose, start, h));
             InRound(dispose, m) && (k in Top(m).rest || k in m.impl)
    ensures !Descending(start, dispose, grade, bound)
    decreases Rank(grade, bound, Holder(Settle(dispose, After(dispose, start, h)), k)),
              if k in Top(Settle(dispose, After(dispose, start, h))).rest then 0 else 1,
              |Top(Settle(dispose, After(dispose, start, h))).rest|
  {
    hide Settle, InRound, Producible, CauseOf, Descending;
    var m := Settle(dispose, After(dispose, start, h));
    var j := NextKey(dispose, m, k);
    var h' := h + [Entry(j, Top(m).rest[j])];
    HandNext(start, dispose, h, j);
    HolderAfter(dispose, m, h', k);
    if Descending(start, dispose, grade, bound) {
      Smaller(start, dispose, grade, bound, h');
      EverSmaller(start, dispose, grade, bound, h', k);
    }
  }

  /** If there is a choice, `k` is handed over. */
  lemma NextKey(dispose: Disposer, m: Machine, k: Key) returns (j: Key)
    requires InRound(dispose, m)
    ensures |m.stack| == 1 && j in Top(m).rest && (k in Top(m).rest ==> j == k)
  {
    j :| j in Top(m).rest && (k in Top(m).rest ==> j == k);
  }

  lemma HandNext(start: map<Key, Address>, dispose: Disposer, h: seq<Entry>, j: Key)
    requires Producible(dispose, start, h) && InRound(dispose, Settle(dispose, After(dispose, start, h)))
    requires j in Top(Settle(dispose, After(dispose, start, h))).rest
    ensures var m := Settle(dispose, After(dispose, start, h));
            var h' := h + [Entry(j, Top(m).rest[j])];
            && After(dispose, start, h') == Hand(m, h') && Producible(dispose, start, h')
            && CauseOf(dispose, start, h') == Holder(m, j)
  {
    hide Settle, Due;
    var h' := h + [Entry(j, Top(Settle(dispose, After(dispose, start, h))).rest[j])];
    assert h'[..|h'| - 1] == h;
  }

  /** Handing over `k` gives it a new holder. Otherwise `k` comes nearer to its turn. */
  lemma HolderAfter(dispose: Disposer, m: Machine, h: seq<Entry>, k: Key)
    requires InRound(dispose, m) && h != [] && dispose(h) == [PutBack(Last(h))] && Last(h).key in Top(m).rest
    requires (k in Top(m).rest ==> Last(h).key == k) && (k in Top(m).rest || k in m.impl)
    ensures var n := Settle(dispose, Hand(m, h));
            && InRound(dispose, n) && (k in Top(n).rest || k in n.impl)
            && Holder(n, k) == (if Last(h).key == k then Some(Cause(h, 0)) else Holder(m, k))
            && (k !in Top(m).rest ==> k in Top(n).rest || |Top(n).rest| < |Top(m).rest|)
  {
    hide Settle, Due;
    PutBackStep(dispose, m, h);
    assert Top(PutBackIn(m, h)).rest.Keys == Top(m).rest.Keys - {Last(h).key};
  }

  lemma Smaller(start: map<Key, Address>, dispose: Disposer, grade: (seq<Entry>, nat) -> ORDINAL, bound: ORDINAL,
                h: seq<Entry>)
    requires AlwaysPutsBack(dispose) && h != [] && Producible(dispose, start, h)
    requires Descending(start, dispose, grade, bound)
    ensures grade(h, 0) < Rank(grade, bound, CauseOf(dispose, start, h))
  {
    hide Producible, CauseOf;
    assert IsPut(dispose, h, 0);
  }

  // ------------------------------------------------- histories that cannot happen

  /** A `Dispose` that, handed `a`, puts `b` in and takes it away again, and, handed `b`, puts `a` back. */
  function TakesAway(a: Entry, b: Entry): Disposer {
    (h: seq<Entry>) =>
      if h != [] && Last(h) == a then [PutBack(b), Take(b.key)]
      else if h != [] && Last(h) == b then [PutBack(a)]
      else []
  }

  /** Nothing but `a` is ever handed over, so nothing is said about what happens to `b`. */
  lemma {:induction false} OnlyOneHanded(a: Entry, b: Entry, h: seq<Entry>)
    requires Producible(TakesAway(a, b), map[a.key := a.cell], h)
    ensures h == [] || h == [a]
    decreases |h|
  {
    hide Settle, TakesAway;
    var dispose, start := TakesAway(a, b), map[a.key := a.cell];
    if h != [] {
      var g := h[..|h| - 1];
      OnlyOneHanded(a, b, g);
      assert a.key in start;
      FirstRound(dispose, start);
      AfterFirst(dispose, start, a);
      TakenAway(dispose, a, b, Settle(dispose, After(dispose, start, [])));
    }
  }

  lemma AfterFirst(dispose: Disposer, start: map<Key, Address>, a: Entry)
    requires Settle(dispose, After(dispose, start, [])).stack != []
    ensures After(dispose, start, [a]) == Hand(Settle(dispose, After(dispose, start, [])), [a])
  {
    hide Settle;
    assert [a][..0] == [];
  }

  /** A call that sets or removes a key. */
  lemma OpStep(dispose: Disposer, m: Machine, op: Reentry) returns (n: Machine)
    requires |m.stack| == 1 && HasOps(dispose, Top(m)) && dispose(Top(m).call)[Top(m).next] == op && !op.ClearAgain?
    ensures |n.stack| == 1 && Top(n) == Top(m).(next := Top(m).next + 1) && Settle(dispose, m) == Settle(dispose, n)
    ensures n.impl == if op.Put? then m.impl[op.key := op.cell] else m.impl - {op.key}
  {
    n := Tick(dispose, m);
  }

  lemma TakenAway(dispose: Disposer, a: Entry, b: Entry, m: Machine)
    requires dispose == TakesAway(a, b) && |m.stack| == 1 && Top(m).rest == map[a.key := a.cell] && m.impl == map[]
    ensures Settle(dispose, Hand(m, [a])).stack == []
  {
    hide Settle;
    var h := Hand(m, [a]);
    assert Top(h).rest == map[] && dispose([a]) == [PutBack(b), Take(b.key)];
    var put := OpStep(dispose, h, PutBack(b));
    var taken := OpStep(dispose, put, Take(b.key));
    assert taken.impl == map[];
    Leaves(dispose, taken);
  }

  /** A round ends with an empty map, and `Clear` returns. */
  lemma Leaves(dispose: Disposer, m: Machine)
    requires |m.stack| == 1 && !HasOps(dispose, Top(m)) && Top(m).rest == map[] && m.impl == map[]
    ensures Settle(dispose, m).stack == []
  {
    var n := m.(rounds := m.rounds + [Top(m).calls], stack := [Top(m).(calls := [])]);
    assert Top(m).calls != [] ==> Settle(dispose, m) == Settle(dispose, n);
    var o := if Top(m).calls == [] then m else n;
    assert Settle(dispose, o) == Settle(dispose, Tick(dispose, o));
  }

  /** So `Clear` ends, and gives `b` back. */
  method ClearTakesAway(a: Entry, b: Entry) returns (handed: seq<Entry>, displaced: seq<Entry>)
    ensures handed == [a] && displaced == [b]
  {
    hide Items, PutBy, AllLost, AllFree, Producible, CauseOf;
    var dispose, start := TakesAway(a, b), map[a.key := a.cell];
    forall h, i: nat | h != [] && IsPut(dispose, h, i) && Producible(dispose, start, h)
      ensures CauseOf(dispose, start, h).None?
    {
      OnlyOneHanded(a, b, h);
      CauseIsEarlier(dispose, start, h);
    }
    var count;
    handed, displaced, count := ClearAll(start, dispose, AnyOrder(), (h, i) => 0, 1);
    OnlyOneHanded(a, b, handed);
    assert a.key in start;
    OneItem(a.key, a.cell);
    TakesAwayPuts(a, b);
    Single(a, b, displaced);
  }

  lemma TakesAwayPuts(a: Entry, b: Entry)
    ensures PutBy(TakesAway(a, b), [a]) == multiset{b}
  {
    PutsOfTwo(PutBack(b), Take(b.key));
    assert PutBy(TakesAway(a, b), [a][..0]) == multiset{};
  }

  lemma Single(a: Entry, b: Entry, displaced: seq<Entry>)
    requires multiset([a]) + multiset(displaced) == multiset{a} + multiset{b}
    ensures displaced == [b]
  {
    assert multiset(displaced) == (multiset([a]) + multiset(displaced)) - multiset{a} == multiset{b};
    assert |displaced| == |multiset(displaced)| == 1;
    assert displaced[0] in multiset(displaced);
  }
}
