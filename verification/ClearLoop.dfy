/** `PersistentValueMapBase::Clear`: rounds of swapping the backing map out and disposing of
    everything in it, while `Dispose` may set and remove entries and even clear the map again. */
module ClearLoop {
  import opened Cells
  import opened Reentrancy
  import opened ClearMachine
  import opened ClearRounds

  /** Where the account of a running round begins, and the calls of `Dispose` it has made so far. */
  datatype Tally = Tally(from: nat, first: nat, was: seq<Entry>, calls: seq<nat>)

  /** What a round found when it began. */
  datatype Outset = Outset(below: seq<Level>, waiting: multiset<Entry>, owed: multiset<Entry>,
                           handed: seq<Entry>, displaced: seq<Entry>, rounds: seq<seq<nat>>)

  /** A call of `Dispose`: the level it runs at, with the calls that the round has made before it, the
      account of the round, and what was waiting, owed and finished when it began. */
  datatype Job = Job(below: seq<Level>, level: Level, before: seq<Reentry>, tally: Tally,
                     waiting: multiset<Entry>, owed: multiset<Entry>, done: seq<seq<nat>>)

  /** A non-empty finite map has a cause of largest rank. */
  lemma {:induction false} Largest(causes: Causes, grade: (seq<Entry>, nat) -> ORDINAL, bound: ORDINAL) returns (k: Key)
    requires causes != map[]
    ensures k in causes && forall j :: j in causes ==> Rank(grade, bound, causes[j]) <= Rank(grade, bound, causes[k])
    decreases |causes|
  {
    k :| k in causes;
    var rest := causes - {k};
    assert forall j :: j in causes ==> j == k || (j in rest && rest[j] == causes[j]);
    if rest != map[] {
      assert |causes| == |rest| + 1 by { assert causes.Keys == rest.Keys + {k}; }
      var j := Largest(rest, grade, bound);
      assert j in causes && rest[j] == causes[j];
      if Rank(grade, bound, causes[k]) < Rank(grade, bound, causes[j]) {
        k := j;
      }
    }
  }

  /** Nothing left to hand over and nothing left to do. */
  ghost predicate Idle(dispose: Disposer, l: Level) {
    l.rest == map[] && l.calls == [] && !HasOps(dispose, l)
  }

  ghost predicate OnTrack(dispose: Disposer, start: map<Key, Address>, h: seq<Entry>, m: Machine) {
    && m.stack != [] && m.causes.Keys == m.impl.Keys && Producible(dispose, start, h)
    && Settle(dispose, m) == Settle(dispose, After(dispose, start, h))
  }

  lemma TrackTick(dispose: Disposer, start: map<Key, Address>, h: seq<Entry>, m: Machine)
    requires OnTrack(dispose, start, h, m) && !Due(dispose, m) && Tick(dispose, m).stack != []
    ensures OnTrack(dispose, start, h, Tick(dispose, m))
  {
    hide Producible, After;
  }

  /** A choice is due, so the machine can be handed any entry of its innermost round. */
  lemma TrackHand(dispose: Disposer, start: map<Key, Address>, order: Order, h: seq<Entry>, m: Machine, k: Key)
    requires OnTrack(dispose, start, h, m) && Due(dispose, m) && k in Top(m).rest
    requires InOrder(dispose, start, order, h) && Follows(order, h, Top(m).rest, k)
    ensures var h' := h + [Entry(k, Top(m).rest[k])];
            && OnTrack(dispose, start, h', Hand(m, h')) && Producible(dispose, start, h')
            && InOrder(dispose, start, order, h')
            && (k in Top(m).origin ==> CauseOf(dispose, start, h') == Top(m).origin[k])
  {
    var h' := h + [Entry(k, Top(m).rest[k])];
    assert h'[..|h'| - 1] == h && Settle(dispose, m) == m;
    assert After(dispose, start, h') == Hand(m, h');
  }

  /** The map, its traits, and a record of what its callers got from it: `handed` to `Dispose`, and
      `displaced` as results of `Set` and `Remove`. The ghost fields say where the entries come
      from, what waits in running rounds, what running calls of `Dispose` will still put in, and
      which calls made up each finished round. */
  class ValueMap {
    const dispose: Disposer
    const order: Order
    ghost const start: map<Key, Address>
    ghost const grade: (seq<Entry>, nat) -> ORDINAL
    ghost const bound: ORDINAL
    var impl: map<Key, Address>
    var handed: seq<Entry>
    var displaced: seq<Entry>
    ghost var causes: Causes
    ghost var stack: seq<Level>
    ghost var waiting: multiset<Entry>
    ghost var owed: multiset<Entry>
    ghost var rounds: seq<seq<nat>>

    constructor (impl: map<Key, Address>, dispose: Disposer, order: Order,
                 ghost grade: (seq<Entry>, nat) -> ORDINAL, ghost bound: ORDINAL)
      ensures Valid() && this.impl == impl && handed == [] && displaced == [] && rounds == [] && stack == [FRESH]
      ensures this.dispose == dispose && this.order == order && start == impl
      ensures this.grade == grade && this.bound == bound
      ensures waiting == multiset{} && owed == multiset{} && Bounded(bound + 1)
    {
      this.dispose, this.order, this.grade, this.bound, start := dispose, order, grade, bound, impl;
      this.impl, handed, displaced, rounds := impl, [], [], [];
      causes, stack, waiting, owed := NoCauses(impl), [FRESH], multiset{}, multiset{};
    }

    ghost function Now(): Machine
      reads this
    {
      Machine(impl, causes, rounds, stack)
    }

    ghost predicate Valid()
      reads this
    {
      && OnTrack(dispose, start, handed, Now()) && InOrder(dispose, start, order, handed)
      && Accounts(Items(start), dispose, handed, displaced, impl, waiting, owed)
    }

    ghost predicate Descends() {
      Descending(start, dispose, grade, bound)
    }

    ghost predicate Bounded(b: ORDINAL)
      reads this`causes
    {
      forall k :: k in causes ==> Rank(grade, bound, causes[k]) < b
    }

    /** The innermost `Clear` is at `top`. */
    ghost predicate At(below: seq<Level>, top: Level)
      reads this`stack
    {
      stack == below + [top]
    }

    ghost predicate Safe(b: ORDINAL)
      reads this`causes
    {
      Descends() ==> Bounded(b)
    }

    /** Entries with these causes rank at most `b`. */
    ghost predicate Capped(rest: map<Key, Address>, origin: Causes, b: ORDINAL) {
      origin.Keys == rest.Keys && (Descends() ==> forall k :: k in origin ==> Rank(grade, bound, origin[k]) <= b)
    }

    /** What the call that ends `h` puts in ranks below `b`. */
    ghost predicate Lower(h: seq<Entry>, b: ORDINAL) {
      Descends() ==> forall i: nat :: IsPut(dispose, h, i) ==> grade(h, i) < b
    }

    /** No nested `Clear`, or none that could go on for ever. */
    ghost predicate Terminates() {
      Descends() || forall h, i: nat :: h != [] && i < |dispose(h)| ==> !dispose(h)[i].ClearAgain?
    }

    /** More has been handed over, and more rounds been finished. */
    ghost predicate Later(h: seq<Entry>, done: seq<seq<nat>>)
      reads this`handed, this`rounds
    {
      Prefixes(h, done, handed, rounds)
    }

    static ghost predicate Prefixes(g: seq<Entry>, done: seq<seq<nat>>, h: seq<Entry>, all: seq<seq<nat>>) {
      g <= h && done <= all
    }

    static lemma NoChange(h: seq<Entry>, all: seq<seq<nat>>)
      ensures Prefixes(h, all, h, all)
    {
    }

    static lemma PrefixesThen(g: seq<Entry>, done: seq<seq<nat>>, h: seq<Entry>, more: seq<seq<nat>>,
                              h': seq<Entry>, all: seq<seq<nat>>)
      requires Prefixes(g, done, h, more) && Prefixes(h, more, h', all)
      ensures Prefixes(g, done, h', all)
    {
    }

    /** A round that `t` keeps the account of, with `p` of its re-entrant calls made. */
    ghost predicate Running(t: Tally, p: nat)
      reads this
    {
      t.first <= |rounds| && During(dispose, handed, t.from, t.calls, p, impl, rounds[t.first..], t.was, displaced)
    }

    /** A call of `Set` or `Remove` from within `Dispose`. */
    method Change(op: Reentry, ghost below: seq<Level>, ghost top: Level, ghost rest: multiset<Entry>)
      requires Valid() && At(below, top) && HasOps(dispose, top) && op == dispose(top.call)[top.next]
      requires !op.ClearAgain? && owed == PutOf(op) + rest
      modifies this`impl, this`displaced, this`causes, this`stack, this`owed
      ensures Valid() && owed == rest && At(below, top.(next := top.next + 1))
      ensures impl == if op.Put? then old(impl)[op.key := op.cell] else old(impl) - {op.key}
      ensures displaced == old(displaced) + Found(old(impl), op.key)
      ensures causes == if op.Put? then old(causes)[op.key := Some(Cause(top.call, top.next))]
                        else old(causes) - {op.key}
    {
      hide Accounts, OnTrack, InOrder;
      TrackTick(dispose, start, handed, Now());
      displaced := displaced + Found(impl, op.key);
      match op {
        case Put(k, a) =>
          AccountsPut(Items(start), dispose, handed, old(displaced), impl, waiting, rest, k, a);
          impl, causes := impl[k := a], causes[k := Some(Cause(top.call, top.next))];
        case Take(k) =>
          assert owed == rest;
          AccountsTake(Items(start), dispose, handed, old(displaced), impl, waiting, rest, k);
          impl, causes := impl - {k}, causes - {k};
      }
      stack, owed := below + [top.(next := top.next + 1)], rest;
      assert Now() == Tick(dispose, old(Now()));
    }

    /** A call of `Clear` from within `Dispose`. */
    method Nest(ghost below: seq<Level>, ghost top: Level, ghost b: ORDINAL)
      requires Valid() && At(below, top) && HasOps(dispose, top) && dispose(top.call)[top.next].ClearAgain?
      requires Descends() && Bounded(b)
      modifies this
      ensures Valid() && impl == map[] && causes == map[] && owed == old(owed) && waiting == old(waiting)
      ensures At(below, top.(next := top.next + 1))
      ensures Later(old(handed), old(rounds))
      ensures Reckoned(dispose, handed, |old(handed)|, rounds[|old(rounds)|..], old(displaced), displaced)
      decreases b, 1, 0
    {
      hide Accounts, OnTrack, InOrder, Descending, Reckoned;
      ghost var on := below + [top.(next := top.next + 1)];
      TrackTick(dispose, start, handed, Now());
      stack := on + [FRESH];
      assert Now() == Tick(dispose, old(Now()));
      ghost var idle, n := Clear(on, FRESH, b);
      TrackTick(dispose, start, handed, Now());
      assert Tick(dispose, Now()) == Now().(stack := on);
      stack := on;
    }

    /** A call of `Dispose` has made `n` of its calls. */
    ghost predicate Midway(j: Job, n: nat, b: ORDINAL)
      reads this
    {
      var ops := dispose(j.level.call);
      && n <= |ops| && Valid() && At(j.below, j.level.(next := n)) && Safe(b) && Later(j.level.call, j.done)
      && waiting == j.waiting && owed == j.owed + Puts(ops, n)
      && Running(j.tally, |j.before| + n) && Script(dispose, handed, j.tally.calls) == j.before + ops
    }

    method NextCall(op: Reentry, ghost j: Job, ghost n: nat, ghost b: ORDINAL)
      requires Midway(j, n, b) && n < |dispose(j.level.call)| && op == dispose(j.level.call)[n]
      requires j.level.call != [] && Lower(j.level.call, b) && (op.ClearAgain? ==> Descends())
      modifies this
      ensures Midway(j, n + 1, b)
      decreases b, 2
    {
      hide Valid, Descends, Safe, Lower, During, Script, At, Prefixes;
      var ops := dispose(j.level.call);
      ghost var h, done := handed, rounds;
      Step(op, j.below, j.level.(next := n), j.owed + Puts(ops, n + 1), j.tally, |j.before| + n, b);
      PrefixesThen(j.level.call, j.done, h, done, handed, rounds);
    }

    /** The calls made by the `Dispose` that `handed` ends with. */
    method RunScript(ghost j: Job, ghost b: ORDINAL)
      requires Midway(j, 0, b) && handed != [] && j.level.call == handed && Lower(handed, b) && Terminates()
      modifies this
      ensures Midway(j, |dispose(j.level.call)|, b)
      decreases b, 3
    {
      hide Midway, Lower, Terminates, Descends;
      var ops := dispose(handed);
      for n := 0 to |ops|
        invariant Midway(j, n, b)
      {
        NotForEver(j.level.call, n);
        NextCall(ops[n], j, n, b);
      }
    }

    lemma NotForEver(h: seq<Entry>, n: nat)
      requires Terminates() && h != [] && n < |dispose(h)|
      ensures dispose(h)[n].ClearAgain? ==> Descends()
    {
      hide Descending;
    }

    /** One call that `Dispose` makes on the map. */
    method Step(op: Reentry, ghost below: seq<Level>, ghost top: Level, ghost rest: multiset<Entry>, ghost t: Tally,
                ghost p: nat, ghost b: ORDINAL)
      requires Valid() && At(below, top) && HasOps(dispose, top) && op == dispose(top.call)[top.next]
      requires owed == PutOf(op) + rest && (op.ClearAgain? ==> Descends())
      requires Safe(b) && Lower(top.call, b)
      requires Running(t, p) && p < |Script(dispose, handed, t.calls)| && Script(dispose, handed, t.calls)[p] == op
      modifies this
      ensures Valid() && owed == rest && waiting == old(waiting) && Safe(b)
      ensures At(below, top.(next := top.next + 1)) && Later(old(handed), old(rounds))
      ensures Running(t, p + 1) && Script(dispose, handed, t.calls) == old(Script(dispose, handed, t.calls))
      decreases b, 1, 1
    {
      hide Valid, Descending, During, Script, Reckoned, Rank;
      ghost var h, d, m, nested := handed, displaced, impl, rounds[t.first..];
      if op.ClearAgain? {
        Nest(below, top, b);
        DuringClear(dispose, h, handed, t.from, t.calls, p, m, nested, rounds[|old(rounds)|..], t.was, d, displaced);
        assert rounds[t.first..] == nested + rounds[|old(rounds)|..];
        DuringScript(dispose, h, handed, t, p, m, nested, d);
      } else {
        Change(op, below, top, rest);
        StillSafe(old(causes), op, top, b);
        DuringOp(dispose, h, t.from, t.calls, p, m, nested, t.was, d, op, impl);
      }
    }

    lemma StillSafe(before: Causes, op: Reentry, top: Level, b: ORDINAL)
      requires !op.ClearAgain? && HasOps(dispose, top) && op == dispose(top.call)[top.next] && Lower(top.call, b)
      requires Descends() ==> forall k :: k in before ==> Rank(grade, bound, before[k]) < b
      requires causes == if op.Put? then before[op.key := Some(Cause(top.call, top.next))] else before - {op.key}
      ensures Safe(b)
    {
      hide Descending;
    }

    static lemma DuringScript(dispose: Disposer, g: seq<Entry>, h: seq<Entry>, t: Tally, p: nat, m: map<Key, Address>,
                              nested: seq<seq<nat>>, d: seq<Entry>)
      requires During(dispose, g, t.from, t.calls, p, m, nested, t.was, d) && g <= h
      ensures Script(dispose, h, t.calls) == Script(dispose, g, t.calls)
    {
      ScriptLater(dispose, g, h, t.calls);
    }

    /** `Clear`. Where `order` leaves it open, any entry of a swapped-out map may come next. */
    method Clear(ghost below: seq<Level>, ghost top: Level, ghost b: ORDINAL) returns (ghost idle: Level, count: nat)
      requires Valid() && At(below, top) && Idle(dispose, top) && Descends() && Bounded(b)
      modifies this
      ensures Valid() && impl == map[] && causes == map[] && owed == old(owed) && waiting == old(waiting)
      ensures At(below, idle) && Idle(dispose, idle)
      ensures Later(old(handed), old(rounds)) && (handed == old(handed) <==> old(impl) == map[])
      ensures Reckoned(dispose, handed, |old(handed)|, rounds[|old(rounds)|..], old(displaced), displaced)
      ensures (count == 0 <==> old(impl) == map[]) && (b.IsNat ==> count <= b.Offset)
      decreases b, 0
    {
      hide Descending, Reckoned, Accounts, InOrder, Producible, Settle, After;
      idle, count := top, 0;
      ghost var c := b;
      NoneReckoned(dispose, handed, displaced);
      assert rounds[|rounds|..] == [];
      while impl != map[]
        invariant Valid() && owed == old(owed) && waiting == old(waiting) && Bounded(c) && c <= b
        invariant At(below, idle) && Idle(dispose, idle) && Later(old(handed), old(rounds))
        invariant Reckoned(dispose, handed, |old(handed)|, rounds[|old(rounds)|..], old(displaced), displaced)
        invariant if handed == old(handed) then count == 0 && impl == old(impl) else count > 0 && old(impl) != map[]
        invariant b.IsNat ==> c.IsNat && count + c.Offset <= b.Offset
        decreases c
      {
        ghost var h, d, done := handed, displaced, rounds[|old(rounds)|..];
        ghost var r := |rounds|;
        ghost var largest := Largest(causes, grade, bound);
        c := Rank(grade, bound, causes[largest]);
        SameKeys();
        idle := Round(below, idle, c);
        ReckonedThen(dispose, h, handed, |old(handed)|, done, rounds[r..], old(displaced), d, displaced);
        assert rounds[|old(rounds)|..] == done + rounds[r..];
        count := count + 1;
      }
    }

    lemma SameKeys()
      requires Valid()
      ensures causes.Keys == impl.Keys
    {
      hide Accounts, InOrder, Producible, Settle, After;
    }

    /** The account of a round that began at `o` and has made the given calls. */
    static ghost function TallyOf(o: Outset, calls: seq<nat>): Tally {
      Tally(|o.handed|, |o.rounds|, o.displaced, calls)
    }

    /** A round that began at `o` is between two entries. */
    ghost predicate Between(o: Outset, level: Level, b: ORDINAL)
      reads this
    {
      && Valid() && At(o.below, level) && !HasOps(dispose, level) && Later(o.handed, o.rounds)
      && owed == o.owed && waiting == o.waiting + Items(level.rest)
      && Safe(b) && Capped(level.rest, level.origin, b)
      && Running(TallyOf(o, level.calls), |Script(dispose, handed, level.calls)|)
    }

    ghost function Here(below: seq<Level>): Outset
      reads this
    {
      Outset(below, waiting, owed, handed, displaced, rounds)
    }

    /** The iteration over `rest` may yield `e` next. */
    predicate Next(rest: map<Key, Address>, e: Entry)
      reads this`handed
    {
      e.key in rest && rest[e.key] == e.cell && Follows(order, handed, rest, e.key)
    }

    /** One round of `Clear`: swap the backing map out and dispose of everything in it. */
    method Round(ghost below: seq<Level>, ghost top: Level, ghost b: ORDINAL) returns (ghost idle: Level)
      requires Valid() && At(below, top) && Idle(dispose, top) && impl != map[] && Terminates()
      requires Capped(impl, causes, b)
      modifies this
      ensures Valid() && owed == old(owed) && waiting == old(waiting) && Safe(b)
      ensures At(below, idle) && Idle(dispose, idle)
      ensures Later(old(handed), old(rounds)) && |old(handed)| < |handed|
      ensures Reckoned(dispose, handed, |old(handed)|, rounds[|old(rounds)|..], old(displaced), displaced)
      decreases b, 5
    {
      hide Between, Terminates, Idle, Reckoned, Valid, Items;
      ghost var o := Here(below);
      var rest, level := Swap(below, top, b);
      while rest != map[]
        invariant Between(o, level, b) && level.rest == rest && |o.handed| <= |handed|
        invariant rest == old(impl) || (|o.handed| < |handed| && level.calls != [])
        decreases |rest.Keys|
      {
        var k :| k in rest && Follows(order, handed, rest, k);
        level := Dispose(Entry(k, rest[k]), o, level, b);
        rest := rest - {k};
      }
      idle := EndRound(o, level, b);
    }

    lemma StartRound()
      requires impl == map[]
      ensures Running(Tally(|handed|, |rounds|, displaced, []), |Script(dispose, handed, [])|)
    {
      hide During;
      DuringStart(dispose, handed, displaced);
      assert rounds[|rounds|..] == [];
    }

    /** The account of a round is closed. */
    ghost method EndRound(o: Outset, level: Level, b: ORDINAL) returns (idle: Level)
      requires Between(o, level, b) && level.rest == map[] && level.calls != []
      modifies this`rounds, this`stack
      ensures Valid() && At(o.below, idle) && Idle(dispose, idle) && Safe(b) && Later(o.handed, o.rounds)
      ensures owed == o.owed && waiting == o.waiting
      ensures Reckoned(dispose, handed, |o.handed|, rounds[|o.rounds|..], o.displaced, displaced)
    {
      hide Accounts, OnTrack, InOrder, During, Reckoned, Items, Descending, Script, Capped;
      NoItems();
      TrackTick(dispose, start, handed, Now());
      ghost var nested := rounds[|o.rounds|..];
      DuringEnd(dispose, handed, |o.handed|, level.calls, impl, nested, o.displaced, displaced);
      idle := level.(calls := []);
      rounds, stack := rounds + [level.calls], o.below + [idle];
      assert rounds[|o.rounds|..] == nested + [level.calls];
      assert Now() == Tick(dispose, old(Now()));
    }

    /** A round begins with the map as it is, and an empty map. */
    method Swap(ghost below: seq<Level>, ghost top: Level, ghost b: ORDINAL)
      returns (rest: map<Key, Address>, ghost level: Level)
      requires Valid() && At(below, top) && Idle(dispose, top) && impl != map[] && Capped(impl, causes, b)
      modifies this`impl, this`causes, this`stack, this`waiting
      ensures Between(old(Here(below)), level, b) && rest == level.rest == old(impl)
    {
      hide Accounts, OnTrack, InOrder, Items, During, Descends, Capped, Producible;
      TrackTick(dispose, start, handed, Now());
      AccountsSwap(Items(start), dispose, handed, displaced, impl, waiting, owed);
      rest, level := impl, top.(rest := impl, origin := causes);
      impl, causes, waiting, stack := map[], map[], waiting + Items(impl), below + [level];
      assert Now() == Tick(dispose, old(Now()));
      StartRound();
    }

    /** `Traits::Dispose(isolate, value, key)`. */
    method Dispose(e: Entry, ghost o: Outset, ghost level: Level, ghost b: ORDINAL) returns (ghost level': Level)
      requires Between(o, level, b) && Terminates() && Next(level.rest, e)
      modifies this
      ensures Between(o, level', b) && level'.rest == level.rest - {e.key}
      ensures level'.calls == level.calls + [|old(handed)|] && old(handed) + [e] <= handed
      decreases b, 4
    {
      hide Between, Midway, Terminates, Lower, Items, Descends;
      ghost var j := HandOver(e, o, level, b);
      RunScript(j, b);
      level' := j.level.(next := |dispose(j.level.call)|);
      Disposed(j, e, o, level, old(handed), b);
    }

    /** The entry becomes the latest to be handed over, and the calls of its `Dispose` are still to come. */
    method HandOver(e: Entry, ghost o: Outset, ghost level: Level, ghost b: ORDINAL) returns (ghost j: Job)
      requires Between(o, level, b) && Next(level.rest, e)
      modifies this`handed, this`stack, this`waiting, this`owed
      ensures Midway(j, 0, b) && Lower(handed, b) && handed == old(handed) + [e]
      ensures JobOf(j, e, o, level, old(handed), b)
    {
      hide Valid, Descends, Safe, During, Script, Puts, Lower, Capped, Producible, CauseOf, At, Items;
      ghost var rest := o.waiting + Items(level.rest - {e.key});
      ItemsWithout(level.rest, e.key);
      NotAgain(o.below, level, e.key);
      HandRunning(TallyOf(o, level.calls), e);
      CappedKey(level.rest, level.origin, e.key, b);
      ghost var before := Script(dispose, handed, level.calls);
      ghost var level' := Hand(e, o.below, level, rest);
      Lowers(level.origin[e.key], b);
      NoChange(handed, rounds);
      j := Job(o.below, level', before, TallyOf(o, level'.calls), rest, o.owed, rounds);
    }

    /** The call that the round makes for the entry `e` of `level.rest`, when `h` has been handed over. */
    ghost predicate JobOf(j: Job, e: Entry, o: Outset, level: Level, h: seq<Entry>, b: ORDINAL) {
      && j.level.call == h + [e] && j.below == o.below && j.owed == o.owed && j.level.calls == level.calls + [|h|]
      && j.tally == TallyOf(o, j.level.calls) && j.waiting == o.waiting + Items(j.level.rest)
      && j.level.rest == level.rest - {e.key} && Capped(j.level.rest, j.level.origin, b)
      && Prefixes(o.handed, o.rounds, h, j.done)
    }

    /** The call has returned, and the round is between two entries again. */
    lemma Disposed(j: Job, e: Entry, o: Outset, level: Level, h: seq<Entry>, b: ORDINAL)
      requires Midway(j, |dispose(j.level.call)|, b) && JobOf(j, e, o, level, h, b)
      ensures Between(o, j.level.(next := |dispose(j.level.call)|), b) && h + [e] <= handed
    {
      hide Valid, Descends, Safe, During, Script, Puts, Capped, At, Items;
      NothingOwed(j.level.call);
      Onward(h, e, handed);
      PrefixesThen(o.handed, o.rounds, h, j.done, handed, rounds);
    }

    static lemma Onward(g: seq<Entry>, e: Entry, h: seq<Entry>)
      requires g + [e] <= h
      ensures g <= h
    {
      assert g == (g + [e])[..|g|];
    }

    /** The calls that the round has made were handed other keys. */
    lemma NotAgain(below: seq<Level>, level: Level, k: Key)
      requires Valid() && At(below, level) && !HasOps(dispose, level) && k in level.rest
      ensures forall i: nat :: i < |level.calls| ==> level.calls[i] < |handed| && handed[level.calls[i]].key != k
    {
      hide Accounts, InOrder, Producible, After;
      AfterOrderly(dispose, start, handed);
      SettleOrderly(dispose, handed, After(dispose, start, handed));
      assert Settle(dispose, Now()) == Now() && LevelOrderly(handed, stack[|below|]);
    }

    lemma NothingOwed(h: seq<Entry>)
      ensures Puts(dispose(h), |dispose(h)|) == multiset{}
    {
    }

    lemma CappedKey(rest: map<Key, Address>, origin: Causes, k: Key, b: ORDINAL)
      requires Capped(rest, origin, b) && k in rest
      ensures k in origin && (Descends() ==> Rank(grade, bound, origin[k]) <= b)
      ensures Capped(rest - {k}, origin - {k}, b)
    {
      hide Descending;
    }

    /** What a call puts in ranks below the entry it was handed. */
    lemma Lowers(c: Option<Cause>, b: ORDINAL)
      requires handed != [] && Producible(dispose, start, handed) && CauseOf(dispose, start, handed) == c
      requires Descends() ==> Rank(grade, bound, c) <= b
      ensures Lower(handed, b)
    {
      hide Producible, CauseOf;
    }

    lemma HandRunning(t: Tally, e: Entry)
      requires Running(t, |Script(dispose, handed, t.calls)|)
      requires forall i: nat :: i < |t.calls| ==> t.calls[i] < |handed| && handed[t.calls[i]].key != e.key
      ensures var before, calls := Script(dispose, handed, t.calls), t.calls + [|handed|];
              && During(dispose, handed + [e], t.from, calls, |before|, impl, rounds[t.first..], t.was, displaced)
              && Script(dispose, handed + [e], calls) == before + dispose(handed + [e])
    {
      hide During, Script;
      DuringHand(dispose, handed, t.from, t.calls, impl, rounds[t.first..], t.was, displaced, e);
      ScriptNext(dispose, handed, t.calls, e);
    }

    method Hand(e: Entry, ghost below: seq<Level>, ghost level: Level, ghost rest: multiset<Entry>)
      returns (ghost level': Level)
      requires Valid() && At(below, level) && !HasOps(dispose, level) && waiting == rest + multiset{e}
      requires Next(level.rest, e)
      modifies this`handed, this`stack, this`waiting, this`owed
      ensures Valid() && handed == old(handed) + [e] && waiting == rest && owed == old(owed) + Puts(dispose(handed), 0)
      ensures At(below, level')
      ensures level' == Level(level.rest - {e.key}, level.origin - {e.key}, level.calls + [|old(handed)|], handed, 0)
      ensures Producible(dispose, start, handed)
      ensures e.key in level.origin ==> CauseOf(dispose, start, handed) == level.origin[e.key]
    {
      hide Accounts, OnTrack, InOrder, Puts, Producible, CauseOf;
      TrackHand(dispose, start, order, handed, Now(), e.key);
      AccountsHand(Items(start), dispose, handed, displaced, impl, rest, owed, e);
      handed := handed + [e];
      level' := Level(level.rest - {e.key}, level.origin - {e.key}, level.calls + [|old(handed)|], handed, 0);
      stack, waiting, owed := below + [level'], rest, owed + Puts(dispose(handed), 0);
      assert Now() == ClearMachine.Hand(old(Now()), handed);
    }
  }
}
