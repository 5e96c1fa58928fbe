/** Which histories a map can hand to `Dispose`: `Clear` as an abstract machine. All it is free to
    choose is which entry of the innermost round comes next, so a history determines its state. */
module ClearMachine {
  import opened Cells
  import opened Reentrancy

  /** Call number `index` made by the `Dispose` that ends `history`. */
  datatype Cause = Cause(history: seq<Entry>, index: nat)

  /** What put each entry in; nothing did if it was there from the start. */
  type Causes = map<Key, Option<Cause>>

  /** A running `Clear`: what its round has yet to hand over, the calls of `Dispose` that the round has
      made, and how far the call that ends the history `call` has got. */
  datatype Level = Level(rest: map<Key, Address>, origin: Causes, calls: seq<nat>, call: seq<Entry>, next: nat)

  /** The map, the calls that made up each finished round, and the running `Clear`s. */
  datatype Machine = Machine(impl: map<Key, Address>, causes: Causes, rounds: seq<seq<nat>>, stack: seq<Level>)

  /** A `Clear` that has just been called. */
  const FRESH: Level := Level(map[], map[], [], [], 0)

  predicate HasOps(dispose: Disposer, l: Level) {
    l.call != [] && l.next < |dispose(l.call)|
  }

  function Top(m: Machine): Level
    requires m.stack != []
  {
    m.stack[|m.stack| - 1]
  }

  function Below(m: Machine): seq<Level>
    requires m.stack != []
  {
    m.stack[..|m.stack| - 1]
  }

  /** The machine waits for the choice of the next entry, or has finished. */
  predicate Due(dispose: Disposer, m: Machine) {
    m.stack == [] || (!HasOps(dispose, Top(m)) && Top(m).rest != map[])
  }

  /** One step: `Dispose` makes its next call, or a round ends, or a new one swaps the map out, or
      `Clear` returns. */
  function Tick(dispose: Disposer, m: Machine): Machine
    requires !Due(dispose, m)
  {
    var top := Top(m);
    if HasOps(dispose, top) then
      var on := Below(m) + [top.(next := top.next + 1)];
      match dispose(top.call)[top.next]
      case Put(k, a) =>
        m.(impl := m.impl[k := a], causes := m.causes[k := Some(Cause(top.call, top.next))], stack := on)
      case Take(k) => m.(impl := m.impl - {k}, causes := m.causes - {k}, stack := on)
      case ClearAgain => m.(stack := on + [FRESH])
    else if top.calls != [] then
      m.(rounds := m.rounds + [top.calls], stack := Below(m) + [top.(calls := [])])
    else if m.impl != map[] then
      m.(impl := map[], causes := map[], stack := Below(m) + [top.(rest := m.impl, origin := m.causes)])
    else m.(stack := Below(m))
  }

  function Left(dispose: Disposer, l: Level): nat {
    if HasOps(dispose, l) then |dispose(l.call)| - l.next else 0
  }

  function WorkAt(dispose: Disposer, l: Level): nat {
    3 * Left(dispose, l) + (if l.calls == [] then 0 else 1) + (if l.rest == map[] then 2 else 1)
  }

  /** An upper bound of the steps until a choice is due. */
  function Work(dispose: Disposer, stack: seq<Level>): nat {
    if stack == [] then 0
    else
      var top := stack[|stack| - 1];
      Work(dispose, stack[..|stack| - 1]) + WorkAt(dispose, top)
  }

  lemma WorkOf(dispose: Disposer, below: seq<Level>, top: Level)
    ensures Work(dispose, below + [top]) == Work(dispose, below) + WorkAt(dispose, top)
  {
    assert (below + [top])[..|below|] == below;
  }

  lemma TickWorks(dispose: Disposer, m: Machine)
    requires !Due(dispose, m)
    ensures Work(dispose, Tick(dispose, m).stack) < Work(dispose, m.stack)
  {
    hide Work;
    var top, below := Top(m), Below(m);
    assert m.stack == below + [top];
    WorkOf(dispose, below, top);
    var on := top.(next := top.next + 1);
    WorkOf(dispose, below, on);
    WorkOf(dispose, below + [on], FRESH);
    WorkOf(dispose, below, top.(calls := []));
    WorkOf(dispose, below, top.(rest := m.impl, origin := m.causes));
  }

  function Settle(dispose: Disposer, m: Machine): (r: Machine)
    ensures Due(dispose, r)
    decreases Work(dispose, m.stack)
  {
    if Due(dispose, m) then m else
      TickWorks(dispose, m);
      Settle(dispose, Tick(dispose, m))
  }

  function NoCauses(start: map<Key, Address>): Causes {
    map k | k in start :: None
  }

  /** The last entry of `h` is handed over, and its `Dispose` begins. */
  function Hand(m: Machine, h: seq<Entry>): Machine
    requires h != [] && m.stack != []
  {
    var top, k := Top(m), Last(h).key;
    m.(stack := Below(m) + [Level(top.rest - {k}, top.origin - {k}, top.calls + [|h| - 1], h, 0)])
  }

  /** Where `Clear` of a map that starts with `start` is when it has handed over `h`. */
  function After(dispose: Disposer, start: map<Key, Address>, h: seq<Entry>): Machine
    decreases |h|
  {
    if h == [] then Machine(start, NoCauses(start), [], [FRESH])
    else
      var m := Settle(dispose, After(dispose, start, h[..|h| - 1]));
      if m.stack == [] then m else Hand(m, h)
  }

  /** The map can hand over `e` next. */
  predicate Ready(dispose: Disposer, start: map<Key, Address>, h: seq<Entry>, e: Entry) {
    var m := Settle(dispose, After(dispose, start, h));
    m.stack != [] && e.key in Top(m).rest && Top(m).rest[e.key] == e.cell
  }

  /** The histories that the map can produce. */
  ghost predicate Producible(dispose: Disposer, start: map<Key, Address>, h: seq<Entry>)
    decreases |h|
  {
    h != [] ==> Producible(dispose, start, h[..|h| - 1]) && Ready(dispose, start, h[..|h| - 1], Last(h))
  }

  /** Which entry of a round comes first, where an iteration order says so. */
  type Order = seq<Entry> -> Option<Key>

  predicate Follows(order: Order, h: seq<Entry>, rest: map<Key, Address>, k: Key) {
    order(h).Some? && order(h).value in rest ==> k == order(h).value
  }

  /** Every entry of `h` was chosen by the order. */
  ghost predicate InOrder(dispose: Disposer, start: map<Key, Address>, order: Order, h: seq<Entry>)
    decreases |h|
  {
    h != [] ==>
      var g := h[..|h| - 1];
      var m := Settle(dispose, After(dispose, start, g));
      InOrder(dispose, start, order, g) && (m.stack != [] ==> Follows(order, g, Top(m).rest, Last(h).key))
  }

  /** `Clear` has returned when it has handed over `h`. */
  ghost predicate Finished(dispose: Disposer, start: map<Key, Address>, h: seq<Entry>) {
    Producible(dispose, start, h) && Settle(dispose, After(dispose, start, h)).stack == []
  }

  /** The rounds, nested ones included, that have ended with the history `h`. */
  function Rounds(dispose: Disposer, start: map<Key, Address>, h: seq<Entry>): seq<seq<nat>> {
    Settle(dispose, After(dispose, start, h)).rounds
  }

  /** What put in the entry that `h` ends with. */
  function CauseOf(dispose: Disposer, start: map<Key, Address>, h: seq<Entry>): Option<Cause>
    requires h != []
  {
    var m := Settle(dispose, After(dispose, start, h[..|h| - 1]));
    if m.stack != [] && Last(h).key in Top(m).origin then Top(m).origin[Last(h).key] else None
  }

  // ------------------------------------------------- descending re-insertions

  ghost function Rank(grade: (seq<Entry>, nat) -> ORDINAL, bound: ORDINAL, c: Option<Cause>): ORDINAL {
    if c.None? then bound else grade(c.value.history, c.value.index)
  }

  /** Re-insertions descend: every insertion has a grade, and what a call of `Dispose` puts in is
      graded below the insertion of the entry it was handed. The grade may depend on the whole
      history, and only histories that the map can produce are asked about. */
  ghost predicate Descending(start: map<Key, Address>, dispose: Disposer,
                             grade: (seq<Entry>, nat) -> ORDINAL, bound: ORDINAL)
  {
    forall h, i: nat :: h != [] && IsPut(dispose, h, i) && Producible(dispose, start, h) ==>
      grade(h, i) < Rank(grade, bound, CauseOf(dispose, start, h))
  }

  // ------------------------------------------------- causes are what they say

  ghost predicate CausedBy(dispose: Disposer, h: seq<Entry>, e: Entry, c: Option<Cause>) {
    c.Some? ==>
      && c.value.history != [] && c.value.history <= h && IsPut(dispose, c.value.history, c.value.index)
      && PutEntry(dispose, c.value.history, c.value.index) == e
  }

  ghost predicate AllCaused(dispose: Disposer, h: seq<Entry>, m: map<Key, Address>, causes: Causes) {
    causes.Keys == m.Keys && forall k :: k in m ==> CausedBy(dispose, h, Entry(k, m[k]), causes[k])
  }

  ghost predicate LevelCaused(dispose: Disposer, h: seq<Entry>, l: Level) {
    l.call <= h && AllCaused(dispose, h, l.rest, l.origin)
  }

  ghost predicate Faithful(dispose: Disposer, h: seq<Entry>, m: Machine) {
    && AllCaused(dispose, h, m.impl, m.causes)
    && forall i: nat :: i < |m.stack| ==> LevelCaused(dispose, h, m.stack[i])
  }

  lemma TickFaithful(dispose: Disposer, h: seq<Entry>, m: Machine)
    requires Faithful(dispose, h, m) && !Due(dispose, m)
    ensures Faithful(dispose, h, Tick(dispose, m))
  {
    assert LevelCaused(dispose, h, Top(m));
  }

  lemma {:induction false} SettleFaithful(dispose: Disposer, h: seq<Entry>, m: Machine)
    requires Faithful(dispose, h, m)
    ensures Faithful(dispose, h, Settle(dispose, m))
    decreases Work(dispose, m.stack)
  {
    hide Faithful;
    if !Due(dispose, m) {
      TickWorks(dispose, m);
      TickFaithful(dispose, h, m);
      SettleFaithful(dispose, h, Tick(dispose, m));
    }
  }

  lemma CausedLater(dispose: Disposer, g: seq<Entry>, h: seq<Entry>, m: map<Key, Address>, causes: Causes)
    requires AllCaused(dispose, g, m, causes) && g <= h
    ensures AllCaused(dispose, h, m, causes)
  {
    hide IsPut;
  }

  lemma HandFaithful(dispose: Disposer, h: seq<Entry>, m: Machine)
    requires h != [] && m.stack != [] && Faithful(dispose, h[..|h| - 1], m)
    ensures Faithful(dispose, h, Hand(m, h))
  {
    hide CausedBy;
    var g := h[..|h| - 1];
    CausedLater(dispose, g, h, m.impl, m.causes);
    forall i: nat | i < |m.stack| ensures LevelCaused(dispose, h, m.stack[i]) {
      assert LevelCaused(dispose, g, m.stack[i]);
      CausedLater(dispose, g, h, m.stack[i].rest, m.stack[i].origin);
    }
  }

  lemma {:induction false} AfterFaithful(dispose: Disposer, start: map<Key, Address>, h: seq<Entry>)
    requires Producible(dispose, start, h)
    ensures Faithful(dispose, h, After(dispose, start, h))
    decreases |h|
  {
    hide Faithful, Settle;
    if h == [] {
      StartFaithful(dispose, start);
    } else {
      var g := h[..|h| - 1];
      AfterFaithful(dispose, start, g);
      SettleFaithful(dispose, g, After(dispose, start, g));
      HandFaithful(dispose, h, Settle(dispose, After(dispose, start, g)));
    }
  }

  lemma StartFaithful(dispose: Disposer, start: map<Key, Address>)
    ensures Faithful(dispose, [], After(dispose, start, []))
  {
  }

  /** The cause of an entry is an earlier call that put this very entry in. */
  lemma CauseIsEarlier(dispose: Disposer, start: map<Key, Address>, h: seq<Entry>)
    requires h != [] && Producible(dispose, start, h)
    ensures CausedBy(dispose, h[..|h| - 1], Last(h), CauseOf(dispose, start, h))
  {
    hide Settle, CausedBy;
    var g := h[..|h| - 1];
    AfterFaithful(dispose, start, g);
    SettleFaithful(dispose, g, After(dispose, start, g));
    var m := Settle(dispose, After(dispose, start, g));
    assert LevelCaused(dispose, g, Top(m));
  }

  // ------------------------------------------------- rounds are what they say

  ghost predicate LevelOrderly(h: seq<Entry>, l: Level) {
    RoundOf(h, l.calls) && forall i: nat :: i < |l.calls| ==> h[l.calls[i]].key !in l.rest
  }

  ghost predicate Orderly(h: seq<Entry>, m: Machine) {
    RoundsOf(h, m.rounds) && forall i: nat :: i < |m.stack| ==> LevelOrderly(h, m.stack[i])
  }

  lemma TickOrderly(dispose: Disposer, h: seq<Entry>, m: Machine)
    requires Orderly(h, m) && !Due(dispose, m)
    ensures Orderly(h, Tick(dispose, m))
  {
    hide RoundOf;
    assert LevelOrderly(h, Top(m));
    NoCalls(h);
  }

  lemma NoCalls(h: seq<Entry>)
    ensures RoundOf(h, [])
  {
  }

  lemma {:induction false} SettleOrderly(dispose: Disposer, h: seq<Entry>, m: Machine)
    requires Orderly(h, m)
    ensures Orderly(h, Settle(dispose, m))
    decreases Work(dispose, m.stack)
  {
    hide Orderly;
    if !Due(dispose, m) {
      TickWorks(dispose, m);
      TickOrderly(dispose, h, m);
      SettleOrderly(dispose, h, Tick(dispose, m));
    }
  }

  lemma HandOrderly(h: seq<Entry>, m: Machine)
    requires h != [] && m.stack != [] && Orderly(h[..|h| - 1], m) && Last(h).key in Top(m).rest
    ensures Orderly(h, Hand(m, h))
  {
    var g := h[..|h| - 1];
    forall i: nat | i < |m.stack| ensures LevelOrderly(h, m.stack[i]) {
      assert LevelOrderly(g, m.stack[i]);
    }
  }

  lemma {:induction false} AfterOrderly(dispose: Disposer, start: map<Key, Address>, h: seq<Entry>)
    requires Producible(dispose, start, h)
    ensures Orderly(h, After(dispose, start, h))
    decreases |h|
  {
    hide RoundOf, Settle;
    if h == [] {
      NoCalls(h);
    } else {
      var g := h[..|h| - 1];
      AfterOrderly(dispose, start, g);
      SettleOrderly(dispose, g, After(dispose, start, g));
      HandOrderly(h, Settle(dispose, After(dispose, start, g)));
    }
  }

  /** A round hands over every key at most once. */
  lemma RoundsAreRounds(dispose: Disposer, start: map<Key, Address>, h: seq<Entry>)
    requires Producible(dispose, start, h)
    ensures RoundsOf(h, Rounds(dispose, start, h))
  {
    hide RoundOf, Settle;
    AfterOrderly(dispose, start, h);
    SettleOrderly(dispose, h, After(dispose, start, h));
  }

  // ------------------------------------------------- every history comes from an order

  /** The order that leads along `h`. */
  function Along(h: seq<Entry>): Order {
    (g: seq<Entry>) => if |g| < |h| then Some(h[|g|].key) else None
  }

  lemma {:induction false} ProducibleBefore(dispose: Disposer, start: map<Key, Address>, g: seq<Entry>, h: seq<Entry>)
    requires Producible(dispose, start, h) && g < h
    ensures Producible(dispose, start, g) && Ready(dispose, start, g, h[|g|])
    decreases |h|
  {
    hide Ready;
    var f := h[..|h| - 1];
    if g != f {
      ProducibleBefore(dispose, start, g, f);
    }
  }

  lemma Before(dispose: Disposer, start: map<Key, Address>, order: Order, g: seq<Entry>)
    requires g != [] && Producible(dispose, start, g) && InOrder(dispose, start, order, g)
    ensures var f := g[..|g| - 1];
            var m := Settle(dispose, After(dispose, start, f));
            && Producible(dispose, start, f) && Ready(dispose, start, f, Last(g)) && InOrder(dispose, start, order, f)
            && (m.stack != [] ==> Follows(order, f, Top(m).rest, Last(g).key))
  {
    hide Settle, After, Ready, Follows;
  }

  lemma {:induction false} LeadsAlong(dispose: Disposer, start: map<Key, Address>, g: seq<Entry>, h: seq<Entry>)
    requires Finished(dispose, start, h) && Producible(dispose, start, g) && InOrder(dispose, start, Along(h), g)
    ensures g <= h
    decreases |g|
  {
    hide Settle, After, Finished, Ready, Producible, InOrder, Follows;
    if g != [] {
      var f := g[..|g| - 1];
      Before(dispose, start, Along(h), g);
      LeadsAlong(dispose, start, f, h);
      NothingAfter(dispose, start, h, Last(g));
      assert f != h;
      ProducibleBefore(dispose, start, f, h);
      SameChoice(dispose, start, f, h, Last(g));
      assert g == f + [h[|f|]] && f == h[..|f|];
    }
  }

  lemma NothingAfter(dispose: Disposer, start: map<Key, Address>, h: seq<Entry>, e: Entry)
    requires Finished(dispose, start, h)
    ensures Producible(dispose, start, h) && !Ready(dispose, start, h, e)
  {
    hide Settle, After, Producible;
  }

  lemma SameChoice(dispose: Disposer, start: map<Key, Address>, f: seq<Entry>, h: seq<Entry>, e: Entry)
    requires |f| < |h| && Ready(dispose, start, f, e) && Ready(dispose, start, f, h[|f|])
    requires var m := Settle(dispose, After(dispose, start, f));
             m.stack != [] ==> Follows(Along(h), f, Top(m).rest, e.key)
    ensures e == h[|f|]
  {
    hide Settle, After;
  }

  /** A `Clear` that iterates in the order that leads along `h` hands over just `h`. */
  lemma OrderDecides(dispose: Disposer, start: map<Key, Address>, g: seq<Entry>, h: seq<Entry>)
    requires Finished(dispose, start, g) && Finished(dispose, start, h) && InOrder(dispose, start, Along(h), g)
    ensures g == h
  {
    hide Settle, After, Producible;
    LeadsAlong(dispose, start, g, h);
    if g < h {
      ProducibleBefore(dispose, start, g, h);
    }
  }

  // ------------------------------------------------- ranks of entries

  /** The special case of a rank on entries that every insertion lowers. */
  ghost predicate LowersRank(dispose: Disposer, rank: Entry -> ORDINAL, bound: ORDINAL) {
    forall h, i: nat :: h != [] && IsPut(dispose, h, i) ==>
      rank(PutEntry(dispose, h, i)) < rank(Last(h)) && rank(PutEntry(dispose, h, i)) < bound
  }

  ghost function RankGrade(dispose: Disposer, rank: Entry -> ORDINAL): (seq<Entry>, nat) -> ORDINAL {
    (h: seq<Entry>, i: nat) => if IsPut(dispose, h, i) then rank(PutEntry(dispose, h, i)) else 0
  }

  lemma RankDescends(start: map<Key, Address>, dispose: Disposer, rank: Entry -> ORDINAL, bound: ORDINAL)
    requires LowersRank(dispose, rank, bound)
    ensures Descending(start, dispose, RankGrade(dispose, rank), bound)
  {
    hide Producible, CauseOf;
    forall h, i: nat | h != [] && IsPut(dispose, h, i) && Producible(dispose, start, h)
      ensures RankGrade(dispose, rank)(h, i) < Rank(RankGrade(dispose, rank), bound, CauseOf(dispose, start, h))
    {
      CauseIsEarlier(dispose, start, h);
    }
  }
}
