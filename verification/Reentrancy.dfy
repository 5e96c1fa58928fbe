/** What a `Traits::Dispose` that calls back into the map it is clearing may do, and when its calls
    replace or remove what they have put in.

    Only the backing map matters here, so an entry is a key with the address stored under it.
    What the embedder's `Dispose` does is a function of everything it has been handed so far. */
module Reentrancy {
  import opened Cells

  datatype Entry = Entry(key: Key, cell: Address)

  /** The calls that `Dispose` may make on the map that is being cleared. */
  datatype Reentry = Put(key: Key, cell: Address) | Take(key: Key) | ClearAgain

  /** What `Dispose` does in the call that ends a history of calls. */
  type Disposer = seq<Entry> -> seq<Reentry>

  function Last(h: seq<Entry>): Entry
    requires h != []
  {
    h[|h| - 1]
  }

  ghost predicate IsPut(dispose: Disposer, h: seq<Entry>, i: nat) {
    i < |dispose(h)| && dispose(h)[i].Put?
  }

  ghost function PutEntry(dispose: Disposer, h: seq<Entry>, i: nat): Entry
    requires IsPut(dispose, h, i)
  {
    Entry(dispose(h)[i].key, dispose(h)[i].cell)
  }

  // ------------------------------------------------- entries and insertions

  ghost function Items(m: map<Key, Address>): multiset<Entry> {
    multiset(set k | k in m :: Entry(k, m[k]))
  }

  ghost function PutOf(op: Reentry): multiset<Entry> {
    if op.Put? then multiset{Entry(op.key, op.cell)} else multiset{}
  }

  ghost function Puts(ops: seq<Reentry>, i: nat): multiset<Entry>
    requires i <= |ops|
    decreases |ops| - i
  {
    if i == |ops| then multiset{} else PutOf(ops[i]) + Puts(ops, i + 1)
  }

  /** Everything put into the map by the calls of `Dispose` in a history. */
  ghost function PutBy(dispose: Disposer, h: seq<Entry>): multiset<Entry>
    decreases |h|
  {
    if h == [] then multiset{} else PutBy(dispose, h[..|h| - 1]) + Puts(dispose(h), 0)
  }

  lemma ItemsWithout(m: map<Key, Address>, k: Key)
    requires k in m
    ensures Items(m) == Items(m - {k}) + multiset{Entry(k, m[k])}
  {
    var n := m - {k};
    var s, t := set j | j in m :: Entry(j, m[j]), set j | j in n :: Entry(j, n[j]);
    forall e | e in s ensures e in t + {Entry(k, m[k])} {
      assert e.key in m && (e.key != k ==> e.key in n && Entry(e.key, n[e.key]) in t);
    }
    forall e | e in t ensures e in s && e != Entry(k, m[k]) {
      assert e.key in n && Entry(e.key, m[e.key]) in s;
    }
    assert Entry(k, m[k]) in s;
    assert s == t + {Entry(k, m[k])};
  }

  lemma ItemsWith(m: map<Key, Address>, k: Key, a: Address)
    ensures Items(m[k := a]) == Items(m - {k}) + multiset{Entry(k, a)}
  {
    ItemsWithout(m[k := a], k);
    assert m[k := a] - {k} == m - {k};
  }

  lemma NoItems()
    ensures Items(map[]) == multiset{}
  {
  }

  lemma ItemsInjective(m: map<Key, Address>, n: map<Key, Address>)
    requires Items(m) == Items(n)
    ensures m == n
  {
    forall k | k in m ensures k in n && n[k] == m[k] {
      assert Entry(k, m[k]) in Items(m);
    }
    forall k | k in n ensures k in m {
      assert Entry(k, n[k]) in Items(n);
    }
  }

  function Found(m: map<Key, Address>, k: Key): seq<Entry> {
    if k in m then [Entry(k, m[k])] else []
  }

  lemma ItemsFound(m: map<Key, Address>, k: Key)
    ensures Items(m) == Items(m - {k}) + multiset(Found(m, k))
  {
    if k in m {
      ItemsWithout(m, k);
    } else {
      assert m - {k} == m;
    }
  }

  // ------------------------------------------------- accounts

  /** What was there at the start, together with all insertions owed by the calls of `Dispose` so
      far, is what was handed over or given back, is in the map, waits in a running round, or is
      still to be put in. */
  ghost predicate Accounts(start: multiset<Entry>, dispose: Disposer, handed: seq<Entry>, displaced: seq<Entry>,
                           impl: map<Key, Address>, waiting: multiset<Entry>, owed: multiset<Entry>)
  {
    multiset(handed) + multiset(displaced) + Items(impl) + waiting + owed == start + PutBy(dispose, handed)
  }

  lemma AccountsTake(start: multiset<Entry>, dispose: Disposer, handed: seq<Entry>, displaced: seq<Entry>,
                     impl: map<Key, Address>, waiting: multiset<Entry>, owed: multiset<Entry>, k: Key)
    requires Accounts(start, dispose, handed, displaced, impl, waiting, owed)
    ensures Accounts(start, dispose, handed, displaced + Found(impl, k), impl - {k}, waiting, owed)
  {
    hide Items, PutBy;
    ItemsFound(impl, k);
    assert multiset(displaced + Found(impl, k)) == multiset(displaced) + multiset(Found(impl, k));
  }

  lemma AccountsPut(start: multiset<Entry>, dispose: Disposer, handed: seq<Entry>, displaced: seq<Entry>,
                    impl: map<Key, Address>, waiting: multiset<Entry>, owed: multiset<Entry>, k: Key, a: Address)
    requires Accounts(start, dispose, handed, displaced, impl, waiting, multiset{Entry(k, a)} + owed)
    ensures Accounts(start, dispose, handed, displaced + Found(impl, k), impl[k := a], waiting, owed)
  {
    hide Items, PutBy;
    ItemsFound(impl, k);
    ItemsWith(impl, k, a);
    assert multiset(displaced + Found(impl, k)) == multiset(displaced) + multiset(Found(impl, k));
  }

  lemma AccountsSwap(start: multiset<Entry>, dispose: Disposer, handed: seq<Entry>, displaced: seq<Entry>,
                     impl: map<Key, Address>, waiting: multiset<Entry>, owed: multiset<Entry>)
    requires Accounts(start, dispose, handed, displaced, impl, waiting, owed)
    ensures Accounts(start, dispose, handed, displaced, map[], waiting + Items(impl), owed)
  {
    hide Items, PutBy;
    NoItems();
  }

  lemma AccountsHand(start: multiset<Entry>, dispose: Disposer, handed: seq<Entry>, displaced: seq<Entry>,
                     impl: map<Key, Address>, waiting: multiset<Entry>, owed: multiset<Entry>, e: Entry)
    requires Accounts(start, dispose, handed, displaced, impl, waiting + multiset{e}, owed)
    ensures Accounts(start, dispose, handed + [e], displaced, impl, waiting, owed + Puts(dispose(handed + [e]), 0))
  {
    hide Items, Puts;
    var h := handed + [e];
    assert h[..|h| - 1] == handed;
    assert PutBy(dispose, h) == PutBy(dispose, handed) + Puts(dispose(h), 0);
    assert multiset(h) == multiset(handed) + multiset{e};
    Regroup(multiset(handed), multiset(displaced), Items(impl), waiting, multiset{e}, owed, Puts(dispose(h), 0));
  }

  lemma Regroup<T>(h: multiset<T>, d: multiset<T>, i: multiset<T>, w: multiset<T>, e: multiset<T>,
                   o: multiset<T>, p: multiset<T>)
    ensures (h + e) + d + i + w + (o + p) == (h + d + i + (w + e) + o) + p
  {
  }

  // ------------------------------------------------- clashes

  ghost predicate Touches(op: Reentry, k: Key) {
    !op.ClearAgain? && op.key == k
  }

  ghost predicate NoClear(ops: seq<Reentry>, i: nat, j: nat)
    requires j <= |ops|
  {
    forall l: nat :: i < l < j ==> !ops[l].ClearAgain?
  }

  /** Call `j` sets or removes a key that call `i` has set, with no `Clear` between them. */
  ghost predicate ClashAt(ops: seq<Reentry>, i: nat, j: nat) {
    i < j < |ops| && ops[i].Put? && Touches(ops[j], ops[i].key) && NoClear(ops, i, j)
  }

  ghost predicate ClashBefore(ops: seq<Reentry>, n: nat) {
    exists i: nat, j: nat :: j < n && ClashAt(ops, i, j)
  }

  ghost predicate ClashFree(ops: seq<Reentry>) {
    !ClashBefore(ops, |ops|)
  }

  /** After the first `n` calls, `k` has been set and the map not been cleared since. */
  ghost predicate Live(ops: seq<Reentry>, n: nat, k: Key)
    requires n <= |ops|
  {
    exists i: nat :: i < n && ops[i].Put? && ops[i].key == k && NoClear(ops, i, n)
  }

  /** After `n` calls, what call `i` has put in is still what the map holds under its key. */
  ghost predicate Current(ops: seq<Reentry>, i: nat, n: nat)
    requires n <= |ops|
  {
    i < n && ops[i].Put? && NoClear(ops, i, n) && forall l: nat :: i < l < n ==> !Touches(ops[l], ops[i].key)
  }

  /** What the first `n` calls have put in and replaced or removed again was given back. */
  ghost predicate LostIn(ops: seq<Reentry>, n: nat, displaced: seq<Entry>)
    requires n <= |ops|
  {
    forall i: nat, j: nat :: j < n && Current(ops, i, j) && Touches(ops[j], ops[i].key) ==>
      Entry(ops[i].key, ops[i].cell) in displaced
  }

  lemma ClashStep(ops: seq<Reentry>, n: nat)
    requires n < |ops|
    ensures ClashBefore(ops, n + 1) <==> ClashBefore(ops, n) || (!ops[n].ClearAgain? && Live(ops, n, ops[n].key))
  {
    if i: nat, j: nat :| j < n + 1 && ClashAt(ops, i, j) {
      assert j == n ==> Live(ops, n, ops[n].key);
    }
    if !ops[n].ClearAgain? && Live(ops, n, ops[n].key) {
      var i: nat :| i < n && ops[i].Put? && ops[i].key == ops[n].key && NoClear(ops, i, n);
      assert ClashAt(ops, i, n);
    }
  }

  lemma LiveStep(ops: seq<Reentry>, n: nat, k: Key)
    requires n < |ops|
    ensures Live(ops, n + 1, k) <==> (Live(ops, n, k) && !ops[n].ClearAgain?) || (ops[n].Put? && ops[n].key == k)
  {
    if ops[n].Put? && ops[n].key == k {
      assert NoClear(ops, n, n + 1);
    }
    if Live(ops, n, k) && !ops[n].ClearAgain? {
      var i: nat :| i < n && ops[i].Put? && ops[i].key == k && NoClear(ops, i, n);
      assert NoClear(ops, i, n + 1);
    }
  }

  lemma CurrentStep(ops: seq<Reentry>, i: nat, n: nat)
    requires n < |ops|
    ensures Current(ops, i, n + 1) <==>
            if i == n then ops[n].Put?
            else Current(ops, i, n) && !ops[n].ClearAgain? && !Touches(ops[n], ops[i].key)
  {
  }

  /** The first calls of a longer script are those of the shorter one. */
  lemma SamePrefix(ops: seq<Reentry>, more: seq<Reentry>, n: nat)
    requires n <= |ops|
    ensures ClashBefore(ops + more, n) <==> ClashBefore(ops, n)
    ensures forall k :: Live(ops + more, n, k) <==> Live(ops, n, k)
  {
    var all := ops + more;
    assert forall i: nat :: i < |ops| ==> all[i] == ops[i];
    forall i: nat, j: nat | j < n ensures ClashAt(all, i, j) <==> ClashAt(ops, i, j) {
    }
    forall i: nat | i < n ensures NoClear(all, i, n) <==> NoClear(ops, i, n) {
    }
  }

  lemma SameCurrent(ops: seq<Reentry>, more: seq<Reentry>, i: nat, n: nat)
    requires n <= |ops|
    ensures Current(ops + more, i, n) <==> Current(ops, i, n)
  {
    assert forall l: nat :: l < |ops| ==> (ops + more)[l] == ops[l];
  }

  lemma SameLost(ops: seq<Reentry>, more: seq<Reentry>, n: nat, displaced: seq<Entry>)
    requires n <= |ops| && LostIn(ops, n, displaced)
    ensures LostIn(ops + more, n, displaced)
  {
    var all := ops + more;
    forall i: nat, j: nat | j < n && Current(all, i, j) && Touches(all[j], all[i].key)
      ensures Entry(all[i].key, all[i].cell) in displaced
    {
      SameCurrent(ops, more, i, j);
    }
  }

  // ------------------------------------------------- the calls of one round

  /** The scripts of the given calls of `Dispose`, one after the other. A call is given by its
      position in the history. */
  ghost function Script(dispose: Disposer, h: seq<Entry>, calls: seq<nat>): seq<Reentry> {
    if calls == [] then []
    else Script(dispose, h, calls[..|calls| - 1]) + dispose(Upto(h, calls[|calls| - 1]))
  }

  ghost function Upto(h: seq<Entry>, c: nat): seq<Entry> {
    if c < |h| then h[..c + 1] else h
  }

  /** The calls of one round: in the order of the history, each handed another key. */
  ghost predicate RoundOf(h: seq<Entry>, calls: seq<nat>) {
    && (forall i: nat :: i < |calls| ==> calls[i] < |h|)
    && (forall i: nat, j: nat :: i < j < |calls| ==> calls[i] < calls[j] && h[calls[i]].key != h[calls[j]].key)
  }

  lemma {:induction false} ScriptLater(dispose: Disposer, g: seq<Entry>, h: seq<Entry>, calls: seq<nat>)
    requires g <= h && forall i: nat :: i < |calls| ==> calls[i] < |g|
    ensures Script(dispose, h, calls) == Script(dispose, g, calls)
    decreases |calls|
  {
    if calls != [] {
      ScriptLater(dispose, g, h, calls[..|calls| - 1]);
      assert g[..calls[|calls| - 1] + 1] == h[..calls[|calls| - 1] + 1];
    }
  }

  lemma ScriptNext(dispose: Disposer, h: seq<Entry>, calls: seq<nat>, e: Entry)
    requires forall i: nat :: i < |calls| ==> calls[i] < |h|
    ensures Script(dispose, h + [e], calls + [|h|]) == Script(dispose, h, calls) + dispose(h + [e])
  {
    var next := calls + [|h|];
    assert next[..|next| - 1] == calls && (h + [e])[..|h| + 1] == h + [e];
    ScriptLater(dispose, h, h + [e], calls);
  }

  ghost predicate RoundsOf(h: seq<Entry>, rounds: seq<seq<nat>>) {
    forall i: nat :: i < |rounds| ==> RoundOf(h, rounds[i])
  }

  /** In no round does a call set or remove what an earlier call of the round has set. */
  ghost predicate AllFree(dispose: Disposer, h: seq<Entry>, rounds: seq<seq<nat>>) {
    forall i: nat :: i < |rounds| ==> ClashFree(Script(dispose, h, rounds[i]))
  }

  /** What the calls of a round put in and replace or remove again was given back to them. */
  ghost predicate AllLost(dispose: Disposer, h: seq<Entry>, rounds: seq<seq<nat>>, displaced: seq<Entry>) {
    forall i: nat :: i < |rounds| ==>
      LostIn(Script(dispose, h, rounds[i]), |Script(dispose, h, rounds[i])|, displaced)
  }

  ghost function Flat(rounds: seq<seq<nat>>): multiset<nat> {
    if rounds == [] then multiset{} else Flat(rounds[..|rounds| - 1]) + multiset(rounds[|rounds| - 1])
  }

  ghost function Range(a: nat, b: nat): multiset<nat>
    requires a <= b
    decreases b
  {
    if a == b then multiset{} else Range(a, b - 1) + multiset{b - 1}
  }

  lemma {:induction false} FlatSum(rs: seq<seq<nat>>, ss: seq<seq<nat>>)
    ensures Flat(rs + ss) == Flat(rs) + Flat(ss)
    decreases |ss|
  {
    if ss == [] {
      assert rs + ss == rs;
    } else {
      var t := ss[..|ss| - 1];
      FlatSum(rs, t);
      assert (rs + ss)[..|rs + ss| - 1] == rs + t;
    }
  }

  lemma FlatOne(r: seq<nat>)
    ensures Flat([r]) == multiset(r)
  {
    assert Flat([r][..0]) == multiset{};
  }

  lemma {:induction false} RangeSum(a: nat, b: nat, c: nat)
    requires a <= b <= c
    ensures Range(a, c) == Range(a, b) + Range(b, c)
    decreases c
  {
    if b < c {
      RangeSum(a, b, c - 1);
    }
  }

  lemma AllFreeLater(dispose: Disposer, g: seq<Entry>, h: seq<Entry>, rounds: seq<seq<nat>>)
    requires g <= h && RoundsOf(g, rounds)
    ensures RoundsOf(h, rounds) && (AllFree(dispose, h, rounds) <==> AllFree(dispose, g, rounds))
  {
    hide ClashFree, Script;
    forall i: nat | i < |rounds| ensures Script(dispose, h, rounds[i]) == Script(dispose, g, rounds[i]) {
      ScriptLater(dispose, g, h, rounds[i]);
    }
  }

  lemma AllLostLater(dispose: Disposer, g: seq<Entry>, h: seq<Entry>, rounds: seq<seq<nat>>,
                     early: seq<Entry>, displaced: seq<Entry>)
    requires g <= h && early <= displaced && RoundsOf(g, rounds) && AllLost(dispose, g, rounds, early)
    ensures AllLost(dispose, h, rounds, displaced)
  {
    hide Script, Current;
    forall i: nat | i < |rounds|
      ensures LostIn(Script(dispose, h, rounds[i]), |Script(dispose, h, rounds[i])|, displaced)
    {
      ScriptLater(dispose, g, h, rounds[i]);
      assert LostIn(Script(dispose, g, rounds[i]), |Script(dispose, g, rounds[i])|, early);
    }
  }
}
