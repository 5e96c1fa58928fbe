/** When `Clear` gives something back to `Dispose` instead of handing it over: round by round, the
    calls that `Dispose` makes against what they displace. */
module ClearRounds {
  import opened Cells
  import opened Reentrancy

  /** The finished rounds `rounds` hold all calls of `h` from the `n`th one on, each once. They have
      displaced nothing exactly if in none of them a call sets or removes what an earlier call of
      the same round has set; and what was set and touched again is among the displaced. */
  ghost predicate Reckoned(dispose: Disposer, h: seq<Entry>, n: nat, rounds: seq<seq<nat>>,
                           was: seq<Entry>, displaced: seq<Entry>)
  {
    && n <= |h| && RoundsOf(h, rounds) && Flat(rounds) == Range(n, |h|)
    && was <= displaced && AllLost(dispose, h, rounds, displaced)
    && (displaced == was <==> AllFree(dispose, h, rounds))
  }

  lemma NoneReckoned(dispose: Disposer, h: seq<Entry>, displaced: seq<Entry>)
    ensures Reckoned(dispose, h, |h|, [], displaced, displaced)
  {
  }

  lemma FreeSum(dispose: Disposer, h: seq<Entry>, rs: seq<seq<nat>>, ss: seq<seq<nat>>)
    ensures RoundsOf(h, rs + ss) <==> RoundsOf(h, rs) && RoundsOf(h, ss)
    ensures AllFree(dispose, h, rs + ss) <==> AllFree(dispose, h, rs) && AllFree(dispose, h, ss)
  {
    hide ClashFree, RoundOf, Script;
    var ts := rs + ss;
    assert forall i: nat :: i < |rs| ==> ts[i] == rs[i];
    assert forall i: nat :: i < |ss| ==> ts[|rs| + i] == ss[i];
    assert forall i: nat :: |rs| <= i < |ts| ==> ts[i] == ss[i - |rs|];
  }

  lemma LostSum(dispose: Disposer, h: seq<Entry>, rs: seq<seq<nat>>, ss: seq<seq<nat>>, displaced: seq<Entry>)
    ensures AllLost(dispose, h, rs + ss, displaced) <==>
            AllLost(dispose, h, rs, displaced) && AllLost(dispose, h, ss, displaced)
  {
    hide LostIn, Script;
    var ts := rs + ss;
    assert forall i: nat :: i < |rs| ==> ts[i] == rs[i];
    assert forall i: nat :: i < |ss| ==> ts[|rs| + i] == ss[i];
    assert forall i: nat :: |rs| <= i < |ts| ==> ts[i] == ss[i - |rs|];
  }

  lemma ReckonedThen(dispose: Disposer, g: seq<Entry>, h: seq<Entry>, n: nat, rs: seq<seq<nat>>, ss: seq<seq<nat>>,
                     was: seq<Entry>, d: seq<Entry>, displaced: seq<Entry>)
    requires g <= h && Reckoned(dispose, g, n, rs, was, d) && Reckoned(dispose, h, |g|, ss, d, displaced)
    ensures Reckoned(dispose, h, n, rs + ss, was, displaced)
  {
    hide AllFree, AllLost, RoundsOf, Flat, Range;
    AllFreeLater(dispose, g, h, rs);
    AllLostLater(dispose, g, h, rs, d, displaced);
    FreeSum(dispose, h, rs, ss);
    LostSum(dispose, h, rs, ss, displaced);
    FlatSum(rs, ss);
    RangeSum(n, |g|, |h|);
  }

  // ------------------------------------------------- within a round

  /** After the first `p` calls of a round, starting from an empty map: only what these calls have
      set is there, and as long as nothing is displaced all of it is. */
  ghost predicate Progress(ops: seq<Reentry>, p: nat, impl: map<Key, Address>, quiet: bool) {
    && p <= |ops|
    && (forall k :: k in impl ==> Live(ops, p, k))
    && (quiet ==> forall k :: Live(ops, p, k) ==> k in impl)
  }

  /** Insertions still current are in the map; those that are not were given back. */
  ghost predicate Tracked(ops: seq<Reentry>, p: nat, impl: map<Key, Address>, displaced: seq<Entry>) {
    && p <= |ops| && LostIn(ops, p, displaced)
    && (forall i: nat :: Current(ops, i, p) ==> ops[i].key in impl && impl[ops[i].key] == ops[i].cell)
  }

  /** A running round whose calls of `Dispose` so far are `calls`, with `p` of their calls made. The
      rounds of nested `Clear` calls are `nested`. */
  ghost predicate During(dispose: Disposer, h: seq<Entry>, n: nat, calls: seq<nat>, p: nat, impl: map<Key, Address>,
                         nested: seq<seq<nat>>, was: seq<Entry>, displaced: seq<Entry>)
  {
    var ops := Script(dispose, h, calls);
    && n <= |h| && RoundOf(h, calls) && RoundsOf(h, nested) && Flat(nested) + multiset(calls) == Range(n, |h|)
    && was <= displaced && AllLost(dispose, h, nested, displaced)
    && Progress(ops, p, impl, displaced == was) && Tracked(ops, p, impl, displaced)
    && (displaced == was <==> !ClashBefore(ops, p) && AllFree(dispose, h, nested))
  }

  lemma DuringStart(dispose: Disposer, h: seq<Entry>, displaced: seq<Entry>)
    ensures During(dispose, h, |h|, [], 0, map[], [], displaced, displaced)
  {
  }

  lemma ProgressStep(ops: seq<Reentry>, p: nat, impl: map<Key, Address>, quiet: bool,
                     impl': map<Key, Address>, quiet': bool)
    requires p < |ops| && Progress(ops, p, impl, quiet) && (quiet' ==> quiet)
    requires ops[p].ClearAgain? ==> impl' == map[]
    requires !ops[p].ClearAgain? ==>
               && (quiet' <==> quiet && ops[p].key !in impl)
               && impl' == if ops[p].Put? then impl[ops[p].key := ops[p].cell] else impl - {ops[p].key}
    ensures Progress(ops, p + 1, impl', quiet')
  {
    hide Live;
    forall k | k in impl' ensures Live(ops, p + 1, k) {
      LiveStep(ops, p, k);
    }
    forall k: Key | quiet' && Live(ops, p + 1, k) ensures k in impl' {
      LiveStep(ops, p, k);
    }
  }

  lemma TrackedStep(ops: seq<Reentry>, p: nat, impl: map<Key, Address>, displaced: seq<Entry>,
                    impl': map<Key, Address>, displaced': seq<Entry>)
    requires p < |ops| && Tracked(ops, p, impl, displaced) && displaced <= displaced'
    requires !ops[p].ClearAgain? ==>
               && displaced' == displaced + Found(impl, ops[p].key)
               && impl' == if ops[p].Put? then impl[ops[p].key := ops[p].cell] else impl - {ops[p].key}
    ensures Tracked(ops, p + 1, impl', displaced')
  {
    forall i: nat | Current(ops, i, p + 1) ensures ops[i].key in impl' && impl'[ops[i].key] == ops[i].cell {
      CurrentStep(ops, i, p);
    }
    forall i: nat, j: nat | j < p + 1 && Current(ops, i, j) && Touches(ops[j], ops[i].key)
      ensures Entry(ops[i].key, ops[i].cell) in displaced'
    {
      assert j == p ==> displaced'[|displaced|] == Entry(ops[i].key, ops[i].cell);
    }
  }

  /** A call that sets or removes a key. */
  lemma DuringOp(dispose: Disposer, h: seq<Entry>, n: nat, calls: seq<nat>, p: nat, impl: map<Key, Address>,
                 nested: seq<seq<nat>>, was: seq<Entry>, displaced: seq<Entry>, op: Reentry, impl': map<Key, Address>)
    requires During(dispose, h, n, calls, p, impl, nested, was, displaced)
    requires p < |Script(dispose, h, calls)| && op == Script(dispose, h, calls)[p] && !op.ClearAgain?
    requires impl' == if op.Put? then impl[op.key := op.cell] else impl - {op.key}
    ensures During(dispose, h, n, calls, p + 1, impl', nested, was, displaced + Found(impl, op.key))
  {
    hide AllFree, AllLost, RoundsOf, RoundOf, Flat, Range, Script, ClashBefore, Live, Progress, Tracked;
    var ops, displaced' := Script(dispose, h, calls), displaced + Found(impl, op.key);
    KeyLive(ops, p, impl, displaced == was, op.key);
    ClashStep(ops, p);
    AllLostLater(dispose, h, h, nested, displaced, displaced');
    ProgressStep(ops, p, impl, displaced == was, impl', displaced' == was);
    TrackedStep(ops, p, impl, displaced, impl', displaced');
  }

  lemma KeyLive(ops: seq<Reentry>, p: nat, impl: map<Key, Address>, quiet: bool, k: Key)
    requires Progress(ops, p, impl, quiet)
    ensures p <= |ops| && (quiet ==> (k in impl <==> Live(ops, p, k)))
  {
    hide Live;
  }

  /** A nested `Clear`. */
  lemma DuringClear(dispose: Disposer, g: seq<Entry>, h: seq<Entry>, n: nat, calls: seq<nat>, p: nat,
                    impl: map<Key, Address>, nested: seq<seq<nat>>, more: seq<seq<nat>>,
                    was: seq<Entry>, d: seq<Entry>, displaced: seq<Entry>)
    requires During(dispose, g, n, calls, p, impl, nested, was, d) && g <= h
    requires p < |Script(dispose, g, calls)| && Script(dispose, g, calls)[p].ClearAgain?
    requires Reckoned(dispose, h, |g|, more, d, displaced)
    ensures During(dispose, h, n, calls, p + 1, map[], nested + more, was, displaced)
  {
    hide AllFree, AllLost, RoundsOf, Flat, Range, Script, ClashBefore, Progress, Tracked;
    var ops := Script(dispose, g, calls);
    ScriptLater(dispose, g, h, calls);
    ClashStep(ops, p);
    ProgressStep(ops, p, impl, d == was, map[], displaced == was);
    TrackedStep(ops, p, impl, d, map[], displaced);
    AllFreeLater(dispose, g, h, nested);
    AllLostLater(dispose, g, h, nested, d, displaced);
    FreeSum(dispose, h, nested, more);
    LostSum(dispose, h, nested, more, displaced);
    FlatSum(nested, more);
    RangeSum(n, |g|, |h|);
  }

  lemma ProgressLonger(ops: seq<Reentry>, more: seq<Reentry>, impl: map<Key, Address>, quiet: bool,
                       displaced: seq<Entry>)
    requires Progress(ops, |ops|, impl, quiet) && Tracked(ops, |ops|, impl, displaced)
    ensures Progress(ops + more, |ops|, impl, quiet) && Tracked(ops + more, |ops|, impl, displaced)
    ensures ClashBefore(ops + more, |ops|) <==> ClashBefore(ops, |ops|)
  {
    SamePrefix(ops, more, |ops|);
    SameLost(ops, more, |ops|, displaced);
    forall i: nat ensures Current(ops + more, i, |ops|) <==> Current(ops, i, |ops|) {
      SameCurrent(ops, more, i, |ops|);
    }
  }

  lemma RoundLonger(h: seq<Entry>, calls: seq<nat>, e: Entry)
    requires RoundOf(h, calls) && forall i: nat :: i < |calls| ==> h[calls[i]].key != e.key
    ensures RoundOf(h + [e], calls + [|h|])
  {
  }

  lemma DuringLonger(dispose: Disposer, g: seq<Entry>, h: seq<Entry>, n: nat, calls: seq<nat>, more: seq<nat>,
                     impl: map<Key, Address>, nested: seq<seq<nat>>, was: seq<Entry>, displaced: seq<Entry>,
                     ops: seq<Reentry>)
    requires During(dispose, g, n, calls, |Script(dispose, g, calls)|, impl, nested, was, displaced) && g <= h
    requires RoundOf(h, more) && Script(dispose, h, more) == Script(dispose, g, calls) + ops
    requires n <= |h| && Flat(nested) + multiset(more) == Range(n, |h|)
    ensures During(dispose, h, n, more, |Script(dispose, g, calls)|, impl, nested, was, displaced)
  {
    hide AllFree, AllLost, RoundsOf, RoundOf, Flat, Range, Script, ClashBefore, Progress, Tracked;
    ProgressLonger(Script(dispose, g, calls), ops, impl, displaced == was, displaced);
    AllFreeLater(dispose, g, h, nested);
    AllLostLater(dispose, g, h, nested, displaced, displaced);
  }

  /** The round hands over another key. */
  lemma DuringHand(dispose: Disposer, h: seq<Entry>, n: nat, calls: seq<nat>, impl: map<Key, Address>,
                   nested: seq<seq<nat>>, was: seq<Entry>, displaced: seq<Entry>, e: Entry)
    requires During(dispose, h, n, calls, |Script(dispose, h, calls)|, impl, nested, was, displaced)
    requires forall i: nat :: i < |calls| ==> calls[i] < |h| && h[calls[i]].key != e.key
    ensures During(dispose, h + [e], n, calls + [|h|], |Script(dispose, h, calls)|, impl, nested, was, displaced)
  {
    hide During, RoundOf, Flat, Range, Script;
    DuringFacts(dispose, h, n, calls, |Script(dispose, h, calls)|, impl, nested, was, displaced);
    ScriptNext(dispose, h, calls, e);
    RoundLonger(h, calls, e);
    RangeLonger(Flat(nested), calls, n, |h|);
    DuringLonger(dispose, h, h + [e], n, calls, calls + [|h|], impl, nested, was, displaced, dispose(h + [e]));
  }

  lemma DuringFacts(dispose: Disposer, h: seq<Entry>, n: nat, calls: seq<nat>, p: nat, impl: map<Key, Address>,
                    nested: seq<seq<nat>>, was: seq<Entry>, displaced: seq<Entry>)
    requires During(dispose, h, n, calls, p, impl, nested, was, displaced)
    ensures n <= |h| && RoundOf(h, calls) && Flat(nested) + multiset(calls) == Range(n, |h|)
  {
    hide RoundOf, Flat, Range, Script, Progress, Tracked, AllLost, AllFree, ClashBefore;
  }

  lemma RangeLonger(others: multiset<nat>, calls: seq<nat>, n: nat, next: nat)
    requires n <= next && others + multiset(calls) == Range(n, next)
    ensures others + multiset(calls + [next]) == Range(n, next + 1)
  {
    assert multiset(calls + [next]) == multiset(calls) + multiset{next};
  }

  lemma OneRound(dispose: Disposer, h: seq<Entry>, calls: seq<nat>, displaced: seq<Entry>)
    ensures RoundsOf(h, [calls]) <==> RoundOf(h, calls)
    ensures AllFree(dispose, h, [calls]) <==> ClashFree(Script(dispose, h, calls))
    ensures AllLost(dispose, h, [calls], displaced) <==>
            LostIn(Script(dispose, h, calls), |Script(dispose, h, calls)|, displaced)
  {
    hide ClashFree, LostIn, RoundOf, Script;
    assert [calls][0] == calls;
  }

  /** The round has handed over everything. */
  lemma DuringEnd(dispose: Disposer, h: seq<Entry>, n: nat, calls: seq<nat>, impl: map<Key, Address>,
                  nested: seq<seq<nat>>, was: seq<Entry>, displaced: seq<Entry>)
    requires During(dispose, h, n, calls, |Script(dispose, h, calls)|, impl, nested, was, displaced)
    ensures Reckoned(dispose, h, n, nested + [calls], was, displaced)
  {
    hide AllFree, AllLost, RoundsOf, Flat, Range, Script, ClashBefore, Progress, LostIn, RoundOf;
    OneRound(dispose, h, calls, displaced);
    FreeSum(dispose, h, nested, [calls]);
    LostSum(dispose, h, nested, [calls], displaced);
    FlatSum(nested, [calls]);
    FlatOne(calls);
  }

  // ------------------------------------------------- no clashes

  /** No call of `Dispose` clashes with itself. */
  ghost predicate SelfFree(dispose: Disposer, h: seq<Entry>) {
    forall g :: g != [] && g <= h ==> ClashFree(dispose(g))
  }

  /** Keys are divided into zones, and a `Dispose` that is handed a key sets and removes only
      keys of the zone that key stands for: its own key, say, or keys derived from it. */
  ghost predicate Zoned(dispose: Disposer, zone: Key -> Key, h: seq<Entry>) {
    forall g, i: nat :: g != [] && g <= h && i < |dispose(g)| && !dispose(g)[i].ClearAgain? ==>
      zone(dispose(g)[i].key) == Last(g).key
  }

  /** No call of `Dispose` sets or removes a key that an earlier call has set. */
  ghost predicate FreshKeys(dispose: Disposer, h: seq<Entry>) {
    forall f, i: nat, g, j: nat :: f != [] && f < g && g <= h && IsPut(dispose, f, i) && j < |dispose(g)| ==>
      !Touches(dispose(g)[j], dispose(f)[i].key)
  }

  /** No call touches what an earlier one, handed another key, has put in. */
  ghost predicate Apart(dispose: Disposer, h: seq<Entry>) {
    forall c: nat, i: nat, d: nat, j: nat ::
      c < d < |h| && h[c].key != h[d].key && IsPut(dispose, Upto(h, c), i) && j < |dispose(Upto(h, d))| ==>
        !Touches(dispose(Upto(h, d))[j], dispose(Upto(h, c))[i].key)
  }

  /** Two scripts in a row clash only within one of them or from the first to the second. */
  lemma ClashAtSum(ops: seq<Reentry>, more: seq<Reentry>, i: nat, j: nat)
    requires ClashAt(ops + more, i, j)
    ensures var n := |ops|;
            || ClashAt(ops, i, j)
            || (n <= i && n <= j && ClashAt(more, i - n, j - n))
            || (i < n <= j < n + |more| && ops[i].Put? && Touches(more[j - n], ops[i].key))
  {
    var all, n := ops + more, |ops|;
    assert forall l: nat :: l < n ==> all[l] == ops[l];
    assert forall l: nat :: l < |more| ==> all[n + l] == more[l];
  }

  lemma ClashFreeSum(ops: seq<Reentry>, more: seq<Reentry>)
    requires ClashFree(ops) && ClashFree(more)
    requires forall i: nat, j: nat :: i < |ops| && ops[i].Put? && j < |more| ==> !Touches(more[j], ops[i].key)
    ensures ClashFree(ops + more)
  {
    if i: nat, j: nat :| j < |ops + more| && ClashAt(ops + more, i, j) {
      ClashAtSum(ops, more, i, j);
    }
  }

  /** Every call in a script of calls belongs to one of them. */
  lemma {:induction false} ScriptFrom(dispose: Disposer, h: seq<Entry>, calls: seq<nat>, i: nat)
    returns (c: nat, j: nat)
    requires i < |Script(dispose, h, calls)|
    ensures c in calls && j < |dispose(Upto(h, c))| && Script(dispose, h, calls)[i] == dispose(Upto(h, c))[j]
    decreases |calls|
  {
    var before, last := calls[..|calls| - 1], calls[|calls| - 1];
    var n := |Script(dispose, h, before)|;
    if i < n {
      c, j := ScriptFrom(dispose, h, before, i);
    } else {
      c, j := last, i - n;
    }
  }

  lemma RoundPrefix(h: seq<Entry>, calls: seq<nat>)
    requires calls != [] && RoundOf(h, calls)
    ensures RoundOf(h, calls[..|calls| - 1])
  {
  }

  lemma DistinctKeys(h: seq<Entry>, calls: seq<nat>, c: nat)
    requires calls != [] && RoundOf(h, calls) && c in calls[..|calls| - 1]
    ensures c < calls[|calls| - 1] < |h| && h[c].key != h[calls[|calls| - 1]].key
  {
  }

  lemma NothingClashes()
    ensures ClashFree([])
  {
  }

  /** Calls that keep apart clash in a round only if one of them clashes with itself. */
  lemma {:induction false} RoundIsFree(dispose: Disposer, h: seq<Entry>, calls: seq<nat>)
    requires SelfFree(dispose, h) && Apart(dispose, h) && RoundOf(h, calls)
    ensures ClashFree(Script(dispose, h, calls))
    decreases |calls|
  {
    hide ClashFree;
    if calls == [] {
      NothingClashes();
    } else {
      var before, last := calls[..|calls| - 1], calls[|calls| - 1];
      RoundPrefix(h, calls);
      RoundIsFree(dispose, h, before);
      var ops, more := Script(dispose, h, before), dispose(Upto(h, last));
      forall i: nat, j: nat | i < |ops| && ops[i].Put? && j < |more| ensures !Touches(more[j], ops[i].key) {
        var c, l := ScriptFrom(dispose, h, before, i);
        DistinctKeys(h, calls, c);
        assert IsPut(dispose, Upto(h, c), l);
      }
      ClashFreeSum(ops, more);
    }
  }

  lemma ApartIsFree(dispose: Disposer, h: seq<Entry>, rounds: seq<seq<nat>>)
    requires SelfFree(dispose, h) && Apart(dispose, h) && RoundsOf(h, rounds)
    ensures AllFree(dispose, h, rounds)
  {
    hide ClashFree, RoundOf, SelfFree, Apart;
    forall i: nat | i < |rounds| ensures ClashFree(Script(dispose, h, rounds[i])) {
      RoundIsFree(dispose, h, rounds[i]);
    }
  }

  /** A `Dispose` that keeps to zones, and of which no call clashes with itself, displaces nothing. */
  lemma ZonesDoNotClash(dispose: Disposer, zone: Key -> Key, h: seq<Entry>, rounds: seq<seq<nat>>)
    requires SelfFree(dispose, h) && Zoned(dispose, zone, h) && RoundsOf(h, rounds)
    ensures AllFree(dispose, h, rounds)
  {
    hide SelfFree, RoundsOf, AllFree;
    forall c: nat, i: nat, d: nat, j: nat |
      c < d < |h| && h[c].key != h[d].key && IsPut(dispose, Upto(h, c), i) && j < |dispose(Upto(h, d))|
      ensures !Touches(dispose(Upto(h, d))[j], dispose(Upto(h, c))[i].key)
    {
      assert Last(Upto(h, c)) == h[c] && Last(Upto(h, d)) == h[d];
    }
    ApartIsFree(dispose, h, rounds);
  }

  /** Nor does a `Dispose` that files everything under keys of its own. */
  lemma FreshKeysDoNotClash(dispose: Disposer, h: seq<Entry>, rounds: seq<seq<nat>>)
    requires SelfFree(dispose, h) && FreshKeys(dispose, h) && RoundsOf(h, rounds)
    ensures AllFree(dispose, h, rounds)
  {
    hide SelfFree, RoundsOf, AllFree, Touches;
    forall c: nat, i: nat, d: nat, j: nat |
      c < d < |h| && h[c].key != h[d].key && IsPut(dispose, Upto(h, c), i) && j < |dispose(Upto(h, d))|
      ensures !Touches(dispose(Upto(h, d))[j], dispose(Upto(h, c))[i].key)
    {
      assert Upto(h, c) < Upto(h, d) && Upto(h, d) <= h;
    }
    ApartIsFree(dispose, h, rounds);
  }

  // ------------------------------------------------- what a single call loses

  lemma LostParts(ops: seq<Reentry>, more: seq<Reentry>, displaced: seq<Entry>)
    requires LostIn(ops + more, |ops + more|, displaced)
    ensures LostIn(ops, |ops|, displaced) && LostIn(more, |more|, displaced)
  {
    var all, n := ops + more, |ops|;
    forall i: nat, j: nat | j < n && Current(ops, i, j) && Touches(ops[j], ops[i].key)
      ensures Entry(ops[i].key, ops[i].cell) in displaced
    {
      SameCurrent(ops, more, i, j);
    }
    forall i: nat, j: nat | j < |more| && Current(more, i, j) && Touches(more[j], more[i].key)
      ensures Entry(more[i].key, more[i].cell) in displaced
    {
      assert forall l: nat :: n <= l < |all| ==> all[l] == more[l - n];
      assert Current(all, n + i, n + j);
    }
  }

  lemma {:induction false} LostByCall(dispose: Disposer, h: seq<Entry>, calls: seq<nat>, c: nat, displaced: seq<Entry>)
    requires c in calls && LostIn(Script(dispose, h, calls), |Script(dispose, h, calls)|, displaced)
    ensures LostIn(dispose(Upto(h, c)), |dispose(Upto(h, c))|, displaced)
    decreases |calls|
  {
    hide LostIn;
    var before, last := calls[..|calls| - 1], calls[|calls| - 1];
    LostParts(Script(dispose, h, before), dispose(Upto(h, last)), displaced);
    if c != last {
      LostByCall(dispose, h, before, c, displaced);
    }
  }

  lemma {:induction false} RoundWith(rounds: seq<seq<nat>>, c: nat) returns (r: nat)
    requires c in Flat(rounds)
    ensures r < |rounds| && c in rounds[r]
    decreases |rounds|
  {
    var n := |rounds| - 1;
    if c in rounds[n] {
      r := n;
    } else {
      r := RoundWith(rounds[..n], c);
    }
  }

  lemma {:induction false} InRange(a: nat, b: nat, c: nat)
    requires a <= c < b
    ensures c in Range(a, b)
    decreases b
  {
    if c < b - 1 {
      InRange(a, b - 1, c);
    }
  }

  /** What a call of `Dispose` puts in and then sets or removes again was given back to it. */
  lemma EveryCallLoses(dispose: Disposer, h: seq<Entry>, rounds: seq<seq<nat>>, displaced: seq<Entry>, c: nat)
    requires c < |h| && Flat(rounds) == Range(0, |h|) && AllLost(dispose, h, rounds, displaced)
    ensures LostIn(dispose(h[..c + 1]), |dispose(h[..c + 1])|, displaced)
  {
    hide LostIn, Script, Flat, Range;
    InRange(0, |h|, c);
    var r := RoundWith(rounds, c);
    LostByCall(dispose, h, rounds[r], c, displaced);
  }
}
