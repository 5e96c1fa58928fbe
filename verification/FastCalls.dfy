/** Signatures of fast API calls: resolving overloads, and the builder that merges flags. A
    failing `static_assert` is modelled as no result. */
module FastCalls {
  import opened Cells

  datatype Type =
    | Void | Bool | Uint8 | Int32 | Uint32 | Int64 | Uint64 | Float32 | Float64
    | Pointer | V8Value | SeqOneByteString | ApiObject | Any | CallbackOptions

  datatype SequenceType = Scalar | IsSequence | IsTypedArray | IsArrayBuffer

  type Flags = bv8
  const ALLOW_SHARED: Flags := 1
  const ENFORCE_RANGE: Flags := 2
  const CLAMP: Flags := 4
  const IS_RESTRICTED: Flags := 8

  datatype TypeInfo = TypeInfo(kind: Type, sequenceType: SequenceType, flags: Flags)

  // ------------------------------------------------- overload resolution

  datatype FunctionInfo = FunctionInfo(ret: TypeInfo, args: seq<TypeInfo>) {
    predicate HasOptions() {
      |args| > 0 && args[|args| - 1].kind == CallbackOptions
    }

    function ArgumentCount(): nat {
      if HasOptions() then |args| - 1 else |args|
    }
  }

  datatype OverloadResolution = Impossible | AtRuntime | AtCompileTime

  predicate DifferAt(a: seq<TypeInfo>, b: seq<TypeInfo>, i: nat) {
    i < |a| && i < |b| && a[i].sequenceType != b[i].sequenceType
  }

  /** Among the first `n` arguments at most one position differs, and there neither side is a scalar. */
  ghost predicate Distinguishable(a: seq<TypeInfo>, b: seq<TypeInfo>, n: nat) {
    && (forall i: nat, j: nat :: i < n && j < n && DifferAt(a, b, i) && DifferAt(a, b, j) ==> i == j)
    && (forall i: nat :: i < n && DifferAt(a, b, i) ==> a[i].sequenceType != Scalar && b[i].sequenceType != Scalar)
  }

  /** The answer for two argument lists in which there are no options. */
  ghost function ListResolution(a: seq<TypeInfo>, b: seq<TypeInfo>): OverloadResolution {
    if |a| != |b| then AtCompileTime else if Distinguishable(a, b, |a|) then AtRuntime else Impossible
  }

  /** The arguments, without the options if the last one is that. */
  ghost function Counted(args: seq<TypeInfo>): seq<TypeInfo> {
    if args != [] && args[|args| - 1].kind == CallbackOptions then args[..|args| - 1] else args
  }

  ghost function Resolution(f: FunctionInfo, g: FunctionInfo): OverloadResolution {
    ListResolution(Counted(f.args), Counted(g.args))
  }

  /** A last argument is counted exactly if it is not an options argument; the others always are. */
  lemma ArgumentsCounted(ret: TypeInfo, args: seq<TypeInfo>, t: TypeInfo)
    ensures FunctionInfo(ret, []).ArgumentCount() == 0
    ensures FunctionInfo(ret, args + [t]).ArgumentCount() == |args| + if t.kind == CallbackOptions then 0 else 1
  {
  }

  /** Options play no part in the resolution, on either side. */
  lemma OptionsDoNotMatter(f: FunctionInfo, g: FunctionInfo, args: seq<TypeInfo>, options: TypeInfo)
    requires options.kind == CallbackOptions && f.args == args + [options]
    ensures Resolution(f, g) == ListResolution(args, Counted(g.args))
    ensures Resolution(g, f) == ListResolution(Counted(g.args), args)
  {
    assert f.args[..|f.args| - 1] == args;
  }

  method GetOverloadResolution(f: FunctionInfo, g: FunctionInfo) returns (r: OverloadResolution)
    ensures r == Resolution(f, g)
  {
    ghost var a, b := Counted(f.args), Counted(g.args);
    if f.ArgumentCount() != g.ArgumentCount() {
      return AtCompileTime;
    }
    var diffIndex := -1;
    for i := 0 to f.ArgumentCount()
      invariant -1 <= diffIndex < i
      invariant forall j: nat :: j < i && DifferAt(a, b, j) ==> j == diffIndex
      invariant diffIndex >= 0 ==> DifferAt(a, b, diffIndex)
      invariant Distinguishable(a, b, i)
    {
      assert a[i] == f.args[i] && b[i] == g.args[i];
      if f.args[i].sequenceType != g.args[i].sequenceType {
        assert DifferAt(a, b, i);
        if diffIndex >= 0 {
          return Impossible;
        }
        diffIndex := i;
        if f.args[i].sequenceType == Scalar || g.args[i].sequenceType == Scalar {
          return Impossible;
        }
      }
    }
    return AtRuntime;
  }

  /** It does not matter which of the two functions is asked. */
  lemma ResolutionSymmetric(f: FunctionInfo, g: FunctionInfo)
    ensures Resolution(f, g) == Resolution(g, f)
  {
    var a, b := Counted(f.args), Counted(g.args);
    assert forall i: nat :: DifferAt(a, b, i) <==> DifferAt(b, a, i);
  }

  // ------------------------------------------------- the builder

  function MergeFlags(fs: seq<Flags>): Flags {
    if fs == [] then 0 else fs[0] | MergeFlags(fs[1..])
  }

  /** `CTypeInfoBuilder<T, Flags...>`, where `T` has the given type information and no flags. */
  datatype TypeBuilder = TypeBuilder(kind: Type, sequenceType: SequenceType, flags: seq<Flags>)

  predicate IsIntegral(t: Type) {
    t in {Uint8, Int32, Uint32, Int64, Uint64}
  }

  predicate IsFloatingPoint(t: Type) {
    t in {Float32, Float64}
  }

  /** The assertions of `CTypeInfoBuilder::Build`. */
  predicate Allowed(t: TypeInfo) {
    && (t.flags & ALLOW_SHARED != 0 ==> t.sequenceType in {IsTypedArray, IsArrayBuffer})
    && (t.flags & ENFORCE_RANGE != 0 ==> IsIntegral(t.kind))
    && (t.flags & CLAMP != 0 ==> IsIntegral(t.kind))
    && (t.flags & IS_RESTRICTED != 0 ==> IsFloatingPoint(t.kind))
    && (t.sequenceType == IsSequence ==> t.kind == Void)
    && (t.sequenceType == IsTypedArray ==> IsIntegral(t.kind) || IsFloatingPoint(t.kind) || t.kind in {Bool, Void})
  }

  function BuildType(b: TypeBuilder): Option<TypeInfo> {
    var t := TypeInfo(b.kind, b.sequenceType, 0 | MergeFlags(b.flags));
    if Allowed(t) then Some(t) else None
  }

  datatype Builder = Builder(ret: TypeBuilder, args: seq<TypeBuilder>)

  datatype Call = Ret(flags: seq<Flags>) | Arg(n: nat, flags: seq<Flags>)

  /** `Ret<Flags...>()` and `Arg<N, Flags...>()`. Merging into an argument builds it first; an
      index beyond the last argument selects nothing. */
  function Apply(b: Builder, c: Call): Option<Builder> {
    match c
    case Ret(fs) => Some(b.(ret := b.ret.(flags := fs)))
    case Arg(n, fs) =>
      if n >= |b.args| then Some(b)
      else
        var built := BuildType(b.args[n]);
        if built.None? then None
        else Some(b.(args := b.args[n := b.args[n].(flags := [built.value.flags] + fs)]))
  }

  function ApplyAll(b: Builder, calls: seq<Call>): Option<Builder> {
    if calls == [] then Some(b)
    else
      var prefix := ApplyAll(b, calls[..|calls| - 1]);
      if prefix.None? then None else Apply(prefix.value, calls[|calls| - 1])
  }

  predicate ReturnTypeAllowed(t: Type) {
    t in {Void, Bool, Int32, Uint32, Float32, Float64, Pointer, Any}
  }

  /** `CFunctionInfoImpl`: everything is built, and there must be a receiver. */
  function Build(b: Builder): Option<FunctionInfo> {
    var ret := BuildType(b.ret);
    if |b.args| < 1 || ret.None? || !ReturnTypeAllowed(ret.value.kind) then None
    else if exists i :: 0 <= i < |b.args| && BuildType(b.args[i]).None? then None
    else Some(FunctionInfo(ret.value, seq(|b.args|, i requires 0 <= i < |b.args| => Info(b.args[i]))))
  }

  function Info(b: TypeBuilder): TypeInfo {
    TypeInfo(b.kind, b.sequenceType, MergeFlags(b.flags))
  }

  // ------------------------------------------------- what the builder computes

  /** All flags given to `Arg<i>`, in any of its calls. */
  ghost function ArgFlags(calls: seq<Call>, i: nat): Flags {
    if calls == [] then 0
    else
      var c := calls[|calls| - 1];
      ArgFlags(calls[..|calls| - 1], i) | if c.Arg? && c.n == i then MergeFlags(c.flags) else 0
  }

  /** The flags of the last `Ret`. */
  ghost function RetFlags(calls: seq<Call>): Flags {
    if calls == [] then 0
    else
      var c := calls[|calls| - 1];
      if c.Ret? then MergeFlags(c.flags) else RetFlags(calls[..|calls| - 1])
  }

  /** `CFunctionBuilder().Fn(f)`: no flags yet. */
  predicate Fresh(b: Builder) {
    b.ret.flags == [] && forall i :: 0 <= i < |b.args| ==> b.args[i].flags == []
  }

  ghost function ArgResult(b: Builder, calls: seq<Call>, i: nat): TypeInfo
    requires i < |b.args|
  {
    TypeInfo(b.args[i].kind, b.args[i].sequenceType, ArgFlags(calls, i))
  }

  ghost function RetResult(b: Builder, calls: seq<Call>): TypeInfo {
    TypeInfo(b.ret.kind, b.ret.sequenceType, RetFlags(calls))
  }

  ghost predicate Tracks(b: Builder, calls: seq<Call>, r: Builder) {
    && r.ret.kind == b.ret.kind && r.ret.sequenceType == b.ret.sequenceType
    && MergeFlags(r.ret.flags) == RetFlags(calls) && |r.args| == |b.args|
    && forall i: nat :: i < |b.args| ==> Info(r.args[i]) == ArgResult(b, calls, i)
  }

  lemma OrLaws(x: Flags, y: Flags, z: Flags)
    ensures x | 0 == x == 0 | x && x | x == x && x | y == y | x && (x | y) | z == x | (y | z)
  {
  }

  lemma NotAllowedForGood(t: TypeInfo, more: Flags)
    requires !Allowed(t)
    ensures !Allowed(t.(flags := t.flags | more))
  {
    hide IsIntegral, IsFloatingPoint;
  }

  lemma ApplyTracks(b: Builder, calls: seq<Call>, c: Call, r: Builder)
    requires Tracks(b, calls, r)
    ensures Apply(r, c).None? <==> c.Arg? && c.n < |b.args| && !Allowed(ArgResult(b, calls, c.n))
    ensures Apply(r, c).Some? ==> Tracks(b, calls + [c], Apply(r, c).value)
  {
    hide Allowed, ArgFlags, RetFlags, MergeFlags;
    forall i: nat ensures ArgFlags(calls + [c], i) == ArgFlagsThen(calls, c, i) {
      FlagsNext(calls, c, i);
    }
    FlagsNext(calls, c, 0);
    if c.Arg? && c.n < |b.args| {
      assert Info(r.args[c.n]) == ArgResult(b, calls, c.n);
      OrLaws(ArgFlags(calls, c.n), 0, 0);
      MergeNext(ArgFlags(calls, c.n), c.flags);
    }
  }

  ghost function ArgFlagsThen(calls: seq<Call>, c: Call, i: nat): Flags {
    if c.Arg? && c.n == i then ArgFlags(calls, i) | MergeFlags(c.flags) else ArgFlags(calls, i)
  }

  lemma FlagsNext(calls: seq<Call>, c: Call, i: nat)
    ensures ArgFlags(calls + [c], i) == ArgFlagsThen(calls, c, i)
    ensures RetFlags(calls + [c]) == if c.Ret? then MergeFlags(c.flags) else RetFlags(calls)
  {
    hide MergeFlags;
    var all := calls + [c];
    assert all[..|all| - 1] == calls && all[|all| - 1] == c;
    OrLaws(ArgFlags(calls, i), 0, 0);
  }

  lemma MergeNext(f: Flags, fs: seq<Flags>)
    ensures MergeFlags([f] + fs) == f | MergeFlags(fs)
  {
    assert ([f] + fs)[1..] == fs;
  }

  /** Running the calls either arrives at the union of all flags, or fails because some argument
      has flags that it may not have. */
  lemma {:induction false} ApplyAllTracks(b: Builder, calls: seq<Call>)
    requires Fresh(b)
    ensures ApplyAll(b, calls).Some? ==> Tracks(b, calls, ApplyAll(b, calls).value)
    ensures ApplyAll(b, calls).None? ==> exists i: nat :: i < |b.args| && !Allowed(ArgResult(b, calls, i))
    decreases |calls|
  {
    hide Allowed, Apply;
    if calls != [] {
      var before, c := calls[..|calls| - 1], calls[|calls| - 1];
      assert calls == before + [c];
      ApplyAllTracks(b, before);
      if ApplyAll(b, before).Some? {
        ApplyTracks(b, before, c, ApplyAll(b, before).value);
        if Apply(ApplyAll(b, before).value, c).None? {
          StillNotAllowed(b, before, c, c.n);
        }
      } else {
        var i: nat :| i < |b.args| && !Allowed(ArgResult(b, before, i));
        StillNotAllowed(b, before, c, i);
      }
    }
  }

  lemma StillNotAllowed(b: Builder, calls: seq<Call>, c: Call, i: nat)
    requires i < |b.args| && !Allowed(ArgResult(b, calls, i))
    ensures !Allowed(ArgResult(b, calls + [c], i))
  {
    hide Allowed;
    var all := calls + [c];
    assert all[..|all| - 1] == calls;
    NotAllowedForGood(ArgResult(b, calls, i), if c.Arg? && c.n == i then MergeFlags(c.flags) else 0);
  }

  function Built(b: Builder, calls: seq<Call>): Option<FunctionInfo> {
    var r := ApplyAll(b, calls);
    if r.None? then None else Build(r.value)
  }

  ghost predicate AllAllowed(b: Builder, calls: seq<Call>) {
    forall i: nat :: i < |b.args| ==> Allowed(ArgResult(b, calls, i))
  }

  /** A chain of builder calls compiles exactly if the final flags of every argument and of the
      return value are allowed. Then argument `i` has all flags ever given to it and no others,
      and the return value has those of the last `Ret`. */
  lemma BuilderExactly(b: Builder, calls: seq<Call>)
    requires Fresh(b)
    ensures Built(b, calls).Some? <==>
              && |b.args| >= 1 && ReturnTypeAllowed(b.ret.kind)
              && Allowed(RetResult(b, calls)) && AllAllowed(b, calls)
    ensures Built(b, calls).Some? ==>
              && Built(b, calls).value.ret == RetResult(b, calls)
              && |Built(b, calls).value.args| == |b.args|
              && forall i: nat :: i < |b.args| ==> Built(b, calls).value.args[i] == ArgResult(b, calls, i)
  {
    hide Allowed, ApplyAll, ReturnTypeAllowed, RetFlags, ArgFlags, MergeFlags;
    ApplyAllTracks(b, calls);
    if ApplyAll(b, calls).Some? {
      var r := ApplyAll(b, calls).value;
      Buildable(r.ret);
      forall i: nat | i < |b.args| ensures BuildType(r.args[i]).Some? <==> Allowed(ArgResult(b, calls, i)) {
        Buildable(r.args[i]);
      }
    }
  }

  lemma Buildable(t: TypeBuilder)
    ensures BuildType(t) == if Allowed(Info(t)) then Some(Info(t)) else None
  {
    hide Allowed;
    OrLaws(MergeFlags(t.flags), 0, 0);
  }

  // ------------------------------------------------- one rule per flag

  ghost predicate Has(f: Flags, bit: Flags) {
    f & bit != 0
  }

  ghost predicate HasFlag(fs: seq<Flags>, bit: Flags) {
    exists i :: 0 <= i < |fs| && Has(fs[i], bit)
  }

  /** Some call gives the flag to argument `i`. */
  ghost predicate Given(calls: seq<Call>, i: nat, bit: Flags) {
    exists j :: 0 <= j < |calls| && calls[j].Arg? && calls[j].n == i && HasFlag(calls[j].flags, bit)
  }

  /** The last call for the return value, if there is one, gives the flag. */
  ghost predicate GivenToRet(calls: seq<Call>, bit: Flags) {
    exists j :: && 0 <= j < |calls| && calls[j].Ret? && HasFlag(calls[j].flags, bit)
                && forall l :: j < l < |calls| ==> !calls[l].Ret?
  }

  lemma OrBit(x: Flags, y: Flags, bit: Flags)
    ensures Has(x | y, bit) <==> Has(x, bit) || Has(y, bit)
    ensures !Has(0, bit)
  {
  }

  lemma {:induction false} MergeGives(fs: seq<Flags>, bit: Flags)
    ensures Has(MergeFlags(fs), bit) <==> HasFlag(fs, bit)
  {
    hide Has;
    OrBit(0, 0, bit);
    if fs != [] {
      MergeGives(fs[1..], bit);
      OrBit(fs[0], MergeFlags(fs[1..]), bit);
      HasFlagNext(fs[0], fs[1..], bit);
      assert fs == [fs[0]] + fs[1..];
    }
  }

  lemma HasFlagNext(f: Flags, fs: seq<Flags>, bit: Flags)
    ensures HasFlag([f] + fs, bit) <==> Has(f, bit) || HasFlag(fs, bit)
  {
    hide Has;
    var all := [f] + fs;
    assert all[0] == f && forall i :: 0 <= i < |fs| ==> all[i + 1] == fs[i];
  }

  lemma GivenNext(before: seq<Call>, c: Call, i: nat, bit: Flags)
    ensures Given(before + [c], i, bit) <==> Given(before, i, bit) || (c.Arg? && c.n == i && HasFlag(c.flags, bit))
    ensures GivenToRet(before + [c], bit) <==> if c.Ret? then HasFlag(c.flags, bit) else GivenToRet(before, bit)
  {
    hide HasFlag;
    var all := before + [c];
    assert all[|before|] == c && forall j :: 0 <= j < |before| ==> all[j] == before[j];
    if j :| 0 <= j < |before| && before[j].Arg? && before[j].n == i && HasFlag(before[j].flags, bit) {
      assert all[j].Arg? && all[j].n == i && HasFlag(all[j].flags, bit);
    }
  }

  /** An argument ends up with a flag exactly if some call gave it. */
  lemma {:induction false} FlagGiven(calls: seq<Call>, i: nat, bit: Flags)
    ensures Has(ArgFlags(calls, i), bit) <==> Given(calls, i, bit)
    ensures Has(RetFlags(calls), bit) <==> GivenToRet(calls, bit)
    decreases |calls|
  {
    hide Has, Given, GivenToRet, ArgFlags, RetFlags, MergeFlags, HasFlag;
    if calls == [] {
      NothingGiven(i, bit);
    } else {
      var before, c := calls[..|calls| - 1], calls[|calls| - 1];
      assert calls == before + [c];
      FlagGiven(before, i, bit);
      GivenNext(before, c, i, bit);
      FlagsNext(before, c, i);
      MergeGives(c.flags, bit);
      OrBit(ArgFlags(before, i), MergeFlags(c.flags), bit);
    }
  }

  lemma NothingGiven(i: nat, bit: Flags)
    ensures !Given([], i, bit) && !GivenToRet([], bit)
    ensures !Has(ArgFlags([], i), bit) && !Has(RetFlags([]), bit)
  {
    OrBit(0, 0, bit);
  }

  /** `kAllowSharedBit` is for array buffers and typed arrays, `kEnforceRangeBit` and `kClampBit` are for
      integers, and `kIsRestrictedBit` is for floating-point numbers. A sequence has no element type,
      and the elements of a typed array are numbers, booleans or unknown. */
  ghost predicate Rules(t: TypeBuilder, shared: bool, ranged: bool, clamped: bool, restricted: bool) {
    && (shared ==> t.sequenceType == IsArrayBuffer || t.sequenceType == IsTypedArray)
    && (ranged || clamped ==> t.kind in {Uint8, Int32, Uint32, Int64, Uint64})
    && (restricted ==> t.kind == Float32 || t.kind == Float64)
    && (t.sequenceType == IsSequence ==> t.kind == Void)
    && (t.sequenceType == IsTypedArray ==>
          t.kind !in {Pointer, V8Value, SeqOneByteString, ApiObject, Any, CallbackOptions})
  }

  lemma RulesAllow(t: TypeBuilder, flags: Flags)
    ensures Allowed(TypeInfo(t.kind, t.sequenceType, flags)) <==>
            Rules(t, Has(flags, 1), Has(flags, 2), Has(flags, 4), Has(flags, 8))
  {
    Kinds(t.kind);
  }

  lemma Kinds(k: Type)
    ensures k !in {Pointer, V8Value, SeqOneByteString, ApiObject, Any, CallbackOptions} <==>
            IsIntegral(k) || IsFloatingPoint(k) || k in {Bool, Void}
    ensures k !in {Uint8, Int64, Uint64, V8Value, SeqOneByteString, ApiObject, CallbackOptions} <==>
            ReturnTypeAllowed(k)
  {
    match k
    case Void => case Bool => case Uint8 => case Int32 => case Uint32 => case Int64 => case Uint64 =>
    case Float32 => case Float64 => case Pointer => case V8Value => case SeqOneByteString =>
    case ApiObject => case Any => case CallbackOptions =>
  }

  /** With the flags written as the bits of `CTypeInfo::Flags`, from `kAllowSharedBit` to `kIsRestrictedBit`. */
  ghost predicate ArgumentRules(b: Builder, calls: seq<Call>, i: nat)
    requires i < |b.args|
  {
    Rules(b.args[i], Given(calls, i, 1), Given(calls, i, 2), Given(calls, i, 4), Given(calls, i, 8))
  }

  /** A chain of calls compiles exactly if there is a receiver, the return type is supported, and every
      flag was given only where its rule allows it. */
  lemma CompilesExactly(b: Builder, calls: seq<Call>)
    requires Fresh(b)
    ensures Built(b, calls).Some? <==>
              && |b.args| >= 1
              && b.ret.kind !in {Uint8, Int64, Uint64, V8Value, SeqOneByteString, ApiObject, CallbackOptions}
              && Rules(b.ret, GivenToRet(calls, 1), GivenToRet(calls, 2), GivenToRet(calls, 4), GivenToRet(calls, 8))
              && forall i: nat :: i < |b.args| ==> ArgumentRules(b, calls, i)
  {
    hide Built, Allowed, Rules, Given, GivenToRet, ArgFlags, RetFlags;
    BuilderExactly(b, calls);
    Kinds(b.ret.kind);
    RetRules(b, calls);
    forall i: nat | i < |b.args| ensures Allowed(ArgResult(b, calls, i)) <==> ArgumentRules(b, calls, i) {
      ArgRules(b, calls, i);
    }
  }

  lemma ArgRules(b: Builder, calls: seq<Call>, i: nat)
    requires i < |b.args|
    ensures Allowed(ArgResult(b, calls, i)) <==> ArgumentRules(b, calls, i)
  {
    hide Allowed, Rules, Given, GivenToRet, ArgFlags, RetFlags;
    RulesAllow(b.args[i], ArgFlags(calls, i));
    FlagGiven(calls, i, 1);
    FlagGiven(calls, i, 2);
    FlagGiven(calls, i, 4);
    FlagGiven(calls, i, 8);
  }

  lemma RetRules(b: Builder, calls: seq<Call>)
    ensures Allowed(RetResult(b, calls)) <==>
            Rules(b.ret, GivenToRet(calls, 1), GivenToRet(calls, 2), GivenToRet(calls, 4), GivenToRet(calls, 8))
  {
    hide Allowed, Rules, Given, GivenToRet, ArgFlags, RetFlags;
    RulesAllow(b.ret, RetFlags(calls));
    FlagGiven(calls, 0, 1);
    FlagGiven(calls, 0, 2);
    FlagGiven(calls, 0, 4);
    FlagGiven(calls, 0, 8);
  }

  /** So for instance: a range may only be enforced on an integer, whatever else is called. */
  lemma RangeOnlyForIntegers(b: Builder, calls: seq<Call>, i: nat)
    requires Fresh(b) && i < |b.args| && Given(calls, i, ENFORCE_RANGE)
    requires b.args[i].kind !in {Uint8, Int32, Uint32, Int64, Uint64}
    ensures Built(b, calls).None?
  {
    hide Built, Given, GivenToRet;
    CompilesExactly(b, calls);
    assert !ArgumentRules(b, calls, i);
  }

  // ------------------------------------------------- order and repetition

  lemma {:induction false} ArgFlagsAbsorb(calls: seq<Call>, c: Call)
    requires c.Arg? && c in calls
    ensures ArgFlags(calls, c.n) | MergeFlags(c.flags) == ArgFlags(calls, c.n)
    decreases |calls|
  {
    hide MergeFlags;
    var before, last := calls[..|calls| - 1], calls[|calls| - 1];
    assert calls == before + [last];
    var f, g := ArgFlags(before, c.n), if last.Arg? && last.n == c.n then MergeFlags(last.flags) else 0;
    if last != c {
      ArgFlagsAbsorb(before, c);
    }
    Absorption(f, g, MergeFlags(c.flags));
  }

  lemma Absorption(f: Flags, g: Flags, m: Flags)
    ensures f | m == f || g == m ==> (f | g) | m == f | g
  {
  }

  lemma {:induction false} ArgFlagsLeast(calls: seq<Call>, i: nat, m: Flags)
    requires forall c :: c in calls && c.Arg? && c.n == i ==> m | MergeFlags(c.flags) == m
    ensures m | ArgFlags(calls, i) == m
    decreases |calls|
  {
    hide MergeFlags;
    if calls == [] {
      OrLaws(m, 0, 0);
    } else {
      var before, last := calls[..|calls| - 1], calls[|calls| - 1];
      ArgFlagsLeast(before, i, m);
      OrLaws(m, 0, 0);
      OrLaws(m, ArgFlags(before, i), if last.Arg? && last.n == i then MergeFlags(last.flags) else 0);
    }
  }

  lemma Subsumed(calls: seq<Call>, calls': seq<Call>, i: nat)
    requires forall fs :: Arg(i, fs) in calls ==> Arg(i, fs) in calls'
    ensures ArgFlags(calls', i) | ArgFlags(calls, i) == ArgFlags(calls', i)
  {
    hide MergeFlags, ArgFlags;
    var g := ArgFlags(calls', i);
    forall c | c in calls && c.Arg? && c.n == i ensures g | MergeFlags(c.flags) == g {
      assert c == Arg(i, c.flags);
      ArgFlagsAbsorb(calls', c);
    }
    ArgFlagsLeast(calls, i, g);
  }

  /** The order and the repetition of calls do not matter to an argument, nor do calls for
      other arguments: only which calls there are for it. */
  lemma OrderAndRepetitionIrrelevant(calls: seq<Call>, calls': seq<Call>, i: nat)
    requires forall fs :: Arg(i, fs) in calls <==> Arg(i, fs) in calls'
    ensures ArgFlags(calls, i) == ArgFlags(calls', i)
  {
    hide ArgFlags;
    Subsumed(calls, calls', i);
    Subsumed(calls', calls, i);
    OrLaws(ArgFlags(calls, i), ArgFlags(calls', i), 0);
  }

  // ------------------------------------------------- options arguments

  predicate IsOptions(f: FunctionInfo, i: nat) {
    i < |f.args| && f.args[i].kind == CallbackOptions
  }

  ghost function NonOptions(args: seq<TypeInfo>): nat {
    if args == [] then 0
    else NonOptions(args[..|args| - 1]) + if args[|args| - 1].kind == CallbackOptions then 0 else 1
  }

  lemma {:induction false} AllCounted(args: seq<TypeInfo>)
    ensures NonOptions(args) <= |args|
    ensures NonOptions(args) == |args| <==> forall i: nat :: i < |args| ==> args[i].kind != CallbackOptions
    decreases |args|
  {
    if args != [] {
      AllCounted(args[..|args| - 1]);
    }
  }

  /** `ArgumentCount` is the number of arguments that are not options, and leaves out every options
      argument, exactly if none comes before the last argument. */
  lemma OptionsExcludedExactly(f: FunctionInfo)
    ensures f.ArgumentCount() == NonOptions(f.args) <==>
            (forall i: nat :: i + 1 < |f.args| ==> !IsOptions(f, i))
    ensures (forall i: nat :: i < f.ArgumentCount() ==> !IsOptions(f, i)) <==>
            (forall i: nat :: i + 1 < |f.args| ==> !IsOptions(f, i))
  {
    if f.args != [] {
      var before := f.args[..|f.args| - 1];
      AllCounted(before);
      forall i: nat | i + 1 < |f.args| ensures IsOptions(f, i) <==> before[i].kind == CallbackOptions {
      }
      forall i: nat | i < |before| ensures before[i].kind == CallbackOptions <==> IsOptions(f, i) {
      }
    }
  }

  /** A signature with two options arguments builds, and the first of them is counted. */
  lemma TwoOptionsBuild()
    ensures var plain := (kind: Type) => TypeBuilder(kind, Scalar, []);
            var b := Builder(plain(Void), [plain(V8Value), plain(CallbackOptions), plain(CallbackOptions)]);
            && Built(b, []).Some?
            && Built(b, []).value.ArgumentCount() == 2 && IsOptions(Built(b, []).value, 1)
  {
    var plain := (kind: Type) => TypeBuilder(kind, Scalar, []);
    var b := Builder(plain(Void), [plain(V8Value), plain(CallbackOptions), plain(CallbackOptions)]);
    assert Fresh(b);
    NoFlagsAllowed(b);
    BuilderExactly(b, []);
  }

  lemma NoFlagsAllowed(b: Builder)
    requires b.ret == TypeBuilder(b.ret.kind, Scalar, [])
    requires forall i :: 0 <= i < |b.args| ==> b.args[i].sequenceType == Scalar
    ensures Allowed(RetResult(b, [])) && AllAllowed(b, [])
  {
  }
}
