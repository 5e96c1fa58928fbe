/** Type tags of the external pointer table: a pointer is ORed with the tag of its type when it
    is stored and ANDed with the inverse of the expected tag when it is loaded. */
module PointerTags {
  // ------------------------------------------------- the principle, at any width

  /** A word of any width, lowest bit first. */
  type Bits = seq<bool>

  function Ones(s: Bits): nat {
    if s == [] then 0 else (if s[0] then 1 else 0) + Ones(s[1..])
  }

  /** `a & ~b`. */
  function AndNot(a: Bits, b: Bits): (r: Bits)
    requires |a| == |b|
    ensures |r| == |a|
  {
    seq(|a|, i requires 0 <= i < |a| => a[i] && !b[i])
  }

  /** If no bit of `a` is left, `b` has all ones of `a`; it has no more of them only if it is `a`. */
  lemma {:induction false} NothingRemains(a: Bits, b: Bits)
    requires |a| == |b| && true !in AndNot(a, b)
    ensures Ones(a) <= Ones(b) && (Ones(a) == Ones(b) ==> a == b)
    decreases |a|
  {
    if a != [] {
      assert !AndNot(a, b)[0];
      forall i | 0 <= i < |a| - 1 ensures !AndNot(a[1..], b[1..])[i] {
        assert !AndNot(a, b)[i + 1];
      }
      NothingRemains(a[1..], b[1..]);
      assert a == [a[0]] + a[1..] && b == [b[0]] + b[1..];
    }
  }

  /** Different patterns of equal weight, and a heavier pattern, leave a bit in `a & ~b`. */
  lemma ABitRemains(a: Bits, b: Bits)
    requires |a| == |b| && a != b && Ones(a) >= Ones(b)
    ensures true in AndNot(a, b)
  {
    if true !in AndNot(a, b) {
      NothingRemains(a, b);
    }
  }

  // ------------------------------------------------- the tags

  const MARK_BIT: bv64 := 0x4000_0000_0000_0000
  const TAG_MASK: bv64 := 0x40ff_0000_0000_0000
  const TAG_COUNT: nat := 70

  /** `kAllExternalPointerTypeTags`. */
  function TypeTag(i: nat): bv8
    requires i < TAG_COUNT
  {
    match i
    case 0 => 0x0f case 1 => 0x17 case 2 => 0x1b case 3 => 0x1d case 4 => 0x1e
    case 5 => 0x27 case 6 => 0x2b case 7 => 0x2d case 8 => 0x2e case 9 => 0x33
    case 10 => 0x35 case 11 => 0x36 case 12 => 0x39 case 13 => 0x3a case 14 => 0x3c
    case 15 => 0x47 case 16 => 0x4b case 17 => 0x4d case 18 => 0x4e case 19 => 0x53
    case 20 => 0x55 case 21 => 0x56 case 22 => 0x59 case 23 => 0x5a case 24 => 0x5c
    case 25 => 0x63 case 26 => 0x65 case 27 => 0x66 case 28 => 0x69 case 29 => 0x6a
    case 30 => 0x6c case 31 => 0x71 case 32 => 0x72 case 33 => 0x74 case 34 => 0x78
    case 35 => 0x87 case 36 => 0x8b case 37 => 0x8d case 38 => 0x8e case 39 => 0x93
    case 40 => 0x95 case 41 => 0x96 case 42 => 0x99 case 43 => 0x9a case 44 => 0x9c
    case 45 => 0xa3 case 46 => 0xa5 case 47 => 0xa6 case 48 => 0xa9 case 49 => 0xaa
    case 50 => 0xac case 51 => 0xb1 case 52 => 0xb2 case 53 => 0xb4 case 54 => 0xb8
    case 55 => 0xc3 case 56 => 0xc5 case 57 => 0xc6 case 58 => 0xc9 case 59 => 0xca
    case 60 => 0xcc case 61 => 0xd1 case 62 => 0xd2 case 63 => 0xd4 case 64 => 0xd8
    case 65 => 0xe1 case 66 => 0xe2 case 67 => 0xe4 case 68 => 0xe8
    case _ => 0xf0
  }

  function MakeTag(hasMarkBit: bool, typeTag: bv8): bv64 {
    ((typeTag as bv64) << 48) | if hasMarkBit then MARK_BIT else 0
  }

  function Tag(i: nat): bv64
    requires i < TAG_COUNT
  {
    MakeTag(true, TypeTag(i))
  }

  const ANY_TAG: bv64 := MakeTag(true, 0xff)
  const FREE_ENTRY_TAG: bv64 := MakeTag(false, 0xff)
  const EVACUATION_ENTRY_TAG: bv64 := MakeTag(true, 0xe7)

  predicate IsSharedExternalPointerType(tag: bv64) {
    Tag(0) <= tag <= Tag(2)
  }

  // ------------------------------------------------- table entries

  /** What an entry of either table can be. Sweeping clears the mark bit of a live entry. */
  datatype Entry =
    | Null
    | Regular(pointer: bv64, typeIndex: nat, marked: bool)
    | FreeEntry(next: bv32)
    | Evacuation(location: bv64, marked: bool)

  predicate Storable(p: bv64) {
    p & TAG_MASK == 0
  }

  /** A stored pointer has no tag bits, as the table checks. */
  predicate ValidEntry(e: Entry) {
    match e
    case Regular(p, i, _) => Storable(p) && i < TAG_COUNT
    case Evacuation(l, _) => Storable(l)
    case _ => true
  }

  function RegularWord(p: bv64, t: bv8, marked: bool): bv64 {
    p | MakeTag(marked, t)
  }

  function FreeWord(next: bv32): bv64 {
    (next as bv64) | FREE_ENTRY_TAG
  }

  function EvacuationWord(l: bv64, marked: bool): bv64 {
    if marked then l | EVACUATION_ENTRY_TAG else (l | EVACUATION_ENTRY_TAG) & !MARK_BIT
  }

  function Encode(e: Entry): bv64
    requires ValidEntry(e)
  {
    match e
    case Null => 0
    case Regular(p, i, marked) => RegularWord(p, TypeTag(i), marked)
    case FreeEntry(next) => FreeWord(next)
    case Evacuation(l, marked) => EvacuationWord(l, marked)
  }

  function Untag(word: bv64, tag: bv64): bv64 {
    word & !tag
  }

  /** The two tables, by index. */
  type Table = bv32 -> bv64

  /** `ReadExternalPointerField`; the index shift depends on the platform. */
  function ReadField(shared: Table, perIsolate: Table, handle: bv32, shift: nat, tag: bv64): bv64
    requires shift <= 32
  {
    var index := handle >> shift;
    Untag(if IsSharedExternalPointerType(tag) then shared(index) else perIsolate(index), tag)
  }

  /** No one can use the result as a pointer: a type bit is left in it. */
  predicate Inaccessible(word: bv64) {
    word & 0x00ff_0000_0000_0000 != 0
  }

  // ------------------------------------------------- properties

  function ByteBits(b: bv8): (r: Bits)
    ensures |r| == 8
  {
    [BitAt(b, 0x01), BitAt(b, 0x02), BitAt(b, 0x04), BitAt(b, 0x08),
     BitAt(b, 0x10), BitAt(b, 0x20), BitAt(b, 0x40), BitAt(b, 0x80)]
  }

  predicate BitAt(b: bv8, mask: bv8) {
    b & mask != 0
  }

  function Weight(b: bv8): nat {
    Ones(ByteBits(b))
  }

  lemma AndNotEach(a: Bits, b: Bits, r: Bits)
    requires |a| == |b| == |r| == 8
    requires (r[0] <==> a[0] && !b[0]) && (r[1] <==> a[1] && !b[1]) && (r[2] <==> a[2] && !b[2])
    requires (r[3] <==> a[3] && !b[3]) && (r[4] <==> a[4] && !b[4]) && (r[5] <==> a[5] && !b[5])
    requires (r[6] <==> a[6] && !b[6]) && (r[7] <==> a[7] && !b[7])
    ensures r == AndNot(a, b)
  {
    forall i | 0 <= i < 8 ensures r[i] == AndNot(a, b)[i] {
      assert i == 0 || i == 1 || i == 2 || i == 3 || i == 4 || i == 5 || i == 6 || i == 7;
    }
  }

  ghost predicate Each(a: bv8, b: bv8, r: bv8, mask: bv8) {
    BitAt(r, mask) <==> BitAt(a, mask) && !BitAt(b, mask)
  }

  lemma EachBit(a: bv8, b: bv8, r: bv8)
    requires Each(a, b, r, 0x01) && Each(a, b, r, 0x02) && Each(a, b, r, 0x04) && Each(a, b, r, 0x08)
    requires Each(a, b, r, 0x10) && Each(a, b, r, 0x20) && Each(a, b, r, 0x40) && Each(a, b, r, 0x80)
    ensures ByteBits(r) == AndNot(ByteBits(a), ByteBits(b))
  {
    hide BitAt, AndNot;
    AndNotEach(ByteBits(a), ByteBits(b), ByteBits(r));
  }

  lemma AndNotBits(a: bv8, b: bv8)
    ensures ByteBits(a & !b) == AndNot(ByteBits(a), ByteBits(b))
  {
    hide ByteBits, AndNot;
    EachBit(a, b, a & !b);
  }

  lemma BitsDiffer(a: bv8, b: bv8)
    ensures ByteBits(a) == ByteBits(b) ==> a == b
  {
    var s, t := ByteBits(a), ByteBits(b);
    assert s == t ==> s[0] == t[0] && s[1] == t[1] && s[2] == t[2] && s[3] == t[3];
    assert s == t ==> s[4] == t[4] && s[5] == t[5] && s[6] == t[6] && s[7] == t[7];
  }

  lemma SomeBit(a: bv8)
    ensures true in ByteBits(a) ==> a != 0
  {
    assert a == 0 ==> ByteBits(a) == [false, false, false, false, false, false, false, false];
  }

  /** The principle for bytes. */
  lemma ATypeBitRemains(t: bv8, u: bv8)
    requires t != u && Weight(t) >= Weight(u)
    ensures t & !u != 0
  {
    hide ByteBits, Ones, AndNot;
    BitsDiffer(t, u);
    ABitRemains(ByteBits(t), ByteBits(u));
    AndNotBits(t, u);
    SomeBit(t & !u);
  }

  lemma WeightIs(b: bv8)
    ensures Weight(b) == One(BitAt(b, 0x01)) + One(BitAt(b, 0x02)) + One(BitAt(b, 0x04)) + One(BitAt(b, 0x08))
                         + One(BitAt(b, 0x10)) + One(BitAt(b, 0x20)) + One(BitAt(b, 0x40)) + One(BitAt(b, 0x80))
  {
    hide BitAt, Ones;
    Ones8(BitAt(b, 0x01), BitAt(b, 0x02), BitAt(b, 0x04), BitAt(b, 0x08),
          BitAt(b, 0x10), BitAt(b, 0x20), BitAt(b, 0x40), BitAt(b, 0x80));
  }

  function One(b: bool): nat {
    if b then 1 else 0
  }

  lemma OnesStep(a: bool, rest: Bits)
    ensures Ones([a] + rest) == One(a) + Ones(rest)
  {
    assert ([a] + rest)[1..] == rest;
  }

  lemma Ones4(a: bool, b: bool, c: bool, d: bool, rest: Bits)
    ensures Ones([a, b, c, d] + rest) ==
            One(a) + One(b) + One(c) + One(d) + Ones(rest)
  {
    hide Ones;
    OnesStep(d, rest);
    OnesStep(c, [d] + rest);
    OnesStep(b, [c] + ([d] + rest));
    OnesStep(a, [b] + ([c] + ([d] + rest)));
    assert [a, b, c, d] + rest == [a] + ([b] + ([c] + ([d] + rest)));
  }

  lemma Ones8(a: bool, b: bool, c: bool, d: bool, e: bool, f: bool, g: bool, h: bool)
    ensures Ones([a, b, c, d, e, f, g, h]) ==
            One(a) + One(b) + One(c) + One(d) + One(e) + One(f) + One(g) + One(h)
  {
    Ones4(a, b, c, d, [e, f, g, h]);
    Ones4(e, f, g, h, []);
    assert [a, b, c, d] + [e, f, g, h] == [a, b, c, d, e, f, g, h];
    assert [e, f, g, h] + [] == [e, f, g, h];
  }

  /** The same count inside a byte. */
  function Count(b: bv8): bv8 {
    (b & 1) + ((b >> 1) & 1) + ((b >> 2) & 1) + ((b >> 3) & 1)
    + ((b >> 4) & 1) + ((b >> 5) & 1) + ((b >> 6) & 1) + (b >> 7)
  }

  lemma CountFour(b: bv8)
    requires Count(b) == 4
    ensures Weight(b) == 4
  {
    hide Weight;
    WeightIs(b);
  }

  lemma TableCount(i: nat)
    requires i < TAG_COUNT
    ensures Count(TypeTag(i)) == 4
  {
  }

  /** All entries of the table have weight four. */
  lemma TableWeights(i: nat)
    requires i < TAG_COUNT
    ensures Weight(TypeTag(i)) == 4
  {
    hide TypeTag, Weight;
    TableCount(i);
    CountFour(TypeTag(i));
  }

  lemma TableStep(i: nat)
    requires i + 1 < TAG_COUNT
    ensures TypeTag(i) < TypeTag(i + 1)
  {
    match i  // one literal pair per case
    case 0 => case 1 => case 2 => case 3 => case 4 => case 5 => case 6 => case 7 => case 8 => case 9 =>
    case 10 => case 11 => case 12 => case 13 => case 14 => case 15 => case 16 => case 17 => case 18 => case 19 =>
    case 20 => case 21 => case 22 => case 23 => case 24 => case 25 => case 26 => case 27 => case 28 => case 29 =>
    case 30 => case 31 => case 32 => case 33 => case 34 => case 35 => case 36 => case 37 => case 38 => case 39 =>
    case 40 => case 41 => case 42 => case 43 => case 44 => case 45 => case 46 => case 47 => case 48 => case 49 =>
    case 50 => case 51 => case 52 => case 53 => case 54 => case 55 => case 56 => case 57 => case 58 => case 59 =>
    case 60 => case 61 => case 62 => case 63 => case 64 => case 65 => case 66 => case 67 => case 68 =>
  }

  /** The table is strictly increasing, so no entry occurs twice. */
  lemma {:induction false} TableSorted(i: nat, j: nat)
    requires i < j < TAG_COUNT
    ensures TypeTag(i) < TypeTag(j)
  {
    hide TypeTag;
    TableStep(j - 1);
    if i < j - 1 {
      TableSorted(i, j - 1);
    }
  }

  lemma OwnTag(p: bv64, t: bv8, marked: bool)
    requires Storable(p)
    ensures Untag(RegularWord(p, t, marked), MakeTag(true, t)) == p && !Inaccessible(p)
  {
  }

  /** A type bit that the expected tag lacks stays in the word that is read. */
  lemma LeftIn(p: bv64, t: bv8, u: bv8, marked: bool)
    requires t & !u != 0
    ensures Inaccessible(Untag(RegularWord(p, t, marked), MakeTag(true, u)))
  {
  }

  lemma EvacuationLeftIn(l: bv64, u: bv8, marked: bool)
    requires 0xe7 & !u != 0
    ensures Inaccessible(Untag(EvacuationWord(l, marked), MakeTag(true, u)))
  {
  }

  lemma OtherTag(p: bv64, t: bv8, u: bv8, marked: bool)
    requires Weight(t) == 4 == Weight(u) && t != u
    ensures Inaccessible(Untag(RegularWord(p, t, marked), MakeTag(true, u)))
  {
    hide Weight, Untag, RegularWord, MakeTag, Inaccessible;
    ATypeBitRemains(t, u);
    LeftIn(p, t, u, marked);
  }

  lemma SpecialWeights()
    ensures Weight(0xff) == 8 && Weight(0xe7) == 6
  {
    hide Weight;
    WeightIs(0xff);
    WeightIs(0xe7);
  }

  lemma FreeEntryTag(next: bv32, u: bv8)
    requires Weight(u) == 4
    ensures Inaccessible(Untag(FreeWord(next), MakeTag(true, u)))
  {
    hide Weight, Untag, MakeTag, Inaccessible;
    SpecialWeights();
    ATypeBitRemains(0xff, u);
    LeftIn(next as bv64, 0xff, u, false);
  }

  lemma EvacuationTag(l: bv64, marked: bool, u: bv8)
    requires Weight(u) == 4
    ensures Inaccessible(Untag(EvacuationWord(l, marked), MakeTag(true, u)))
  {
    hide Weight, Untag, MakeTag, EvacuationWord, Inaccessible;
    SpecialWeights();
    ATypeBitRemains(0xe7, u);
    EvacuationLeftIn(l, u, marked);
  }

  lemma NullEntry(tag: bv64)
    ensures Untag(0, tag) == 0 && !Inaccessible(0)
  {
  }

  /** Reading an entry with a regular tag gives the stored pointer exactly if that is the type of
      the entry. Apart from the null entry, every other read is inaccessible: another type, a
      free entry, an evacuation entry. */
  lemma ReadExactly(e: Entry, j: nat)
    requires ValidEntry(e) && j < TAG_COUNT
    ensures e.Regular? && e.typeIndex == j ==> Untag(Encode(e), Tag(j)) == e.pointer
    ensures e.Null? ==> Untag(Encode(e), Tag(j)) == 0
    ensures !Inaccessible(Untag(Encode(e), Tag(j))) <==> e.Null? || (e.Regular? && e.typeIndex == j)
  {
    hide TypeTag, MakeTag, Weight, Untag, Inaccessible, Storable, RegularWord, FreeWord, EvacuationWord;
    TableWeights(j);
    match e
    case Null => NullEntry(Tag(j));
    case Regular(p, i, marked) =>
      if i == j {
        OwnTag(p, TypeTag(i), marked);
      } else {
        TableWeights(i);
        TableDistinct(i, j);
        OtherTag(p, TypeTag(i), TypeTag(j), marked);
      }
    case FreeEntry(next) => FreeEntryTag(next, TypeTag(j));
    case Evacuation(l, marked) => EvacuationTag(l, marked, TypeTag(j));
  }

  lemma TableDistinct(i: nat, j: nat)
    requires i < TAG_COUNT && j < TAG_COUNT && i != j
    ensures TypeTag(i) != TypeTag(j)
  {
    hide TypeTag;
    if i < j {
      TableSorted(i, j);
    } else {
      TableSorted(j, i);
    }
  }

  lemma TagOrder(t: bv8, u: bv8)
    ensures MakeTag(true, t) <= MakeTag(true, u) <==> t <= u
  {
  }

  /** The range check picks out exactly the first three types, and none of the special tags. */
  lemma SharedExactly(i: nat)
    requires i < TAG_COUNT
    ensures IsSharedExternalPointerType(Tag(i)) <==> i <= 2
    ensures !IsSharedExternalPointerType(ANY_TAG) && !IsSharedExternalPointerType(FREE_ENTRY_TAG)
    ensures !IsSharedExternalPointerType(EVACUATION_ENTRY_TAG) && !IsSharedExternalPointerType(0)
  {
    TagOrder(TypeTag(0), TypeTag(i));
    TagOrder(TypeTag(i), TypeTag(2));
    if i > 2 {
      TableSorted(2, i);
    }
    if i < 2 {
      TableSorted(i, 2);
    }
    if i > 0 {
      TableSorted(0, i);
    }
  }

  /** The field read, on the table that the type of the expected pointer belongs to. */
  lemma ReadFieldExactly(shared: Table, perIsolate: Table, handle: bv32, shift: nat, e: Entry, j: nat)
    requires shift <= 32 && ValidEntry(e) && j < TAG_COUNT
    requires Encode(e) == if j <= 2 then shared(handle >> shift) else perIsolate(handle >> shift)
    ensures var r := ReadField(shared, perIsolate, handle, shift, Tag(j));
            && (e.Regular? && e.typeIndex == j ==> r == e.pointer)
            && (!Inaccessible(r) <==> e.Null? || (e.Regular? && e.typeIndex == j))
  {
    hide Encode, Untag, Tag, Inaccessible, IsSharedExternalPointerType;
    SharedExactly(j);
    ReadExactly(e, j);
  }

  // ------------------------------------------------- recognising entries

  predicate HasTag(word: bv64, tag: bv64) {
    word & TAG_MASK == tag
  }

  predicate IsFreelistEntry(word: bv64) {
    HasTag(word, FREE_ENTRY_TAG)
  }

  predicate IsEvacuationEntry(word: bv64) {
    HasTag(word, EVACUATION_ENTRY_TAG)
  }

  predicate IsMarked(word: bv64) {
    word & MARK_BIT != 0
  }

  /** The low half of the word. */
  function ExtractNextFreelistEntry(word: bv64): bv32 {
    (word & 0xffff_ffff) as bv32
  }

  function ExtractHandleLocation(word: bv64): bv64 {
    Untag(word, EVACUATION_ENTRY_TAG)
  }

  lemma RegularTag(p: bv64, t: bv8, marked: bool)
    requires Storable(p) && t != 0xff && t != 0xe7
    ensures !IsFreelistEntry(RegularWord(p, t, marked)) && !IsEvacuationEntry(RegularWord(p, t, marked))
  {
  }

  lemma FreeRecovered(next: bv32)
    ensures IsFreelistEntry(FreeWord(next)) && !IsEvacuationEntry(FreeWord(next))
    ensures ExtractNextFreelistEntry(FreeWord(next)) == next && !IsMarked(FreeWord(next))
  {
  }

  lemma EvacuationRecovered(l: bv64, marked: bool)
    requires Storable(l)
    ensures !IsFreelistEntry(EvacuationWord(l, marked)) && (IsEvacuationEntry(EvacuationWord(l, marked)) <==> marked)
    ensures ExtractHandleLocation(EvacuationWord(l, marked)) == l && (IsMarked(EvacuationWord(l, marked)) <==> marked)
  {
  }

  lemma RegularMark(p: bv64, t: bv8, marked: bool)
    requires Storable(p)
    ensures IsMarked(RegularWord(p, t, marked)) <==> marked
  {
  }

  lemma NullIsRegular()
    ensures !IsFreelistEntry(0) && !IsEvacuationEntry(0) && !IsMarked(0)
  {
  }

  lemma NotSpecial(i: nat)
    requires i < TAG_COUNT
    ensures TypeTag(i) != 0xff && TypeTag(i) != 0xe7
  {
    hide TypeTag, Weight;
    TableWeights(i);
    SpecialWeights();
  }

  /** Free entries are recognised and give their successor; evacuation entries are recognised as long
      as they are marked, and give their location; the mark is kept apart from all of that. */
  lemma RecognisedExactly(e: Entry)
    requires ValidEntry(e)
    ensures IsFreelistEntry(Encode(e)) <==> e.FreeEntry?
    ensures IsEvacuationEntry(Encode(e)) <==> e.Evacuation? && e.marked
    ensures e.FreeEntry? ==> ExtractNextFreelistEntry(Encode(e)) == e.next
    ensures e.Evacuation? ==> ExtractHandleLocation(Encode(e)) == e.location
    ensures IsMarked(Encode(e)) <==> (e.Regular? || e.Evacuation?) && e.marked
  {
    hide TypeTag, RegularWord, FreeWord, EvacuationWord, Storable, IsFreelistEntry, IsEvacuationEntry, IsMarked,
         ExtractNextFreelistEntry, ExtractHandleLocation;
    match e
    case Null => NullIsRegular();
    case Regular(p, i, marked) =>
      NotSpecial(i);
      RegularTag(p, TypeTag(i), marked);
      RegularMark(p, TypeTag(i), marked);
    case FreeEntry(next) => FreeRecovered(next);
    case Evacuation(l, marked) => EvacuationRecovered(l, marked);
  }
}
