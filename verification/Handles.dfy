/** `PersistentBase`, `Persistent` and `Global`: handle objects that own storage cells. */
module Handles {
  import opened Cells

  /** `PersistentBase::Reset()`. */
  function Reset(w: World, l: Location): Outcome<World> {
    if l !in w.vals then Fault
    else if w.vals[l] == NULL then Done(w)
    else
      var w1 :- Destroy(w, w.vals[l]);
      Done(w1.(vals := w1.vals[l := NULL]))
  }

  /** `val_ = PersistentBase::New(isolate, slot)` where the slot holds `c`. */
  function Fill(w: World, l: Location, c: Contents): Outcome<World> {
    var (w1, a) :- Create(w, c);
    Done(w1.(vals := w1.vals[l := a]))
  }

  /** `Global()`: an object with no storage cell comes to life at an unused location. */
  function NewHandle(w: World, l: Location): Outcome<World> {
    if l in w.vals then Fault else Done(w.(vals := w.vals[l := NULL]))
  }

  /** `Global(isolate, Local)`. */
  function NewFromLocal(w: World, l: Location, local: Option<Object>): Outcome<World> {
    var w1 :- NewHandle(w, l);
    if local.None? then Done(w1) else Fill(w1, l, Holds(local.value))
  }

  /** `Reset(isolate, Local)`. */
  function ResetToLocal(w: World, l: Location, local: Option<Object>): Outcome<World> {
    var w1 :- Reset(w, l);
    if local.None? then Done(w1) else Fill(w1, l, Holds(local.value))
  }

  /** The tail of `Persistent::Copy` and `Reset(isolate, PersistentBase)`: `that` is read
      only now, after the target has been reset. */
  function FillFrom(w: World, l: Location, that: Location): Outcome<World> {
    if that !in w.vals then Fault
    else if w.vals[that] == NULL then Done(w)
    else if w.vals[that] !in w.nodes then Fault
    else Fill(w, l, w.nodes[w.vals[that]].contents)
  }

  /** `Global(isolate, PersistentBase)` and the copy constructors of `Persistent`. */
  function NewFromHandle(w: World, l: Location, that: Location): Outcome<World> {
    if l == that then Fault
    else
      var w1 :- NewHandle(w, l);
      FillFrom(w1, l, that)
  }

  /** `Persistent::Copy` and `PersistentBase::Reset(isolate, other)`. */
  function Copy(w: World, l: Location, that: Location): Outcome<World> {
    var w1 :- Reset(w, l);
    FillFrom(w1, l, that)
  }

  /** Both `Global` moves end like this: the cell changes hands and `rhs` is left empty. */
  function MoveInto(w: World, l: Location, rhs: Location): Outcome<World> {
    if rhs !in w.vals then Fault
    else if w.vals[rhs] == NULL then Done(w)
    else
      var w1 :- MoveGlobal(w.(vals := w.vals[l := w.vals[rhs]]), w.vals[rhs], l);
      Done(w1.(vals := w1.vals[rhs := NULL]))
  }

  /** `Global::operator=(Global&&)`. */
  function MoveAssign(w: World, l: Location, rhs: Location): Outcome<World> {
    if l == rhs then (if l in w.vals then Done(w) else Fault)
    else
      var w1 :- Reset(w, l);
      MoveInto(w1, l, rhs)
  }

  /** `Global(Global&&)`. */
  function MoveConstruct(w: World, l: Location, other: Location): Outcome<World> {
    var w1 :- NewHandle(w, l);
    if l == other then Fault else MoveInto(w1, l, other)
  }

  /** `~Global()`. */
  function DestroyHandle(w: World, l: Location): Outcome<World> {
    var w1 :- Reset(w, l);
    Done(w1.(vals := w1.vals - {l}))
  }

  /** `SetWeak()` without a callback. */
  function SetWeak(w: World, l: Location): Outcome<World> {
    if l !in w.vals then Fault else MakePhantom(w, w.vals[l], l)
  }

  function ClearWeak(w: World, l: Location): Outcome<World> {
    if l !in w.vals then Fault else ClearWeakness(w, w.vals[l])
  }
}
