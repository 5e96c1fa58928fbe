/** `WeakCallbackInfo` and the pending callback whose `callback_` it may write: how the first pass
    asks for a second one. */
module WeakCallbacks {
  import opened Cells

  /** A callback function; only its identity matters. */
  type Callback(==, !new)

  const EMBEDDER_FIELDS: nat := 2

  /** `GlobalHandles::PendingPhantomCallback`. */
  class PendingCallback {
    var callback: Option<Callback>
    const parameter: nat
    const embedderFields: array<nat>

    constructor (callback: Callback, parameter: nat, embedderFields: array<nat>)
      requires embedderFields.Length == EMBEDDER_FIELDS
      ensures this.callback == Some(callback) && this.parameter == parameter && this.embedderFields == embedderFields
    {
      this.callback, this.parameter, this.embedderFields := Some(callback), parameter, embedderFields;
    }
  }

  /** What a callback is given; `target` is where `SetSecondPassCallback` writes. */
  class WeakCallbackInfo {
    const parameter: nat
    const target: PendingCallback?
    const embedderFields: array<nat>

    constructor (parameter: nat, embedderFields: array<nat>, target: PendingCallback?)
      requires embedderFields.Length == EMBEDDER_FIELDS
      ensures this.parameter == parameter && this.target == target
      ensures fresh(this.embedderFields) && this.embedderFields[..] == embedderFields[..]
    {
      this.parameter, this.target := parameter, target;
      this.embedderFields := new nat[EMBEDDER_FIELDS];
      new;
      for i := 0 to EMBEDDER_FIELDS
        invariant this.embedderFields[..i] == embedderFields[..i] && fresh(this.embedderFields)
        invariant embedderFields[..] == old(embedderFields[..])
      {
        this.embedderFields[i] := embedderFields[i];
      }
      assert this.embedderFields[..] == this.embedderFields[..EMBEDDER_FIELDS];
      assert embedderFields[..] == embedderFields[..EMBEDDER_FIELDS];
    }

    /** Without a target the write goes through a null pointer. */
    method SetSecondPassCallback(callback: Callback) returns (ok: bool)
      modifies target
      ensures ok <==> target != null
      ensures ok ==> target.callback == Some(callback)
    {
      ok := target != null;
      if ok {
        target.callback := Some(callback);
      }
    }
  }

  /** `Invoke`, where the callback is given `info` and sets the given second-pass callbacks in turn. */
  method Invoke(p: PendingCallback, firstPass: bool, sets: seq<Callback>)
    returns (info: WeakCallbackInfo, crashed: bool)
    requires p.callback.Some? && p.embedderFields.Length == EMBEDDER_FIELDS
    modifies p
    ensures info.parameter == p.parameter && info.embedderFields[..] == p.embedderFields[..]
    ensures info.target == if firstPass then p else null
    ensures crashed <==> !firstPass && sets != []
    ensures p.callback == if firstPass && sets != [] then Some(sets[|sets| - 1]) else None
  {
    info := new WeakCallbackInfo(p.parameter, p.embedderFields, if firstPass then p else null);
    p.callback := None;
    crashed := false;
    for i := 0 to |sets|
      invariant crashed <==> !firstPass && i > 0
      invariant info.embedderFields[..] == p.embedderFields[..]
      invariant p.callback == if firstPass && i > 0 then Some(sets[i - 1]) else None
    {
      var ok := info.SetSecondPassCallback(sets[i]);
      crashed := crashed || !ok;
    }
  }

  /** Both passes of one pending callback. It is invoked once, and a second time exactly if the
      first pass asked for it, with the callback that was set last; only a callback that asks
      again in the second pass crashes. */
  method Process(p: PendingCallback, sets: Callback -> seq<Callback>) returns (invoked: seq<Callback>, crashed: bool)
    requires p.callback.Some? && p.embedderFields.Length == EMBEDDER_FIELDS
    modifies p
    ensures p.callback == None
    ensures var first := sets(old(p.callback.value));
            if first == [] then invoked == [old(p.callback.value)] && !crashed
            else
              && invoked == [old(p.callback.value), first[|first| - 1]]
              && (crashed <==> sets(first[|first| - 1]) != [])
  {
    invoked := [p.callback.value];
    var info;
    info, crashed := Invoke(p, true, sets(p.callback.value));
    if p.callback.Some? {
      invoked := invoked + [p.callback.value];
      info, crashed := Invoke(p, false, sets(p.callback.value));
    }
  }
}
