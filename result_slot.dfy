/**
 * The single pending-result slot that each plugin keeps for the activity it starts: a
 * request stores its `Result` in the empty slot (an occupied slot is a fatal
 * `IllegalStateException`), `onActivityResult` completes and clears it, and detaching the
 * activity fails it.
 */
module ResultSlot {
  import opened Wrappers
  import opened Channel

  // The error codes and messages the plugins report about the slot and the activity.
  const FAILED: string := "failed"
  const NEEDS_ACTIVITY: string := "Result callback requires an activity."
  const UNCOMPLETED_RESULT: string := "Unexpected uncompleted activity result."
  const ACTIVITY_DETACHED: string := "Activity detached."

  /** The slot after one handler, and what the handler did to result sinks. */
  datatype Slotted<C> = Slotted(slot: Option<Sink>, events: seq<Event<C>>)

  /** A request that starts an activity stores its own sink; an occupied slot is never overwritten. */
  function Occupy<C>(slot: Option<Sink>, sink: Sink): (r: Slotted<C>)
    ensures r.slot.Some? && (slot.Some? ==> r.slot == slot) && (slot.None? ==> r.slot == Some(sink))
    ensures EndsByThrowing(r.events) <==> slot.Some?
    ensures CompletedSinks(r.events) == []
  {
    if slot.Some? then Slotted(slot, [Threw(IllegalState(UNCOMPLETED_RESULT))])
    else Slotted(Some(sink), [])
  }

  /**
   * `onActivityResult` for one of the plugin's own request codes: the pending sink is
   * completed as the result code says and the slot is cleared. Dereferencing an empty slot,
   * or (where the plugin calls `data.toString()`) absent data on an exceptional result,
   * throws `NullPointerException` before anything is completed.
   */
  function Claim<C>(slot: Option<Sink>, resultCode: int, dataPresent: bool): (r: Slotted<C>)
    ensures EndsByThrowing(r.events) <==>
      slot.None? || (resultCode != RESULT_OK && resultCode != RESULT_CANCELED && !dataPresent)
    ensures EndsByThrowing(r.events) ==> r.slot == slot && CompletedSinks(r.events) == []
    ensures !EndsByThrowing(r.events) ==>
      && r.slot.None? && slot.Some? && CompletedSinks(r.events) == [slot.value]
      && r.events == [Complete(slot.value, ActivityResultCompletion(resultCode))]
  {
    var c := ActivityResultCompletion(resultCode);
    if slot.None? || (c.Error? && !dataPresent) then Slotted(slot, [Threw(NullPointer)])
    else
      var e: Event<C> := Complete(slot.value, c);
      assert CompletedSinks([e]) == CompletedSinks([e][..0]) + [slot.value];
      Slotted(None, [e])
  }

  /** Detaching the activity fails a pending sink with "Activity detached." and empties the slot. */
  function Release<C>(slot: Option<Sink>): (r: Slotted<C>)
    ensures r.slot.None? && !EndsByThrowing(r.events)
    ensures CompletedSinks(r.events) == if slot.Some? then [slot.value] else []
    ensures slot.Some? ==> r.events == [Complete(slot.value, Error(FAILED, ACTIVITY_DETACHED))]
  {
    if slot.Some? then
      var e: Event<C> := Complete(slot.value, Error(FAILED, ACTIVITY_DETACHED));
      assert CompletedSinks([e]) == CompletedSinks([e][..0]) + [slot.value];
      Slotted(None, [e])
    else Slotted(None, [])
  }

  // ---------------------------------------------------------------------------------
  // The protocol over any sequence of handler invocations

  /** One handler invocation that touches the slot. */
  datatype SlotOp = Request(sink: Sink) | ActivityResult(resultCode: int, dataPresent: bool) | Detach

  function Step<C>(slot: Option<Sink>, op: SlotOp): Slotted<C> {
    match op
    case Request(sink) => Occupy(slot, sink)
    case ActivityResult(code, data) => Claim(slot, code, data)
    case Detach => Release(slot)
  }

  /** The handlers in order; an exception ends one handler, not the ones after it. */
  function Run<C>(slot: Option<Sink>, ops: seq<SlotOp>): Slotted<C>
    decreases |ops|
  {
    if ops == [] then Slotted(slot, [])
    else
      var r := Run<C>(slot, ops[..|ops| - 1]);
      var o := Step<C>(r.slot, ops[|ops| - 1]);
      Slotted(o.slot, r.events + o.events)
  }

  /** The sinks handed to the requests among `ops`, in order. */
  function Requested(ops: seq<SlotOp>): seq<Sink>
    decreases |ops|
  {
    if ops == [] then []
    else Requested(ops[..|ops| - 1]) + (if ops[|ops| - 1].Request? then [ops[|ops| - 1].sink] else [])
  }

  predicate Distinct(xs: seq<Sink>) {
    forall i, j :: 0 <= i < j < |xs| ==> xs[i] != xs[j]
  }

  /** One handler completes at most the sink it found in the slot, and leaves the slot empty, unchanged, or holding the request's sink. */
  lemma StepCompletesHeldSink<C>(slot: Option<Sink>, op: SlotOp)
    ensures var o := Step<C>(slot, op);
      && (CompletedSinks(o.events) == [] || (slot.Some? && CompletedSinks(o.events) == [slot.value]))
      && (o.slot.None? || o.slot == slot || (op.Request? && slot.None? && o.slot == Some(op.sink)))
  {
  }

  /** The sinks requested by `ops` and then by `op`. */
  lemma RequestedAppend(ops: seq<SlotOp>, op: SlotOp)
    ensures Requested(ops + [op]) == Requested(ops) + (if op.Request? then [op.sink] else [])
  {
    assert (ops + [op])[..|ops|] == ops;
  }

  /**
   * Starting from an empty slot, and with every request bringing its own sink, every sink
   * that is completed was requested and is completed at most once, and a sink still in the
   * slot was requested and has not been completed.
   */
  lemma {:induction false} RunCompletesRequestsAtMostOnce<C>(ops: seq<SlotOp>)
    requires Distinct(Requested(ops))
    ensures var r := Run<C>(None, ops);
      && CompletedAtMostOnce(r.events)
      && (forall x :: x in CompletedSinks(r.events) ==> x in Requested(ops))
      && (r.slot.Some? ==> r.slot.value in Requested(ops) && r.slot.value !in CompletedSinks(r.events))
    decreases |ops|
  {
    if ops != [] {
      var init := ops[..|ops| - 1];
      var last := ops[|ops| - 1];
      assert ops == init + [last];
      var r := Run<C>(None, init);
      var o := Step<C>(r.slot, last);
      assert Run<C>(None, ops) == Slotted(o.slot, r.events + o.events);
      var req := Requested(init);
      RequestedAppend(init, last);
      assert Distinct(req) by {
        forall i, j | 0 <= i < j < |req| ensures req[i] != req[j] {
          assert Requested(ops)[i] == req[i] && Requested(ops)[j] == req[j];
        }
      }
      RunCompletesRequestsAtMostOnce<C>(init);
      StepCompletesHeldSink<C>(r.slot, last);
      CompletedSinksAppend(r.events, o.events);
      var done := CompletedSinks(r.events);
      var added := CompletedSinks(o.events);
      assert forall x :: x in added ==> x !in done;
      if last.Request? {
        forall i | 0 <= i < |req| ensures req[i] != last.sink {
          assert Requested(ops)[i] == req[i] && Requested(ops)[|req|] == last.sink;
        }
      }
      var all := done + added;
      forall i, j | 0 <= i < j < |all| ensures all[i] != all[j] {
        if j >= |done| && i < |done| {
          assert all[j] in added && all[i] in done;
        }
      }
    }
  }

  /** Each request's sink is the one completed: a request into an empty slot is answered by the next claim. */
  lemma RequestThenClaim<C>(sink: Sink, resultCode: int)
    ensures var r := Run<C>(None, [Request(sink), ActivityResult(resultCode, true)]);
      r.slot.None? && r.events == [Complete(sink, ActivityResultCompletion(resultCode))]
  {
    var ops := [Request(sink), ActivityResult(resultCode, true)];
    assert ops[..1] == [Request(sink)] && ops[..1][..0] == [];
    var r0 := Run<C>(None, ops[..1][..0]);
    assert r0 == Slotted(None, []);
    var r1 := Run<C>(None, ops[..1]);
    assert r1 == Slotted(Some(sink), []);
    var o := Claim<C>(Some(sink), resultCode, true);
    assert Run<C>(None, ops) == Slotted(o.slot, r1.events + o.events);
  }
}
