/**
 * The `TaskCompletionSource` cells that hand provisioning results (project
 * endpoints, per-application identities) to consumers configured earlier.
 */
module Deferred {
  import opened Wrappers

  /** A single-assignment cell: unresolved, or resolved with a value. */
  datatype Cell<T> = Pending | Resolved(value: T)

  /** `SetResult`: resolves a pending cell; on a resolved cell it throws (`None`). */
  function SetResult<T>(c: Cell<T>, v: T): (r: Option<Cell<T>>)
    ensures r.Some? <==> c.Pending?
    ensures r.Some? ==> Await(r.value) == Some(v)
  {
    if c.Pending? then Some(Resolved(v)) else None
  }

  /** `await cell.Task`: the value, or `None` while the awaiting task stays suspended. */
  function Await<T>(c: Cell<T>): (r: Option<T>)
    ensures r.Some? <==> c.Resolved?
    ensures r.Some? ==> r.value == c.value
  {
    if c.Resolved? then Some(c.value) else None
  }

  /** Resolving an already resolved cell fails, whatever the second value. */
  lemma SecondSetResultFails<T>(c: Cell<T>, v: T, w: T)
    requires SetResult(c, v).Some?
    ensures SetResult(SetResult(c, v).value, w).None?
    ensures Await(SetResult(c, v).value) == Some(v)
  {
  }

  /** One operation on a cell: a producer's `SetResult` or a consumer's `await`. */
  datatype Op<T> = SetOp(v: T) | AwaitOp

  /**
   * What a cell has done after a sequence of operations: its state, how many
   * awaiters are still suspended, the values handed to awaiters in the order they
   * were released, and how many `SetResult` calls threw.
   */
  datatype History<T> = History(cell: Cell<T>, waiting: nat, delivered: seq<T>, faults: nat)

  function CountSets<T>(ops: seq<Op<T>>): nat
  {
    if ops == [] then 0
    else CountSets(ops[..|ops| - 1]) + (if ops[|ops| - 1].SetOp? then 1 else 0)
  }

  function CountAwaits<T>(ops: seq<Op<T>>): nat
  {
    if ops == [] then 0
    else CountAwaits(ops[..|ops| - 1]) + (if ops[|ops| - 1].AwaitOp? then 1 else 0)
  }

  /** The value of the earliest `SetResult`, if there is one. */
  function FirstSet<T>(ops: seq<Op<T>>): Option<T>
  {
    if ops == [] then None
    else if ops[0].SetOp? then Some(ops[0].v)
    else FirstSet(ops[1..])
  }

  /**
   * Replays the operations in order, starting from a fresh cell. Every awaiter,
   * whether it started before or after the resolution, receives the first value
   * set; every later `SetResult` throws; awaiters stay suspended while no value
   * has been set.
   */
  function Replay<T>(ops: seq<Op<T>>): (h: History<T>)
    ensures |h.delivered| + h.waiting == CountAwaits(ops)
    ensures h.cell.Pending? <==> CountSets(ops) == 0
    ensures h.cell.Pending? <==> FirstSet(ops).None?
    ensures h.cell.Pending? ==> h.delivered == [] && h.faults == 0
    ensures h.cell.Resolved? ==> Some(h.cell.value) == FirstSet(ops) && h.waiting == 0
    ensures h.cell.Resolved? ==> h.faults == CountSets(ops) - 1
    ensures forall i :: 0 <= i < |h.delivered| ==> h.cell.Resolved? && h.delivered[i] == h.cell.value
  {
    if ops == [] then History(Pending, 0, [], 0)
    else
      var prefix := ops[..|ops| - 1];
      var h := Replay(prefix);
      FirstSetExtend(prefix, ops[|ops| - 1]);
      assert ops == prefix + [ops[|ops| - 1]];
      match ops[|ops| - 1]
      case AwaitOp =>
        if h.cell.Resolved? then h.(delivered := h.delivered + [h.cell.value])
        else h.(waiting := h.waiting + 1)
      case SetOp(v) =>
        if h.cell.Pending? then History(Resolved(v), 0, h.delivered + seq(h.waiting, _ => v), h.faults)
        else h.(faults := h.faults + 1)
  }

  lemma {:induction false} FirstSetExtend<T>(ops: seq<Op<T>>, op: Op<T>)
    ensures FirstSet(ops + [op]) == if FirstSet(ops).Some? then FirstSet(ops) else if op.SetOp? then Some(op.v) else None
  {
    if ops != [] {
      assert (ops + [op])[1..] == ops[1..] + [op];
      FirstSetExtend(ops[1..], op);
    }
  }
}
