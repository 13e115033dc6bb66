/**
 * ResourceRefCount: the shared-ownership counter every Vulkan resource wrapper
 * carries. The count starts at 1; Increment and Decrement return the new
 * value, and the dispose action runs inside the Decrement whose new value is 0.
 *
 * The counter is specified by the history of operations applied to it: a
 * counter is Valid when its count and the number of times its dispose action
 * ran are those the history gives, starting from 1.
 */
module RefCounting {
  import opened Wrappers
  import opened Vulkan

  /** An operation on a counter: Increment (Acquire) or Decrement (Release). */
  datatype RefOp = Acquire | Release

  /** The count after applying op to count. */
  function Step(count: int, op: RefOp): int {
    match op
    case Acquire => count + 1
    case Release => count - 1
  }

  /** Whether applying op to count runs the dispose action: a Decrement whose new value is 0. */
  predicate Fires(count: int, op: RefOp) {
    op == Release && Step(count, op) == 0
  }

  /** The count after applying ops, in order, to a counter holding start. */
  function CountAfter(start: int, ops: seq<RefOp>): int
    decreases |ops|
  {
    if ops == [] then start
    else Step(CountAfter(start, ops[..|ops| - 1]), ops[|ops| - 1])
  }

  /** How many times the dispose action runs while ops are applied to a counter holding start. */
  function Firings(start: int, ops: seq<RefOp>): nat
    decreases |ops|
  {
    if ops == [] then 0
    else
      var before := ops[..|ops| - 1];
      Firings(start, before) + (if Fires(CountAfter(start, before), ops[|ops| - 1]) then 1 else 0)
  }

  /** The number of times op occurs in ops. */
  function Occurrences(ops: seq<RefOp>, op: RefOp): nat
    decreases |ops|
  {
    if ops == [] then 0
    else Occurrences(ops[..|ops| - 1], op) + (if ops[|ops| - 1] == op then 1 else 0)
  }

  /** n copies of op. */
  function Repeat(op: RefOp, n: nat): seq<RefOp> {
    seq(n, _ => op)
  }

  /**
   * No Increment is applied to a counter that is no longer positive: the usage
   * the counter is designed for (a reference is only taken through a live one).
   */
  ghost predicate NoUseAfterFree(start: int, ops: seq<RefOp>) {
    forall k :: 0 <= k < |ops| && ops[k] == Acquire ==> CountAfter(start, ops[..k]) > 0
  }

  /** The count is the start plus the Increments minus the Decrements. */
  lemma {:induction false} CountAfterIsNetChange(start: int, ops: seq<RefOp>)
    ensures CountAfter(start, ops) == start + Occurrences(ops, Acquire) - Occurrences(ops, Release)
    decreases |ops|
  {
    if ops != [] {
      CountAfterIsNetChange(start, ops[..|ops| - 1]);
    }
  }

  /**
   * Used as designed, a counter runs its dispose action at most once, and it
   * has run it exactly when the count has dropped to 0 or below.
   */
  lemma {:induction false} DisposedExactlyWhenDrained(start: int, ops: seq<RefOp>)
    requires start > 0 && NoUseAfterFree(start, ops)
    ensures Firings(start, ops) == if CountAfter(start, ops) <= 0 then 1 else 0
    decreases |ops|
  {
    if ops != [] {
      var before := ops[..|ops| - 1];
      forall k | 0 <= k < |before| && before[k] == Acquire
        ensures CountAfter(start, before[..k]) > 0
      {
        assert before[..k] == ops[..k];
      }
      DisposedExactlyWhenDrained(start, before);
      if ops[|ops| - 1] == Acquire {
        assert ops[..|ops| - 1] == before;
      }
    }
  }

  /** The operations of a fresh counter taken n more times and then released n + 1 times. */
  function BalancedUse(n: nat): seq<RefOp> {
    Repeat(Acquire, n) + Repeat(Release, n + 1)
  }

  lemma {:induction false} CountAlongBalancedUse(n: nat, k: nat)
    requires k <= 2 * n + 1
    ensures CountAfter(1, BalancedUse(n)[..k]) == if k <= n then 1 + k else 1 + 2 * n - k
    decreases k
  {
    var ops := BalancedUse(n);
    if k > 0 {
      CountAlongBalancedUse(n, k - 1);
      assert ops[..k][..k - 1] == ops[..k - 1];
    }
  }

  /**
   * From a fresh counter, n Increments followed by n + 1 Decrements run the
   * dispose action exactly once, on the last Decrement and not before.
   */
  lemma BalancedUseDisposesOnceAtEnd(n: nat)
    ensures Firings(1, BalancedUse(n)) == 1
    ensures forall k :: 0 <= k < |BalancedUse(n)| ==> Firings(1, BalancedUse(n)[..k]) == 0
  {
    var ops := BalancedUse(n);
    forall k | 0 <= k <= |ops|
      ensures Firings(1, ops[..k]) == if k == |ops| then 1 else 0
    {
      forall j | 0 <= j < |ops[..k]| && ops[..k][j] == Acquire
        ensures CountAfter(1, ops[..k][..j]) > 0
      {
        assert ops[..k][..j] == ops[..j];
        CountAlongBalancedUse(n, j);
      }
      DisposedExactlyWhenDrained(1, ops[..k]);
      CountAlongBalancedUse(n, k);
    }
    assert ops[..|ops|] == ops;
  }

  /**
   * The static nextResourceId: the last id handed out. It starts at 1, so the
   * first counter gets id 2, and every counter gets the next integer.
   */
  class ResourceIds {
    var nextResourceId: int
    ghost var issued: seq<int>

    ghost predicate Valid()
      reads this
    {
      nextResourceId == |issued| + 1
      && forall k :: 0 <= k < |issued| ==> issued[k] == k + 2
    }

    constructor ()
      ensures Valid() && issued == [] && nextResourceId == 1
    {
      nextResourceId := 1;
      issued := [];
    }
  }

  class ResourceRefCount {
    const resourceId: int
    var refCount: int
    /** The operations applied so far. */
    ghost var history: seq<RefOp>
    /** How many times the dispose action has run. */
    ghost var disposeCalls: nat

    ghost predicate Valid()
      reads this
    {
      refCount == CountAfter(1, history) && disposeCalls == Firings(1, history)
    }

    /** A new counter holds the creator's reference and takes the next id. */
    constructor (ids: ResourceIds)
      requires ids.Valid()
      modifies ids
      ensures Valid() && history == [] && refCount == 1 && disposeCalls == 0
      ensures ids.Valid() && resourceId == old(ids.nextResourceId) + 1
      ensures ids.issued == old(ids.issued) + [resourceId]
      ensures forall k :: 0 <= k < |old(ids.issued)| ==> old(ids.issued)[k] < resourceId
      ensures old(ids.issued) == [] ==> resourceId == 2
    {
      var id := ids.nextResourceId + 1;
      ids.nextResourceId := id;
      ids.issued := ids.issued + [id];
      resourceId := id;
      refCount := 1;
      history := [];
      disposeCalls := 0;
    }

    /**
     * Adds one reference and returns the new count. With usage validation on,
     * a new count of 0 is reported as a use after free; the count has been
     * raised all the same.
     */
    method Increment(validateUsage: bool) returns (r: Result<int, VkError>)
      requires Valid()
      modifies this
      ensures Valid() && history == old(history) + [Acquire]
      ensures refCount == old(refCount) + 1 && disposeCalls == old(disposeCalls)
      ensures r == if validateUsage && refCount == 0 then Failure(UseAfterFree) else Success(refCount)
    {
      assert (history + [Acquire])[..|history|] == history;
      refCount := refCount + 1;
      history := history + [Acquire];
      var ret := refCount;
      if validateUsage && ret == 0 {
        return Failure(UseAfterFree);
      }
      return Success(ret);
    }

    /**
     * Increment with the use-after-free check as evidently intended: it
     * rejects taking a reference through a counter whose count was already
     * 0 or below.
     */
    method IncrementChecked(validateUsage: bool) returns (r: Result<int, VkError>)
      requires Valid()
      modifies this
      ensures Valid() && history == old(history) + [Acquire]
      ensures refCount == old(refCount) + 1 && disposeCalls == old(disposeCalls)
      ensures r == if validateUsage && old(refCount) <= 0 then Failure(UseAfterFree) else Success(refCount)
    {
      assert (history + [Acquire])[..|history|] == history;
      refCount := refCount + 1;
      history := history + [Acquire];
      var ret := refCount;
      if validateUsage && ret <= 1 {
        return Failure(UseAfterFree);
      }
      return Success(ret);
    }

    /** Drops one reference and returns the new count; the dispose action runs when it is 0. */
    method Decrement() returns (ret: int)
      requires Valid()
      modifies this
      ensures Valid() && history == old(history) + [Release]
      ensures ret == refCount == old(refCount) - 1
      ensures disposeCalls == old(disposeCalls) + (if ret == 0 then 1 else 0)
    {
      assert (history + [Release])[..|history|] == history;
      refCount := refCount - 1;
      history := history + [Release];
      ret := refCount;
      if ret == 0 {
        disposeCalls := disposeCalls + 1;
      }
    }
  }

  /**
   * The validation in Increment as written misses the plain use after free:
   * a fresh counter decremented once has run its dispose action and holds 0,
   * and an Increment then returns 1, which the check lets through.
   */
  lemma IncrementCheckMissesDisposedCounter()
    ensures Firings(1, [Release]) == 1 && CountAfter(1, [Release]) == 0
    ensures CountAfter(1, [Release, Acquire]) == 1
  {
    assert [Release, Acquire][..1] == [Release];
  }

  /**
   * The same trace on the counter itself: after the Decrement that runs the
   * dispose action, a validated Increment succeeds with 1.
   */
  method IncrementAfterDisposeIsAccepted(ids: ResourceIds) returns (r: Result<int, VkError>)
    requires ids.Valid()
    modifies ids
    ensures r == Success(1)
  {
    var counter := new ResourceRefCount(ids);
    var ret := counter.Decrement();
    assert ret == 0 && counter.disposeCalls == 1;
    r := counter.Increment(true);
  }

  /**
   * The evidently intended check rejects an Increment exactly when the dispose
   * action has already run, for a counter used as designed.
   */
  lemma CheckedIncrementRejectsExactlyDisposed(ops: seq<RefOp>)
    requires NoUseAfterFree(1, ops)
    ensures CountAfter(1, ops) <= 0 <==> Firings(1, ops) > 0
  {
    DisposedExactlyWhenDrained(1, ops);
  }
}
