/** Test sequence 010 of the ChibiOS/RT test suite: the memory pool `mp1` and
    the guarded memory pool `gmp1` loaded from, drained of and refilled with the
    objects of a four-element array. Each test case is a method that returns
    what its steps observe, and its contract is what the test's assertions
    demand of those observations. */
module MemoryPoolTests {
  import opened Wrappers
  import opened MemoryPools

  /** MEMORY_POOL_SIZE */
  const MemoryPoolSize: nat := 4

  /** sizeof (uint32_t), the size of each object. */
  const ObjectSize: nat := 4

  /** The objects of `objects[]`: MEMORY_POOL_SIZE distinct addresses. */
  predicate ObjectArray(objects: seq<Block>) {
    |objects| == MemoryPoolSize && NoDuplicates(objects)
  }

  /** A run of allocations that handed out exactly `objects`, last one first. */
  predicate LastFirst(got: seq<Option<Block>>, objects: seq<Block>) {
    && |got| == |objects|
    && forall i :: 0 <= i < |got| ==> got[i] == Some(objects[|objects| - 1 - i])
  }

  /** In a run of allocations that hands out `objects` last one first, every
      allocation succeeds, no block is handed out twice, and every object is
      handed out. */
  lemma LastFirstDrains(got: seq<Option<Block>>, objects: seq<Block>)
    requires NoDuplicates(objects) && LastFirst(got, objects)
    ensures forall i :: 0 <= i < |got| ==> got[i].Some?
    ensures forall i, j :: 0 <= i < j < |got| ==> got[i] != got[j]
    ensures forall b :: b in objects ==> Some(b) in got
  {
    forall i, j | 0 <= i < j < |got| ensures got[i] != got[j] {
      var a, b := |objects| - 1 - j, |objects| - 1 - i;
      NoDuplicatesPrefix(objects, b);
      assert objects[..b][a] == objects[a];
    }
    forall b | b in objects ensures Some(b) in got {
      var k :| 0 <= k < |objects| && objects[k] == b;
      assert got[|objects| - 1 - k] == Some(b);
    }
  }

  /** Allocations that hand out a loaded free list in order hand out the
      objects last one first. */
  lemma LoadedLastFirst(got: seq<Option<Block>>, objects: seq<Block>)
    requires |got| == |objects|
    requires forall k :: 0 <= k < |got| ==> got[k] == Some(Reversed(objects)[k])
    ensures LastFirst(got, objects)
  {
    forall k | 0 <= k < |got| ensures got[k] == Some(objects[|objects| - 1 - k]) {
      ReversedIndex(objects, k);
    }
  }

  /** `for (i = 0; i < MEMORY_POOL_SIZE; i++) chPoolAlloc(&mp1)`: the results,
      in order, are the first MEMORY_POOL_SIZE objects of the free list. */
  method AllocEach(mp1: MemoryPool) returns (got: seq<Option<Block>>)
    requires mp1.Valid() && |mp1.freeList| >= MemoryPoolSize
    modifies mp1`freeList
    ensures mp1.Valid() && mp1.freeList == old(mp1.freeList)[MemoryPoolSize..]
    ensures |got| == MemoryPoolSize
    ensures forall k :: 0 <= k < MemoryPoolSize ==> got[k] == Some(old(mp1.freeList)[k])
  {
    ghost var start := mp1.freeList;
    got := [];
    var i := 0;
    while i < MemoryPoolSize
      invariant 0 <= i <= MemoryPoolSize
      invariant mp1.Valid() && mp1.freeList == start[i..]
      invariant |got| == i && forall k :: 0 <= k < i ==> got[k] == Some(start[k])
    {
      var r := mp1.Alloc();
      got := got + [r];
      i := i + 1;
    }
  }

  /** `for (i = 0; i < MEMORY_POOL_SIZE; i++) chPoolFree(&mp1, &objects[i])`
      on an empty pool. */
  method FreeEach(mp1: MemoryPool, objects: seq<Block>)
    requires ObjectArray(objects) && mp1.Valid() && mp1.freeList == []
    modifies mp1`freeList
    ensures mp1.Valid() && mp1.freeList == Reversed(objects)
  {
    var i := 0;
    while i < MemoryPoolSize
      invariant 0 <= i <= MemoryPoolSize
      invariant mp1.Valid() && mp1.freeList == Reversed(objects[..i])
    {
      LoadStep(objects, i, []);
      assert Reversed(objects[..i]) + [] == Reversed(objects[..i]);
      assert Reversed(objects[..i + 1]) + [] == Reversed(objects[..i + 1]);
      mp1.Free(objects[i]);
      i := i + 1;
    }
    assert objects[..i] == objects;
  }

  /** rt_test_010_001, "Loading and emptying a memory pool": steps 2 and 5
      each see four successful allocations, which hand out the four objects;
      steps 3 and 6 see the pool empty; in step 7 a pool re-initialised with
      null_provider has nothing to give. */
  method LoadingAndEmptyingPool(objects: seq<Block>)
    returns (step2: seq<Option<Block>>, step3: Option<Block>,
             step5: seq<Option<Block>>, step6: Option<Block>, step7: Option<Block>)
    requires ObjectArray(objects)
    ensures LastFirst(step2, objects) && step3.None?
    ensures LastFirst(step5, objects) && step6.None?
    ensures step7.None?
  {
    var mp1 := new MemoryPool.Decl(ObjectSize, PortNaturalAlign, None);
    // setup
    mp1.ObjectInit(ObjectSize, None);
    // [10.1.1] chPoolLoadArray
    mp1.LoadArray(objects);
    // [10.1.2] emptying the pool
    step2 := AllocEach(mp1);
    LoadedLastFirst(step2, objects);
    // [10.1.3] now empty
    step3 := mp1.Alloc();
    // [10.1.4] the objects back through chPoolFree
    FreeEach(mp1, objects);
    // [10.1.5] emptying the pool again
    step5 := AllocEach(mp1);
    LoadedLastFirst(step5, objects);
    // [10.1.6] now empty again
    step6 := mp1.Alloc();
    // [10.1.7] a provider unable to return more memory
    mp1.ObjectInit(ObjectSize, Some(NullProvider));
    step7 := mp1.Alloc();
  }

  /** `for (i = 0; i < MEMORY_POOL_SIZE; i++)
      chGuardedPoolAllocTimeout(&gmp1, TIME_IMMEDIATE)`. */
  method GuardedAllocEach(gmp1: GuardedMemoryPool) returns (got: seq<Option<Block>>)
    requires gmp1.Valid() && gmp1.count >= MemoryPoolSize
    modifies gmp1`count, gmp1.pool`freeList
    ensures gmp1.Valid() && gmp1.pool.freeList == old(gmp1.pool.freeList)[MemoryPoolSize..]
    ensures |got| == MemoryPoolSize
    ensures forall k :: 0 <= k < MemoryPoolSize ==> got[k] == Some(old(gmp1.pool.freeList)[k])
  {
    ghost var start := gmp1.pool.freeList;
    got := [];
    var i := 0;
    while i < MemoryPoolSize
      invariant 0 <= i <= MemoryPoolSize
      invariant gmp1.Valid() && gmp1.pool.freeList == start[i..]
      invariant |got| == i && forall k :: 0 <= k < i ==> got[k] == Some(start[k])
    {
      var r := gmp1.AllocTimeout(0);
      got := got + [r];
      i := i + 1;
    }
  }

  /** `for (i = 0; i < MEMORY_POOL_SIZE; i++) chGuardedPoolFree(&gmp1, &objects[i])`
      on an empty guarded pool. */
  method GuardedFreeEach(gmp1: GuardedMemoryPool, objects: seq<Block>)
    requires ObjectArray(objects) && gmp1.Valid() && gmp1.pool.freeList == []
    modifies gmp1`count, gmp1.pool`freeList
    ensures gmp1.Valid() && gmp1.pool.freeList == Reversed(objects)
  {
    var i := 0;
    while i < MemoryPoolSize
      invariant 0 <= i <= MemoryPoolSize
      invariant gmp1.Valid() && gmp1.pool.freeList == Reversed(objects[..i])
    {
      LoadStep(objects, i, []);
      assert Reversed(objects[..i]) + [] == Reversed(objects[..i]);
      assert Reversed(objects[..i + 1]) + [] == Reversed(objects[..i + 1]);
      gmp1.Free(objects[i]);
      i := i + 1;
    }
    assert objects[..i] == objects;
  }

  /** rt_test_010_002, "Loading and emptying a guarded memory pool without
      waiting": the same observations through chGuardedPoolAllocTimeout with
      TIME_IMMEDIATE (a timeout of 0 ticks). */
  method LoadingAndEmptyingGuardedPool(objects: seq<Block>)
    returns (step2: seq<Option<Block>>, step3: Option<Block>,
             step5: seq<Option<Block>>, step6: Option<Block>)
    requires ObjectArray(objects)
    ensures LastFirst(step2, objects) && step3.None?
    ensures LastFirst(step5, objects) && step6.None?
  {
    var gmp1 := new GuardedMemoryPool.Decl(ObjectSize, PortNaturalAlign);
    // setup
    gmp1.ObjectInit(ObjectSize);
    // [10.2.1] chGuardedPoolLoadArray
    gmp1.LoadArray(objects);
    // [10.2.2] emptying the pool
    step2 := GuardedAllocEach(gmp1);
    LoadedLastFirst(step2, objects);
    // [10.2.3] now empty
    step3 := gmp1.AllocTimeout(0);
    // [10.2.4] the objects back through chGuardedPoolFree
    GuardedFreeEach(gmp1, objects);
    // [10.2.5] emptying the pool again
    step5 := GuardedAllocEach(gmp1);
    LoadedLastFirst(step5, objects);
    // [10.2.6] now empty again
    step6 := gmp1.AllocTimeout(0);
  }

  /** rt_test_010_003, "Guarded Memory Pools timeout": an allocation from a
      freshly initialised guarded pool fails even with a finite timeout
      (`timeout` stands for the tick count TIME_MS2I(100); the outcome is the
      same for every timeout, TIME_IMMEDIATE included). */
  method GuardedPoolTimeout(timeout: nat) returns (step1: Option<Block>)
    ensures step1.None?
  {
    var gmp1 := new GuardedMemoryPool.Decl(ObjectSize, PortNaturalAlign);
    // setup
    gmp1.ObjectInit(ObjectSize);
    // [10.3.1]
    step1 := gmp1.AllocTimeout(timeout);
  }
}
