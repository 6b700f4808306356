/** ChibiOS/RT fixed-block memory pools, as the memory-pool test sequence uses
    them: a plain pool whose free list is refilled by loading an array of
    objects or by freeing objects, and which may fall back on a provider when
    empty; and a guarded pool, a plain pool paired with a counting semaphore
    that holds the number of objects obtainable without waiting. Objects are
    identified by abstract block ids; their bytes are not modelled. */
module MemoryPools {
  import opened Wrappers

  /** The identity of one pool object (its address). */
  type Block = nat

  /** PORT_NATURAL_ALIGN of a 32-bit port. */
  const PortNaturalAlign: nat := 4

  /** A memory provider: given an object size and an alignment it returns a
      fresh object, or None (NULL) when it has no memory left. */
  type Provider = (nat, nat) -> Option<Block>

  /** null_provider: a provider that is never able to return memory. */
  function NullProvider(size: nat, align: nat): (r: Option<Block>)
    ensures r.None?
  {
    None
  }

  /** No block occurs twice in `s`. */
  predicate NoDuplicates(s: seq<Block>) {
    s == [] || (s[0] !in s[1..] && NoDuplicates(s[1..]))
  }

  /** In a list without duplicates, no element occurs before its own position. */
  lemma {:induction false} NoDuplicatesPrefix(s: seq<Block>, i: nat)
    requires NoDuplicates(s) && i < |s|
    ensures s[i] !in s[..i]
  {
    if i > 0 {
      NoDuplicatesPrefix(s[1..], i - 1);
      assert s[..i] == [s[0]] + s[1..][..i - 1];
      assert s[i] == s[1..][i - 1];
    }
  }

  /** `s` in the opposite order. */
  function Reversed(s: seq<Block>): (r: seq<Block>)
    ensures |r| == |s|
  {
    if s == [] then [] else [s[|s| - 1]] + Reversed(s[..|s| - 1])
  }

  /** Reversal neither adds nor drops an element. */
  lemma {:induction false} ReversedMembers(s: seq<Block>)
    ensures forall b :: b in Reversed(s) <==> b in s
  {
    if s != [] {
      ReversedMembers(s[..|s| - 1]);
      assert s == s[..|s| - 1] + [s[|s| - 1]];
    }
  }

  /** Element i of the reversal is element |s| - 1 - i of the original. */
  lemma {:induction false} ReversedIndex(s: seq<Block>, i: nat)
    requires i < |s|
    ensures Reversed(s)[i] == s[|s| - 1 - i]
  {
    if i > 0 {
      ReversedIndex(s[..|s| - 1], i - 1);
    }
  }

  /** Loading object i of `objs` in front of `start` puts it in front of what
      the first i objects gave, and it is not yet there. */
  lemma LoadStep(objs: seq<Block>, i: nat, start: seq<Block>)
    requires NoDuplicates(objs) && i < |objs|
    requires forall b :: b in objs ==> b !in start
    ensures objs[i] !in Reversed(objs[..i]) + start
    ensures Reversed(objs[..i + 1]) + start == [objs[i]] + (Reversed(objs[..i]) + start)
  {
    assert objs[..i + 1][..i] == objs[..i];
    NoDuplicatesPrefix(objs, i);
    ReversedMembers(objs[..i]);
    assert objs[i] in objs;
  }

  /** memory_pool_t: the free list (head first), the object size, the alignment
      and the optional provider. */
  class MemoryPool {
    var freeList: seq<Block>
    var objectSize: nat
    var align: nat
    var provider: Option<Provider>

    /** The free list is a list: no object is on it twice. */
    ghost predicate Valid()
      reads this
    {
      NoDuplicates(freeList)
    }

    /** What an allocation from an empty pool yields: the provider's answer, or
        None when there is no provider. */
    function ProviderResult(): (r: Option<Block>)
      reads this
      ensures provider.None? ==> r.None?
    {
      match provider
      case None => None
      case Some(p) => p(objectSize, align)
    }

    /** MEMORYPOOL_DECL: a statically initialised, empty pool. */
    constructor Decl(size: nat, align: nat, provider: Option<Provider>)
      ensures Valid() && freeList == []
      ensures objectSize == size && this.align == align && this.provider == provider
    {
      freeList := [];
      objectSize := size;
      this.align := align;
      this.provider := provider;
    }

    /** chPoolObjectInit: empties the pool and records the object size and the
        provider; the alignment is PORT_NATURAL_ALIGN. */
    method ObjectInit(size: nat, provider: Option<Provider>)
      modifies this
      ensures Valid() && freeList == []
      ensures objectSize == size && align == PortNaturalAlign && this.provider == provider
    {
      freeList := [];
      objectSize := size;
      align := PortNaturalAlign;
      this.provider := provider;
    }

    /** chPoolFree (and chPoolAdd): puts an object back at the head of the free list. */
    method Free(b: Block)
      requires Valid() && b !in freeList
      modifies this`freeList
      ensures Valid() && freeList == [b] + old(freeList)
    {
      assert ([b] + freeList)[1..] == freeList;
      freeList := [b] + freeList;
    }

    /** chPoolLoadArray: adds the objects of an array one after the other, so
        the last one ends up at the head of the free list. */
    method LoadArray(objs: seq<Block>)
      requires Valid() && NoDuplicates(objs)
      requires forall b :: b in objs ==> b !in freeList
      modifies this`freeList
      ensures Valid() && freeList == Reversed(objs) + old(freeList)
    {
      ghost var start := freeList;
      var i := 0;
      while i < |objs|
        invariant 0 <= i <= |objs|
        invariant Valid()
        invariant freeList == Reversed(objs[..i]) + start
      {
        LoadStep(objs, i, start);
        Free(objs[i]);
        i := i + 1;
      }
      assert objs[..i] == objs;
    }

    /** chPoolAlloc: takes the head of the free list; from an empty pool, the
        provider's answer, which does not enter the free list. */
    method Alloc() returns (r: Option<Block>)
      requires Valid()
      modifies this`freeList
      ensures Valid()
      ensures old(freeList) != [] ==> r == Some(old(freeList)[0]) && freeList == old(freeList)[1..]
      ensures old(freeList) == [] ==> r == ProviderResult() && freeList == []
    {
      if freeList != [] {
        r := Some(freeList[0]);
        freeList := freeList[1..];
      } else {
        r := ProviderResult();
      }
    }
  }

  /** guarded_memory_pool_t: a pool without provider and a semaphore whose
      counter is the number of objects on the free list. */
  class GuardedMemoryPool {
    const pool: MemoryPool
    var count: nat

    ghost predicate Valid()
      reads this, pool
    {
      pool.Valid() && pool.provider.None? && count == |pool.freeList|
    }

    /** GUARDEDMEMORYPOOL_DECL: an empty pool and a semaphore at 0. */
    constructor Decl(size: nat, align: nat)
      ensures Valid() && fresh(pool)
      ensures count == 0 && pool.freeList == []
      ensures pool.objectSize == size && pool.align == align
    {
      pool := new MemoryPool.Decl(size, align, None);
      count := 0;
    }

    /** chGuardedPoolObjectInit: empties the pool and resets the semaphore to 0. */
    method ObjectInit(size: nat)
      modifies this, pool
      ensures Valid() && count == 0 && pool.freeList == []
      ensures pool.objectSize == size && pool.align == PortNaturalAlign
    {
      pool.ObjectInit(size, None);
      count := 0;
    }

    /** chGuardedPoolFree (and chGuardedPoolAdd): returns an object to the
        pool and signals the semaphore. */
    method Free(b: Block)
      requires Valid() && b !in pool.freeList
      modifies this`count, pool`freeList
      ensures Valid() && pool.freeList == [b] + old(pool.freeList) && count == old(count) + 1
    {
      pool.Free(b);
      count := count + 1;
    }

    /** chGuardedPoolLoadArray: adds the objects one after the other. */
    method LoadArray(objs: seq<Block>)
      requires Valid() && NoDuplicates(objs)
      requires forall b :: b in objs ==> b !in pool.freeList
      modifies this`count, pool`freeList
      ensures Valid() && pool.freeList == Reversed(objs) + old(pool.freeList)
      ensures count == old(count) + |objs|
    {
      ghost var start := pool.freeList;
      var i := 0;
      while i < |objs|
        invariant 0 <= i <= |objs|
        invariant Valid()
        invariant pool.freeList == Reversed(objs[..i]) + start
        invariant count == old(count) + i
      {
        LoadStep(objs, i, start);
        Free(objs[i]);
        i := i + 1;
      }
      assert objs[..i] == objs;
    }

    /** chGuardedPoolAllocTimeout: waits on the semaphore, then takes the head
        of the free list. With nothing else running, a wait on a semaphore at
        0 ends by timeout whatever the timeout, and the result is None. */
    method AllocTimeout(timeout: nat) returns (r: Option<Block>)
      requires Valid()
      modifies this`count, pool`freeList
      ensures Valid()
      ensures old(count) == 0 ==> r.None? && count == 0 && pool.freeList == old(pool.freeList)
      ensures old(count) > 0 ==>
        && r == Some(old(pool.freeList)[0])
        && pool.freeList == old(pool.freeList)[1..]
        && count == old(count) - 1
    {
      if count == 0 {
        r := None;
      } else {
        count := count - 1;
        r := pool.Alloc();
      }
    }
  }
}
