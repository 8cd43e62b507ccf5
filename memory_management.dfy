/** `core/memory_management.rs` of ArxFramework: a memory manager whose allocation
    strategy depends on the application type. The pool-based strategy keeps a FIFO queue
    of pre-filled buffers: `allocate` takes from the front, `deallocate` returns to the back. */
module MemoryManagement {
  import opened Common
  import opened MemoryConfiguration

  datatype AllocationStrategy = Standard | PoolBased | CustomEmbedded

  /** The static strategy choice of `MemoryManager::new`. */
  function StrategyFor(appType: AppType): (s: AllocationStrategy)
    ensures s == PoolBased <==> appType == WebApp || appType == ApiBackend
    ensures s == Standard <==> appType == DesktopApp || appType == AutomationScript
    ensures s == CustomEmbedded <==> appType == EmbeddedSystem
  {
    match appType
    case WebApp | ApiBackend => PoolBased
    case DesktopApp => Standard
    case AutomationScript => Standard
    case EmbeddedSystem => CustomEmbedded
  }

  /** The error both operations return when the pool-based strategy has no pool. */
  const PoolUnavailable: CoreError := ResourceAllocationError("Pool non disponibile")

  /** `n` zeroed buffers of `size` bytes. */
  predicate FreshPool(q: seq<Buffer>, n: nat, size: nat) {
    |q| == n && forall k :: 0 <= k < |q| ==> q[k] == Zeros(size)
  }

  class MemoryManager {
    var allocationStrategy: AllocationStrategy
    /** The `VecDeque` of free buffers; its front is index 0. */
    var pool: Option<seq<Buffer>>
    var memoryConfig: MemoryConfig

    /** A pool exists exactly when the strategy is pool based. */
    ghost predicate Valid()
      reads this
    {
      allocationStrategy == PoolBased <==> pool.Some?
    }

    constructor Init(strategy: AllocationStrategy, pool: Option<seq<Buffer>>, memoryConfig: MemoryConfig)
      ensures this.allocationStrategy == strategy
      ensures this.pool == pool
      ensures this.memoryConfig == memoryConfig
    {
      this.allocationStrategy := strategy;
      this.pool := pool;
      this.memoryConfig := memoryConfig;
    }

    /** `MemoryManager::new(app_type, memory_config)`: never fails; only the pool-based
        strategy gets a pool, filled with `pool_size` zeroed buffers of `buffer_size` bytes. */
    static method New(appType: AppType, memoryConfig: MemoryConfig) returns (r: Result<MemoryManager, CoreError>)
      ensures r.Ok?
      ensures fresh(r.value)
      ensures r.value.allocationStrategy == StrategyFor(appType)
      ensures r.value.memoryConfig == memoryConfig
      ensures r.value.pool.Some? <==> StrategyFor(appType) == PoolBased
      ensures r.value.pool.Some? ==> FreshPool(r.value.pool.value, memoryConfig.poolSize, memoryConfig.bufferSize)
      ensures r.value.Valid()
    {
      var strategy := StrategyFor(appType);
      var pool: Option<seq<Buffer>>;
      if strategy == PoolBased {
        var q: seq<Buffer> := [];
        for i := 0 to memoryConfig.poolSize
          invariant FreshPool(q, i, memoryConfig.bufferSize)
        {
          q := q + [Zeros(memoryConfig.bufferSize)];
        }
        pool := Some(q);
      } else {
        pool := None;
      }
      var manager := new MemoryManager.Init(strategy, pool, memoryConfig);
      return Ok(manager);
    }

    /** `allocate(size)` */
    method Allocate(size: nat) returns (r: Result<Buffer, CoreError>)
      modifies this
      ensures allocationStrategy == old(allocationStrategy) && memoryConfig == old(memoryConfig)
      ensures allocationStrategy == Standard ==> r == Ok(Zeros(size)) && pool == old(pool)
      ensures allocationStrategy == PoolBased && old(pool).Some? && old(pool).value != [] ==>
        r == Ok(old(pool).value[0]) && pool == Some(old(pool).value[1..])
      ensures allocationStrategy == PoolBased && old(pool) == Some([]) ==>
        r == Ok(Zeros(size)) && pool == old(pool)
      ensures allocationStrategy == PoolBased && old(pool).None? ==>
        r == Err(PoolUnavailable) && pool == old(pool)
      ensures allocationStrategy == CustomEmbedded ==>
        r == Ok(Zeros(memoryConfig.bufferSize)) && pool == old(pool)
      ensures old(Valid()) ==> Valid() && r.Ok?
    {
      match allocationStrategy
      case Standard =>
        r := Ok(Zeros(size));
      case PoolBased =>
        if pool.Some? {
          if pool.value != [] {
            var buffer := pool.value[0];
            pool := Some(pool.value[1..]);
            r := Ok(buffer);
          } else {
            r := Ok(Zeros(size));
          }
        } else {
          r := Err(PoolUnavailable);
        }
      case CustomEmbedded =>
        r := Ok(Zeros(memoryConfig.bufferSize));
    }

    /** `deallocate(buffer)` */
    method Deallocate(buffer: Buffer) returns (r: Result<(), CoreError>)
      modifies this
      ensures allocationStrategy == old(allocationStrategy) && memoryConfig == old(memoryConfig)
      ensures allocationStrategy == PoolBased && old(pool).Some? ==>
        r == Ok(()) && pool == Some(old(pool).value + [buffer])
      ensures allocationStrategy == PoolBased && old(pool).None? ==>
        r == Err(PoolUnavailable) && pool == old(pool)
      ensures allocationStrategy != PoolBased ==> r == Ok(()) && pool == old(pool)
      ensures old(Valid()) ==> Valid() && r.Ok?
    {
      match allocationStrategy
      case Standard =>
        r := Ok(());
      case PoolBased =>
        if pool.Some? {
          pool := Some(pool.value + [buffer]);
          r := Ok(());
        } else {
          r := Err(PoolUnavailable);
        }
      case CustomEmbedded =>
        r := Ok(());
    }
  }

  /** The pool is first in, first out: two buffers handed back to an empty pool come out
      again in the order they were returned, and the pool is empty afterwards. */
  method PoolIsFifo(m: MemoryManager, first: Buffer, second: Buffer, size: nat) returns (a: Buffer, b: Buffer)
    requires m.allocationStrategy == PoolBased && m.pool == Some([])
    modifies m
    ensures a == first && b == second
    ensures m.pool == Some([])
  {
    var _ := m.Deallocate(first);
    assert [] + [first] == [first];
    var _ := m.Deallocate(second);
    assert [first] + [second] == [first, second];
    var x := m.Allocate(size);
    assert m.pool == Some([second]);
    var y := m.Allocate(size);
    a, b := x.value, y.value;
  }

  /** A freshly created pool hands out its `pool_size` pre-filled buffers before it falls
      back to fresh allocations of the requested size. */
  method DrainFreshPool(memoryConfig: MemoryConfig, size: nat) returns (handed: seq<Buffer>, extra: Buffer)
    ensures FreshPool(handed, memoryConfig.poolSize, memoryConfig.bufferSize)
    ensures extra == Zeros(size)
  {
    var r := MemoryManager.New(WebApp, memoryConfig);
    var m := r.value;
    handed := [];
    for i := 0 to memoryConfig.poolSize
      invariant m.allocationStrategy == PoolBased
      invariant m.pool.Some? && FreshPool(m.pool.value, memoryConfig.poolSize - i, memoryConfig.bufferSize)
      invariant FreshPool(handed, i, memoryConfig.bufferSize)
    {
      var b := m.Allocate(size);
      handed := handed + [b.value];
    }
    var e := m.Allocate(size);
    extra := e.value;
  }
}
