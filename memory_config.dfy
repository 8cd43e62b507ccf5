/** `src/config/memory_config.rs` of ArxFramework: the memory settings of the framework. */
module MemoryConfiguration {
  import opened Common

  /** `pool_size` buffers of `buffer_size` bytes for the pool; `memory_scale` multiplies
      the size of model allocations. */
  datatype MemoryConfig = MemoryConfig(poolSize: nat, bufferSize: nat, memoryScale: u8)

  /** `MemoryConfig::default()`: ten buffers of 1024 bytes, scale one. */
  function Default(): (c: MemoryConfig)
    ensures c.poolSize == 10
    ensures c.bufferSize == 1024
    ensures c.memoryScale == 1
  {
    MemoryConfig(10, 1024, 1)
  }

  /** `MemoryConfig::new(pool_size, buffer_size, memory_scale)` */
  function New(poolSize: nat, bufferSize: nat, memoryScale: u8): (c: MemoryConfig)
    ensures c.poolSize == poolSize && c.bufferSize == bufferSize && c.memoryScale == memoryScale
  {
    MemoryConfig(poolSize, bufferSize, memoryScale)
  }

  /** `new` loses nothing: rebuilding any configuration from its fields gives it back, and
      `new(10, 1024, 1)` is the default. */
  lemma NewRebuilds(c: MemoryConfig)
    ensures New(c.poolSize, c.bufferSize, c.memoryScale) == c
    ensures New(10, 1024, 1) == Default()
  {
  }
}
