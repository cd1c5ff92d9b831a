/**
 * Machine types, configuration defaults and the module parameters of the
 * AXI DMA driver's top level (src/software/axidma/axi_dma.c, lines 26-43).
 */
module Config {

  datatype Option<T> = None | Some(value: T)

  /** C `int`: the collaborators' return codes, the minor number and the device count. */
  newtype i32 = x: int | -0x8000_0000 <= x < 0x8000_0000

  /** C `unsigned long`, taken at its widest (64 bits); the coordinator only copies these values. */
  newtype ulong = x: int | 0 <= x < 0x1_0000_0000_0000_0000

  // The defaults come from axidma.h, which is not part of this model, so they
  // are left symbolic. The comments of axi_dma.c document them as follows.

  /** Memory available on the board; documented as 512 MB (the Zedboard). */
  const MEMORY_SIZE: ulong
  /** Size of the contiguous region reserved for DMA; documented as 100 MB. */
  const CMA_REGION_SIZE: ulong
  /** Name of the character device; documented as "axidma". */
  const CHRDEV_NAME: string
  /** Minor number of the character device; documented as 0. */
  const MINOR_NUMBER: i32
  /** Number of character devices the module exposes (not a parameter). */
  const NUM_DEVICES: i32

  /** The four load-time parameters `max_phys_mem`, `cma_region_size`, `chrdev_name`, `minor_num`. */
  datatype ModuleParams = ModuleParams(
    max_phys_mem: ulong,
    cma_region_size: ulong,
    chrdev_name: string,
    minor_num: i32)

  /** The values given on the module's load command line, each one optional. */
  datatype Overrides = Overrides(
    max_phys_mem: Option<ulong>,
    cma_region_size: Option<ulong>,
    chrdev_name: Option<string>,
    minor_num: Option<i32>)

  function NoOverrides(): Overrides {
    Overrides(None, None, None, None)
  }

  /** The parameters as the static initialisers give them. */
  function Defaults(): ModuleParams {
    ModuleParams(MEMORY_SIZE, CMA_REGION_SIZE, CHRDEV_NAME, MINOR_NUMBER)
  }

  function Pick<T>(given: Option<T>, default: T): T {
    match given
    case Some(v) => v
    case None => default
  }

  /**
   * The parameter values seen by the load hook: each parameter starts at its
   * default and is replaced, independently of the others, when the loader
   * supplies a value for it.
   */
  function LoadParams(ov: Overrides): ModuleParams
  {
    ModuleParams(
      Pick(ov.max_phys_mem, MEMORY_SIZE),
      Pick(ov.cma_region_size, CMA_REGION_SIZE),
      Pick(ov.chrdev_name, CHRDEV_NAME),
      Pick(ov.minor_num, MINOR_NUMBER))
  }

  /** With nothing supplied at load time, every parameter holds its default. */
  lemma NoOverridesGiveDefaults()
    ensures LoadParams(NoOverrides()) == Defaults()
  {
  }

  /**
   * Each parameter can be overridden on its own: supplying a value for one
   * parameter sets that parameter to the value and leaves the other three as
   * they were.
   */
  lemma OverrideIsIndependent(ov: Overrides, mem: ulong, size: ulong, name: string, minor: i32)
    ensures LoadParams(ov.(max_phys_mem := Some(mem))) == LoadParams(ov).(max_phys_mem := mem)
    ensures LoadParams(ov.(cma_region_size := Some(size))) == LoadParams(ov).(cma_region_size := size)
    ensures LoadParams(ov.(chrdev_name := Some(name))) == LoadParams(ov).(chrdev_name := name)
    ensures LoadParams(ov.(minor_num := Some(minor))) == LoadParams(ov).(minor_num := minor)
  {
  }
}
