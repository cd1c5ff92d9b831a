# AXI DMA driver: load and unload coordinator

This project models the top level of the Xilinx AXI DMA Linux driver. That is
the module's load hook `axidma_init` and its unload hook `axidma_exit`, both in
`src/software/axidma/axi_dma.c`. The module keeps one static device record,
`axidma_dev`. At load time it:

1. copies the `cma_region_size` and `max_phys_mem` parameters into the record;
2. brings up the DMA subsystem (`axidma_dma_init`) and returns its code if that
   code is negative;
3. copies `chrdev_name`, `minor_num` and the constant `NUM_DEVICES` into the
   record;
4. brings up the character device (`axidma_chrdev_init`). If that fails, it
   takes DMA down again (`axidma_dma_exit`) and returns the character device's
   code;
5. returns 0 otherwise.

At unload time it finalises the character device and then DMA, and reports
nothing.

The model has three modules:

- `Config` (config.dfy): the C integer types as newtypes (`i32`, `ulong`), the
  configuration defaults, and the four module parameters. Each parameter holds
  its default unless a value is supplied at load time.
- `Lifecycle` (lifecycle.dfy): the record's fields and the events the hooks
  produce. An event is either a write to one field or a call into a subsystem,
  together with the code the call returned. `Replay` folds a trace into the
  resulting record and the "DMA up" / "character device up" flags. `Legal`
  says that every call in the trace happened in a state the subsystems'
  lifecycle allows. Lemmas cover appending traces and show that a legal trace
  starting from a state where the character device is not up without DMA
  never reaches one where it is.
- `AxiDma` (axi_dma.dfy): the class `AxidmaDevice` for the static record. It
  holds the five fields the hooks write, two ghost flags and a ghost trace.
  `Valid()` ties the fields and flags to the replay of the trace. The methods
  `Init` and `Exit` model the two hooks. The four subsystem entry points are
  methods. The two initialisers take the code they return as an input (the
  `Outcomes` datatype for `Init`); the two finalisers return nothing.
  The functions `InitEvents` and `ExitEvents` give the trace that each hook
  appends, and lemmas state what those traces do.

The configuration defaults `MEMORY_SIZE`, `CMA_REGION_SIZE`, `CHRDEV_NAME`,
`MINOR_NUMBER` and `NUM_DEVICES` are defined in `axidma.h`, which is not part
of this model. They are declared as constants with no value. The comments in
axi_dma.c document the first four as 512 MB, 100 MB, "axidma" and 0.
`NUM_DEVICES` has no documented value.

The model follows the code as written:

- When loading fails, the code does not restore the record to an empty state.
  `cma_len` and `mem_size` are always left written. When the character device
  fails, its three fields are left written as well. Only the subsystems are
  taken down.
- The code does no validation of its own. A negative code from a subsystem is
  the only failure signal, and any non-negative code counts as success. A
  positive code is turned into 0.
- `axi_dma.c` writes no handle field into the record. Both initialisers receive
  the record's address, so they may keep their own state in it (in fields
  declared in `axidma.h`). The ghost flags stand for whatever state each
  subsystem keeps while it is up; the subsystem calls set and clear them.

## Model

| member | source | states |
|---|---|---|
| `Config.NoOverridesGiveDefaults` | src/software/axidma/axi_dma.c:26-43 | with nothing supplied, the parameters are `MEMORY_SIZE`, `CMA_REGION_SIZE`, `CHRDEV_NAME`, `MINOR_NUMBER` |
| `Config.OverrideIsIndependent` | src/software/axidma/axi_dma.c:26-43 | each of the four parameters can be overridden on its own: supplying a value for one sets that parameter to the value and leaves the other three as they were |
| `Lifecycle.LegalKeepsDependency` | src/software/axidma/axi_dma.c:57-72 | in every legal trace that starts with the character device not up without DMA, no point of the trace has the character device up while DMA is down |
| `AxiDma.MemoryPhaseEffect` | src/software/axidma/axi_dma.c:54-58 | the memory phase is legal exactly when nothing is up; it writes `cma_len := cma_region_size` and `mem_size := max_phys_mem`, leaves the other fields alone, and DMA is up afterwards exactly when its init returned a non-negative code |
| `AxiDma.DevicePhaseEffect` | src/software/axidma/axi_dma.c:63-69 | the device phase is legal exactly when DMA is up and the character device is not; it writes the name, the minor number and `NUM_DEVICES`, and the character device is up afterwards exactly when its init returned a non-negative code |
| `AxiDma.InitEventsLegal` | src/software/axidma/axi_dma.c:49-75 | the load hook's trace is legal exactly when neither subsystem is up beforehand, so bring-up can only start from the unloaded state |
| `AxiDma.InitEventsOutcome` | src/software/axidma/axi_dma.c:49-75 | after the load hook, both subsystems are up when both inits return non-negative codes, and neither is up otherwise; the memory configuration is always written; the device configuration is written exactly when DMA init succeeded, and is otherwise unchanged |
| `AxiDma.DmaInitSeesMemoryConfig` | src/software/axidma/axi_dma.c:53-57 | DMA init is called exactly once, as the third event. It sees `cma_len == cma_region_size` and `mem_size == max_phys_mem`, the device fields untouched, and nothing up |
| `AxiDma.ChrdevInitSeesDeviceConfig` | src/software/axidma/axi_dma.c:62-68 | character-device init is called only when DMA init succeeded, and then exactly once, as the seventh event. It sees DMA up and all five fields set from the parameters and `NUM_DEVICES` |
| `AxiDma.DmaFailureStopsEarly` | src/software/axidma/axi_dma.c:57-60 | when DMA init returns a negative code, it is the last event: no device-field write, no character-device init and no DMA exit follow |
| `AxiDma.ChrdevFailureRollsBack` | src/software/axidma/axi_dma.c:68-72 | when character-device init fails, the trace ends with that init followed by DMA exit; DMA exit occurs exactly once and the character-device finaliser never |
| `AxiDma.SuccessCallsNoFinaliser` | src/software/axidma/axi_dma.c:68-74 | when both inits succeed, the trace ends with character-device init and contains no finaliser call |
| `AxiDma.ExitEventsEffect` | src/software/axidma/axi_dma.c:77-86 | the unload trace is legal exactly when both subsystems are up. It calls each finaliser exactly once, the character device's strictly before DMA's, leaves both down and leaves the fields unchanged |
| `AxiDma.ModuleLifetime` | src/software/axidma/axi_dma.c:49-86 | the module's lifetime starts from the zero-filled record: load, then unload only if load returned success. That trace is legal, never has the character device up without DMA, and ends with nothing up |
| `AxiDma.ValidRecordIsDependent` | src/software/axidma/axi_dma.c:57-72 | a record consistent with its trace never has the character device up without DMA |
| `AxiDma.AxidmaDevice.constructor` | src/software/axidma/axi_dma.c:20 | the static record starts zero-filled (NULL name), with nothing up and an empty trace |
| `AxiDma.AxidmaDevice.DmaInit` | src/software/axidma/axi_dma.c:57 | called only when nothing is up; returns the collaborator's code; DMA is up afterwards exactly when that code is non-negative; one event is appended |
| `AxiDma.AxidmaDevice.ChrdevInit` | src/software/axidma/axi_dma.c:68 | called only on top of DMA; returns the collaborator's code; the character device is up afterwards exactly when that code is non-negative |
| `AxiDma.AxidmaDevice.DmaExit` | src/software/axidma/axi_dma.c:83 | called only while DMA is up and the character device is down; takes DMA down and cannot fail |
| `AxiDma.AxidmaDevice.ChrdevExit` | src/software/axidma/axi_dma.c:80 | takes the character device down and cannot fail |
| `AxiDma.AxidmaDevice.SetMemoryConfig` | src/software/axidma/axi_dma.c:53-55 | writes `cma_len` and `mem_size` from the parameters and nothing else; the record's invariant is kept |
| `AxiDma.AxidmaDevice.SetDeviceConfig` | src/software/axidma/axi_dma.c:62-65 | writes `chrdev_name`, `minor_num` and `num_devices := NUM_DEVICES` and nothing else |
| `AxiDma.AxidmaDevice.Init` | src/software/axidma/axi_dma.c:49-75 | appends exactly `InitEvents`. Returns DMA init's code if it is negative, and the device fields are then unchanged. Otherwise it returns chrdev init's code if that is negative, and otherwise 0, with the device fields set. It returns a negative code exactly when the two subsystems are not both up, and never leaves only one of them up |
| `AxiDma.AxidmaDevice.Exit` | src/software/axidma/axi_dma.c:77-86 | appends exactly the character-device exit followed by the DMA exit, leaves both subsystems down, leaves every field unchanged, and returns nothing |

## Left out

- The bodies of `axidma_dma_init`, `axidma_dma_exit`, `axidma_chrdev_init` and `axidma_chrdev_exit` are not part of this model. They are foreign code (CMA reservation, DMA engine setup, character-device registration). Each initialiser is modelled only by the code it returns, which is an input, and each of the four calls by its effect on the two ghost flags. That effect is the assumed contract of the foreign code: an initialiser that returns a negative code leaves its subsystem down, because it cleans up after itself; one that returns a non-negative code brings its subsystem up; a finaliser always takes its subsystem down and cannot fail. What the model proves about a failed load (nothing left up) rests on this assumption.
- The struct `axidma_device` lives in `axidma.h`, which is not part of this model. Only the five fields the hooks write are modelled. The model assumes the subsystems do not write those five fields.
- `module_param` parsing and the `S_IRUGO` permission flags (lines 29-43), the `module_init`/`module_exit` registration (lines 88-89) and the `MODULE_*` metadata (lines 91-96) are kernel machinery. A supplied value is modelled as an `Overrides` field.
- The values of `MEMORY_SIZE`, `CMA_REGION_SIZE`, `CHRDEV_NAME`, `MINOR_NUMBER` and `NUM_DEVICES` are not visible, so they stay symbolic.
- `unsigned long` is modelled with 64 bits. On a 32-bit board it is 32 bits wide. The hooks only copy these values, so the width changes nothing.
- `chrdev_name` is a pointer to the parameter's string. The model copies the string value and does not model aliasing of that storage.
- Concurrency is out of scope: the kernel never runs the load and unload hooks at the same time.
- The requires clauses of `AxiDma.AxidmaDevice.Init` and `AxiDma.AxidmaDevice.Exit` encode only the order of the hooks. The load hook runs only while nothing is up, and the unload hook only while both subsystems are up, that is, after a successful load. They do not rule out calling the load hook twice on one record, such as after a failed load or after an unload. In the kernel, each load of the module gets a fresh zero-filled record. `AxiDma.ModuleLifetime` states that single lifetime: load from the zero-filled record, then unload if the load succeeded.
- `AxiDma.AxidmaDevice.Exit` requires both subsystems to be up, because the kernel runs the unload hook only after the load hook returned 0. Calling the finalisers on a record that was never brought up is not modelled.
- Whether `cma_region_size` matches the `mem=` boot parameter (comment at line 33) is not checked. The coordinator cannot see that setting.
