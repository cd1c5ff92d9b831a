/**
 * The load and unload hooks of the AXI DMA driver (`axidma_init` and
 * `axidma_exit`, src/software/axidma/axi_dma.c lines 49-86), acting on the
 * static device record. The four subsystem entry points they call are foreign
 * code: each is modelled by an event appended to the record's ghost trace, and
 * the two initialisers also by the code they return (given as an input); the
 * two finalisers return nothing.
 */
module AxiDma {
  import opened Config
  import opened Lifecycle

  /** The codes `axidma_dma_init` and `axidma_chrdev_init` return during one load. */
  datatype Outcomes = Outcomes(dmaInit: i32, chrdevInit: i32)

  /** Whether an event writes one of the character-device fields of the record. */
  predicate IsDeviceWrite(e: Event) {
    e.SetChrdevName? || e.SetMinorNum? || e.SetNumDevices?
  }

  /**
   * What the load hook does, in order: record the memory configuration, bring
   * up DMA and stop on failure; record the device configuration, bring up the
   * character device and, on failure, take DMA down again.
   */
  function InitEvents(p: ModuleParams, o: Outcomes): seq<Event> {
    MemoryPhase(p, o)
    + (if o.dmaInit < 0 then [] else
         DevicePhase(p, o) + (if o.chrdevInit < 0 then [DmaExitCalled] else []))
  }

  /** Lines 54-57: record the memory configuration, then initialise DMA. */
  function MemoryPhase(p: ModuleParams, o: Outcomes): seq<Event> {
    [SetCmaLen(p.cma_region_size), SetMemSize(p.max_phys_mem), DmaInitCalled(o.dmaInit)]
  }

  /** Lines 63-68: record the device configuration, then initialise the character device. */
  function DevicePhase(p: ModuleParams, o: Outcomes): seq<Event> {
    [SetChrdevName(p.chrdev_name), SetMinorNum(p.minor_num), SetNumDevices(NUM_DEVICES),
     ChrdevInitCalled(o.chrdevInit)]
  }

  /** What the unload hook does: character device first, then DMA. */
  function ExitEvents(): seq<Event> {
    [ChrdevExitCalled, DmaExitCalled]
  }

  /** Bring-up succeeds when both initialisers return a non-negative code. */
  predicate Succeeds(o: Outcomes) {
    o.dmaInit >= 0 && o.chrdevInit >= 0
  }

  /** The memory phase runs only from nothing; it records the memory configuration and DMA comes up iff its init succeeds. */
  lemma MemoryPhaseEffect(s: State, p: ModuleParams, o: Outcomes)
    ensures Legal(s, MemoryPhase(p, o)) <==> !s.dmaUp && !s.chrdevUp
    ensures Replay(s, MemoryPhase(p, o))
            == State(s.fields.(cma_len := p.cma_region_size, mem_size := p.max_phys_mem),
                     o.dmaInit >= 0, s.chrdevUp)
  {
    var t := MemoryPhase(p, o);
    Snoc(s, [], t[0]);
    assert [] + [t[0]] == t[..1];
    Snoc(s, t[..1], t[1]);
    assert t[..1] + [t[1]] == t[..2];
    Snoc(s, t[..2], t[2]);
    assert t[..2] + [t[2]] == t;
  }

  /** The device phase runs only on top of DMA; it records the device configuration and the character device comes up iff its init succeeds. */
  lemma DevicePhaseEffect(s: State, p: ModuleParams, o: Outcomes)
    ensures Legal(s, DevicePhase(p, o)) <==> s.dmaUp && !s.chrdevUp
    ensures Replay(s, DevicePhase(p, o))
            == State(s.fields.(chrdev_name := Some(p.chrdev_name), minor_num := p.minor_num,
                               num_devices := NUM_DEVICES),
                     s.dmaUp, o.chrdevInit >= 0)
  {
    var t := DevicePhase(p, o);
    Snoc(s, [], t[0]);
    assert [] + [t[0]] == t[..1];
    Snoc(s, t[..1], t[1]);
    assert t[..1] + [t[1]] == t[..2];
    Snoc(s, t[..2], t[2]);
    assert t[..2] + [t[2]] == t[..3];
    Snoc(s, t[..3], t[3]);
    assert t[..3] + [t[3]] == t;
  }

  /** The load hook may run exactly when no subsystem is up. */
  lemma InitEventsLegal(s: State, p: ModuleParams, o: Outcomes)
    ensures Legal(s, InitEvents(p, o)) <==> !s.dmaUp && !s.chrdevUp
  {
    var a := MemoryPhase(p, o);
    var rest := InitEvents(p, o)[|a|..];
    assert InitEvents(p, o) == a + rest;
    LegalAppend(s, a, rest);
    MemoryPhaseEffect(s, p, o);
    if !s.dmaUp && !s.chrdevUp && o.dmaInit >= 0 {
      var s3 := Replay(s, a);
      var b := DevicePhase(p, o);
      var c: seq<Event> := if o.chrdevInit < 0 then [DmaExitCalled] else [];
      assert rest == b + c;
      DevicePhaseEffect(s3, p, o);
      LegalAppend(s3, b, c);
      if o.chrdevInit < 0 {
        Snoc(Replay(s3, b), [], DmaExitCalled);
        assert [] + [DmaExitCalled] == c;
      }
    }
  }

  /**
   * Where the load hook leaves the record: the memory configuration is
   * always recorded; the device configuration is recorded exactly when DMA
   * came up, and is otherwise untouched; both subsystems end up, or neither.
   */
  lemma InitEventsOutcome(s: State, p: ModuleParams, o: Outcomes)
    requires !s.dmaUp && !s.chrdevUp
    ensures var r := Replay(s, InitEvents(p, o));
            && r.dmaUp == Succeeds(o)
            && r.chrdevUp == Succeeds(o)
            && r.fields.cma_len == p.cma_region_size
            && r.fields.mem_size == p.max_phys_mem
            && (o.dmaInit < 0 ==>
                  r.fields.chrdev_name == s.fields.chrdev_name
                  && r.fields.minor_num == s.fields.minor_num
                  && r.fields.num_devices == s.fields.num_devices)
            && (o.dmaInit >= 0 ==>
                  r.fields.chrdev_name == Some(p.chrdev_name)
                  && r.fields.minor_num == p.minor_num
                  && r.fields.num_devices == NUM_DEVICES)
  {
    var a := MemoryPhase(p, o);
    MemoryPhaseEffect(s, p, o);
    if o.dmaInit < 0 {
      assert InitEvents(p, o) == a;
    } else {
      var s3 := Replay(s, a);
      var b := DevicePhase(p, o);
      var c: seq<Event> := if o.chrdevInit < 0 then [DmaExitCalled] else [];
      assert InitEvents(p, o) == a + (b + c);
      ReplayAppend(s, a, b + c);
      DevicePhaseEffect(s3, p, o);
      ReplayAppend(s3, b, c);
      if o.chrdevInit < 0 {
        Snoc(Replay(s3, b), [], DmaExitCalled);
        assert [] + [DmaExitCalled] == c;
      }
    }
  }

  /**
   * DMA init is called once, third, and sees the record with the memory
   * configuration written, the device configuration not yet touched, and
   * nothing up.
   */
  lemma DmaInitSeesMemoryConfig(s: State, p: ModuleParams, o: Outcomes)
    requires !s.dmaUp && !s.chrdevUp
    ensures var t := InitEvents(p, o);
            && t[2] == DmaInitCalled(o.dmaInit)
            && (forall i :: 0 <= i < |t| && t[i].DmaInitCalled? ==> i == 2)
    ensures var seen := Replay(s, InitEvents(p, o)[..2]);
            && !seen.dmaUp && !seen.chrdevUp
            && seen.fields == s.fields.(cma_len := p.cma_region_size, mem_size := p.max_phys_mem)
  {
    var a := MemoryPhase(p, o);
    assert InitEvents(p, o)[..2] == a[..2];
    Snoc(s, [], a[0]);
    assert [] + [a[0]] == a[..1];
    Snoc(s, a[..1], a[1]);
    assert a[..1] + [a[1]] == a[..2];
  }

  /**
   * Character-device init is called only when DMA init succeeded, once,
   * seventh, and sees the record with both the memory and the device
   * configuration written and DMA up.
   */
  lemma ChrdevInitSeesDeviceConfig(s: State, p: ModuleParams, o: Outcomes)
    requires !s.dmaUp && !s.chrdevUp
    ensures var t := InitEvents(p, o);
            forall i :: 0 <= i < |t| && t[i].ChrdevInitCalled? ==> o.dmaInit >= 0 && i == 6
    ensures o.dmaInit >= 0 ==>
            && InitEvents(p, o)[6] == ChrdevInitCalled(o.chrdevInit)
            && var seen := Replay(s, InitEvents(p, o)[..6]);
               && seen.dmaUp && !seen.chrdevUp
               && seen.fields == Fields(p.cma_region_size, p.max_phys_mem, Some(p.chrdev_name),
                                        p.minor_num, NUM_DEVICES)
  {
    if o.dmaInit >= 0 {
      var a := MemoryPhase(p, o);
      var b := DevicePhase(p, o)[..3];
      assert InitEvents(p, o)[..6] == a + b;
      ReplayAppend(s, a, b);
      MemoryPhaseEffect(s, p, o);
      var s3 := Replay(s, a);
      Snoc(s3, [], b[0]);
      assert [] + [b[0]] == b[..1];
      Snoc(s3, b[..1], b[1]);
      assert b[..1] + [b[1]] == b[..2];
      Snoc(s3, b[..2], b[2]);
      assert b[..2] + [b[2]] == b;
    }
  }

  /** When DMA init fails, nothing follows it: no device write and no character-device call. */
  lemma DmaFailureStopsEarly(p: ModuleParams, o: Outcomes)
    requires o.dmaInit < 0
    ensures var t := InitEvents(p, o);
            && t[|t| - 1] == DmaInitCalled(o.dmaInit)
            && forall i :: 0 <= i < |t| ==> !IsDeviceWrite(t[i]) && !t[i].ChrdevInitCalled? && !t[i].DmaExitCalled?
  {
  }

  /**
   * When character-device init fails, DMA exit is called right after it,
   * exactly once, and is the last thing the load hook does; the character
   * device is never finalised.
   */
  lemma ChrdevFailureRollsBack(p: ModuleParams, o: Outcomes)
    requires o.dmaInit >= 0 && o.chrdevInit < 0
    ensures var t := InitEvents(p, o);
            && |t| >= 2
            && t[|t| - 2] == ChrdevInitCalled(o.chrdevInit)
            && t[|t| - 1] == DmaExitCalled
            && (forall i :: 0 <= i < |t| && t[i] == DmaExitCalled ==> i == |t| - 1)
            && (forall i :: 0 <= i < |t| ==> t[i] != ChrdevExitCalled)
  {
  }

  /** When both succeed, the load hook ends with character-device init and calls no finaliser. */
  lemma SuccessCallsNoFinaliser(p: ModuleParams, o: Outcomes)
    requires Succeeds(o)
    ensures var t := InitEvents(p, o);
            && t[|t| - 1] == ChrdevInitCalled(o.chrdevInit)
            && (forall i :: 0 <= i < |t| ==> t[i] != DmaExitCalled && t[i] != ChrdevExitCalled)
  {
  }

  /**
   * The unload hook is legal exactly when both subsystems are up; it calls
   * each finaliser once, the character device's strictly first, leaves both
   * down and the record's fields as they were.
   */
  lemma ExitEventsEffect(s: State)
    ensures Legal(s, ExitEvents()) <==> s.dmaUp && s.chrdevUp
    ensures var r := Replay(s, ExitEvents());
            !r.dmaUp && !r.chrdevUp && r.fields == s.fields
    ensures multiset(ExitEvents())[ChrdevExitCalled] == 1
    ensures multiset(ExitEvents())[DmaExitCalled] == 1
    ensures forall i, j ::
              0 <= i < |ExitEvents()| && 0 <= j < |ExitEvents()|
              && ExitEvents()[i] == ChrdevExitCalled && ExitEvents()[j] == DmaExitCalled
              ==> i < j
  {
    var t := ExitEvents();
    Snoc(s, [], t[0]);
    assert [] + [t[0]] == t[..1];
    Snoc(s, t[..1], t[1]);
    assert t[..1] + [t[1]] == t;
  }

  /**
   * A whole module lifetime from the zero-filled record: load, and unload
   * only if loading returned success. The trace is legal, the character
   * device is never up without DMA at any point of it, and it ends with
   * nothing up.
   */
  lemma ModuleLifetime(p: ModuleParams, o: Outcomes)
    ensures var t := InitEvents(p, o) + (if Succeeds(o) then ExitEvents() else []);
            && Legal(Unloaded(), t)
            && (forall k :: 0 <= k <= |t| ==> Dependent(Replay(Unloaded(), t[..k])))
            && !Replay(Unloaded(), t).dmaUp
            && !Replay(Unloaded(), t).chrdevUp
  {
    var a := InitEvents(p, o);
    var b: seq<Event> := if Succeeds(o) then ExitEvents() else [];
    InitEventsLegal(Unloaded(), p, o);
    InitEventsOutcome(Unloaded(), p, o);
    ExitEventsEffect(Replay(Unloaded(), a));
    LegalAppend(Unloaded(), a, b);
    ReplayAppend(Unloaded(), a, b);
    LegalKeepsDependency(Unloaded(), a + b);
  }

  /**
   * The static `axidma_dev` record. Its ghost part says which subsystems are
   * up and keeps the trace of everything done to it since the module was
   * loaded; Valid() ties the fields and flags to the replay of that trace.
   */
  class AxidmaDevice {
    var cma_len: ulong
    var mem_size: ulong
    var chrdev_name: Option<string>
    var minor_num: i32
    var num_devices: i32
    ghost var dmaUp: bool
    ghost var chrdevUp: bool
    ghost var trace: seq<Event>

    ghost function Current(): State
      reads this
    {
      State(Fields(cma_len, mem_size, chrdev_name, minor_num, num_devices), dmaUp, chrdevUp)
    }

    ghost predicate Valid()
      reads this
    {
      Legal(Unloaded(), trace) && Replay(Unloaded(), trace) == Current()
    }

    /** The record as the kernel provides it before the load hook runs: zero-filled. */
    constructor ()
      ensures Valid() && trace == [] && Current() == Unloaded()
    {
      cma_len, mem_size, chrdev_name, minor_num, num_devices := 0, 0, None, 0, 0;
      dmaUp, chrdevUp := false, false;
      trace := [];
    }

    /** Appends an event whose effect on the state `before` the fields and flags already show. */
    ghost method Record(before: State, e: Event)
      requires Legal(Unloaded(), trace) && Replay(Unloaded(), trace) == before
      requires Allowed(before, e) && Current() == Step(before, e)
      modifies this`trace
      ensures Valid() && trace == old(trace) + [e]
    {
      Snoc(Unloaded(), trace, e);
      trace := trace + [e];
    }

    /** `axidma_dma_init(&axidma_dev)`: succeeds (brings DMA up) exactly when it returns a non-negative code. */
    method DmaInit(result: i32) returns (rc: i32)
      requires Valid() && !dmaUp && !chrdevUp
      modifies this`dmaUp, this`trace
      ensures Valid() && rc == result && dmaUp == (result >= 0)
      ensures trace == old(trace) + [DmaInitCalled(result)]
    {
      ghost var before := Current();
      dmaUp := result >= 0;
      Record(before, DmaInitCalled(result));
      rc := result;
    }

    /** `axidma_chrdev_init(&axidma_dev)`: needs DMA up; succeeds exactly when it returns a non-negative code. */
    method ChrdevInit(result: i32) returns (rc: i32)
      requires Valid() && dmaUp && !chrdevUp
      modifies this`chrdevUp, this`trace
      ensures Valid() && rc == result && chrdevUp == (result >= 0)
      ensures trace == old(trace) + [ChrdevInitCalled(result)]
    {
      ghost var before := Current();
      chrdevUp := result >= 0;
      Record(before, ChrdevInitCalled(result));
      rc := result;
    }

    /** `axidma_dma_exit(&axidma_dev)`: releases DMA once the character device is gone; cannot fail. */
    method DmaExit()
      requires Valid() && dmaUp && !chrdevUp
      modifies this`dmaUp, this`trace
      ensures Valid() && !dmaUp
      ensures trace == old(trace) + [DmaExitCalled]
    {
      ghost var before := Current();
      dmaUp := false;
      Record(before, DmaExitCalled);
    }

    /** `axidma_chrdev_exit(&axidma_dev)`: unregisters the character device; cannot fail. */
    method ChrdevExit()
      requires Valid() && chrdevUp
      modifies this`chrdevUp, this`trace
      ensures Valid() && !chrdevUp
      ensures trace == old(trace) + [ChrdevExitCalled]
    {
      ghost var before := Current();
      chrdevUp := false;
      Record(before, ChrdevExitCalled);
    }

    /** Lines 54-55: the memory configuration, written before DMA init. */
    method SetMemoryConfig(p: ModuleParams)
      requires Valid() && !dmaUp && !chrdevUp
      modifies this`cma_len, this`mem_size, this`trace
      ensures Valid() && cma_len == p.cma_region_size && mem_size == p.max_phys_mem
      ensures trace == old(trace) + [SetCmaLen(p.cma_region_size), SetMemSize(p.max_phys_mem)]
    {
      ghost var s0 := Current();
      cma_len := p.cma_region_size;
      Record(s0, SetCmaLen(p.cma_region_size));
      ghost var s1 := Current();
      mem_size := p.max_phys_mem;
      Record(s1, SetMemSize(p.max_phys_mem));
    }

    /** Lines 63-65: the device configuration, written once DMA is up and before chrdev init. */
    method SetDeviceConfig(p: ModuleParams)
      requires Valid() && dmaUp && !chrdevUp
      modifies this`chrdev_name, this`minor_num, this`num_devices, this`trace
      ensures Valid()
      ensures chrdev_name == Some(p.chrdev_name) && minor_num == p.minor_num && num_devices == NUM_DEVICES
      ensures trace == old(trace) + [SetChrdevName(p.chrdev_name), SetMinorNum(p.minor_num), SetNumDevices(NUM_DEVICES)]
    {
      ghost var s0 := Current();
      chrdev_name := Some(p.chrdev_name);
      Record(s0, SetChrdevName(p.chrdev_name));
      ghost var s1 := Current();
      minor_num := p.minor_num;
      Record(s1, SetMinorNum(p.minor_num));
      ghost var s2 := Current();
      num_devices := NUM_DEVICES;
      Record(s2, SetNumDevices(NUM_DEVICES));
    }

    /**
     * `axidma_init`, the load hook. It runs on a record with nothing up.
     * It returns DMA init's code when that is negative, otherwise chrdev
     * init's code when that is negative (after taking DMA down again),
     * otherwise 0; it returns a negative code exactly when it does not leave
     * both subsystems up, and it never leaves only one of them up.
     */
    method Init(p: ModuleParams, o: Outcomes) returns (rc: i32)
      requires Valid() && !dmaUp && !chrdevUp
      modifies this
      ensures Valid() && trace == old(trace) + InitEvents(p, o)
      ensures cma_len == p.cma_region_size && mem_size == p.max_phys_mem
      ensures o.dmaInit < 0 ==> rc == o.dmaInit
      ensures o.dmaInit < 0 ==>
                chrdev_name == old(chrdev_name) && minor_num == old(minor_num)
                && num_devices == old(num_devices)
      ensures o.dmaInit >= 0 ==>
                chrdev_name == Some(p.chrdev_name) && minor_num == p.minor_num
                && num_devices == NUM_DEVICES
      ensures o.dmaInit >= 0 && o.chrdevInit < 0 ==> rc == o.chrdevInit
      ensures Succeeds(o) ==> rc == 0
      ensures rc < 0 <==> !(dmaUp && chrdevUp)
      ensures dmaUp == chrdevUp
    {
      ghost var t0 := trace;
      SetMemoryConfig(p);
      ghost var tm := trace;
      rc := DmaInit(o.dmaInit);
      ghost var t1 := trace;
      Assoc3(t0, [SetCmaLen(p.cma_region_size), SetMemSize(p.max_phys_mem)], [DmaInitCalled(o.dmaInit)]);
      assert t1 == t0 + MemoryPhase(p, o);
      if rc < 0 {
        return;
      }

      SetDeviceConfig(p);
      rc := ChrdevInit(o.chrdevInit);
      Assoc3(t1, [SetChrdevName(p.chrdev_name), SetMinorNum(p.minor_num), SetNumDevices(NUM_DEVICES)], [ChrdevInitCalled(o.chrdevInit)]);
      ghost var t2 := trace;
      assert t2 == t1 + DevicePhase(p, o);
      Assoc3(t0, MemoryPhase(p, o), DevicePhase(p, o));
      if rc < 0 {
        DmaExit();
        Assoc3(t0 + MemoryPhase(p, o), DevicePhase(p, o), [DmaExitCalled]);
        Assoc3(t0, MemoryPhase(p, o), DevicePhase(p, o) + [DmaExitCalled]);
        return;
      }

      rc := 0;
    }

    /**
     * `axidma_exit`, the unload hook. It runs only after a successful load,
     * finalises the character device and then DMA, reports nothing, and
     * leaves the record's fields as they were.
     */
    method Exit()
      requires Valid() && dmaUp && chrdevUp
      modifies this`dmaUp, this`chrdevUp, this`trace
      ensures Valid() && !dmaUp && !chrdevUp
      ensures trace == old(trace) + ExitEvents()
    {
      ChrdevExit();
      DmaExit();
    }
  }

  /** A valid record never has the character device up without DMA. */
  lemma ValidRecordIsDependent(d: AxidmaDevice)
    requires d.Valid()
    ensures d.chrdevUp ==> d.dmaUp
  {
    LegalKeepsDependency(Unloaded(), d.trace);
    assert d.trace[..|d.trace|] == d.trace;
  }
}
