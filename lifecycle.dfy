/**
 * The device record of the AXI DMA driver and the trace of what the load and
 * unload hooks do to it: writes to its fields and calls into the two
 * subsystems (DMA, character device). Replaying a trace gives the record and
 * which subsystems are up; a trace is legal when every call is made in a
 * state the subsystem's lifecycle allows.
 */
module Lifecycle {
  import opened Config

  /** The fields of `struct axidma_device` that the top level writes. */
  datatype Fields = Fields(
    cma_len: ulong,
    mem_size: ulong,
    chrdev_name: Option<string>,   // None stands for the NULL pointer
    minor_num: i32,
    num_devices: i32)

  /** The record together with which subsystems currently hold resources. */
  datatype State = State(fields: Fields, dmaUp: bool, chrdevUp: bool)

  /** A static record starts zero-filled, with nothing brought up. */
  function Unloaded(): State {
    State(Fields(0, 0, None, 0, 0), false, false)
  }

  datatype Event =
    | SetCmaLen(len: ulong)
    | SetMemSize(size: ulong)
    | SetChrdevName(name: string)
    | SetMinorNum(minor: i32)
    | SetNumDevices(count: i32)
    | DmaInitCalled(rc: i32)       // axidma_dma_init returned rc
    | ChrdevInitCalled(rc: i32)    // axidma_chrdev_init returned rc
    | DmaExitCalled
    | ChrdevExitCalled

  /**
   * The effect of one event. An initialiser that returns a negative code
   * leaves its subsystem down (it cleans up after itself); one that returns
   * any non-negative code brings it up. A finaliser always takes it down.
   */
  function Step(s: State, e: Event): State {
    match e
    case SetCmaLen(v) => s.(fields := s.fields.(cma_len := v))
    case SetMemSize(v) => s.(fields := s.fields.(mem_size := v))
    case SetChrdevName(n) => s.(fields := s.fields.(chrdev_name := Some(n)))
    case SetMinorNum(m) => s.(fields := s.fields.(minor_num := m))
    case SetNumDevices(c) => s.(fields := s.fields.(num_devices := c))
    case DmaInitCalled(rc) => s.(dmaUp := rc >= 0)
    case ChrdevInitCalled(rc) => s.(chrdevUp := rc >= 0)
    case DmaExitCalled => s.(dmaUp := false)
    case ChrdevExitCalled => s.(chrdevUp := false)
  }

  /**
   * When an event may happen. The memory configuration is fixed once DMA is
   * up and the device configuration once the character device is up; DMA is
   * initialised only from nothing, the character device only on top of DMA,
   * and DMA is finalised only once the character device is gone.
   */
  predicate Allowed(s: State, e: Event) {
    match e
    case SetCmaLen(_) => !s.dmaUp
    case SetMemSize(_) => !s.dmaUp
    case SetChrdevName(_) => !s.chrdevUp
    case SetMinorNum(_) => !s.chrdevUp
    case SetNumDevices(_) => !s.chrdevUp
    case DmaInitCalled(_) => !s.dmaUp && !s.chrdevUp
    case ChrdevInitCalled(_) => s.dmaUp && !s.chrdevUp
    case DmaExitCalled => s.dmaUp && !s.chrdevUp
    case ChrdevExitCalled => s.chrdevUp
  }

  /** The character device is up only on top of DMA. */
  predicate Dependent(s: State) {
    s.chrdevUp ==> s.dmaUp
  }

  function Replay(s: State, t: seq<Event>): State
    decreases |t|
  {
    if t == [] then s else Step(Replay(s, t[..|t| - 1]), t[|t| - 1])
  }

  predicate Legal(s: State, t: seq<Event>)
    decreases |t|
  {
    t == [] || (Legal(s, t[..|t| - 1]) && Allowed(Replay(s, t[..|t| - 1]), t[|t| - 1]))
  }

  /** One more event: how replay and legality extend. */
  lemma Snoc(s: State, t: seq<Event>, e: Event)
    ensures Replay(s, t + [e]) == Step(Replay(s, t), e)
    ensures Legal(s, t + [e]) <==> Legal(s, t) && Allowed(Replay(s, t), e)
  {
    assert (t + [e])[..|t|] == t;
  }

  /** Regrouping appended traces. */
  lemma Assoc3(a: seq<Event>, b: seq<Event>, c: seq<Event>)
    ensures (a + b) + c == a + (b + c)
  {
  }

  /** Replaying two traces one after the other is replaying their concatenation. */
  lemma {:induction false} ReplayAppend(s: State, a: seq<Event>, b: seq<Event>)
    ensures Replay(s, a + b) == Replay(Replay(s, a), b)
    decreases |b|
  {
    if b == [] {
      assert a + b == a;
    } else {
      var b' := b[..|b| - 1];
      assert a + b == (a + b') + [b[|b| - 1]];
      assert b == b' + [b[|b| - 1]];
      Snoc(s, a + b', b[|b| - 1]);
      Snoc(Replay(s, a), b', b[|b| - 1]);
      ReplayAppend(s, a, b');
    }
  }

  /** A concatenation is legal exactly when its first part is, and the second is from where the first ends. */
  lemma {:induction false} LegalAppend(s: State, a: seq<Event>, b: seq<Event>)
    ensures Legal(s, a + b) <==> Legal(s, a) && Legal(Replay(s, a), b)
    decreases |b|
  {
    if b == [] {
      assert a + b == a;
    } else {
      var b' := b[..|b| - 1];
      assert a + b == (a + b') + [b[|b| - 1]];
      assert b == b' + [b[|b| - 1]];
      Snoc(s, a + b', b[|b| - 1]);
      Snoc(Replay(s, a), b', b[|b| - 1]);
      ReplayAppend(s, a, b');
      LegalAppend(s, a, b');
    }
  }

  /**
   * No legal trace ever has the character device up while DMA is down, at
   * any point of the trace, provided it starts from a state where the
   * character device is not up without DMA.
   */
  lemma {:induction false} LegalKeepsDependency(s: State, t: seq<Event>)
    requires Dependent(s) && Legal(s, t)
    ensures forall k :: 0 <= k <= |t| ==> Dependent(Replay(s, t[..k]))
    decreases |t|
  {
    if t != [] {
      var t' := t[..|t| - 1];
      LegalKeepsDependency(s, t');
      forall k | 0 <= k <= |t|
        ensures Dependent(Replay(s, t[..k]))
      {
        if k < |t| {
          assert t[..k] == t'[..k];
        } else {
          assert t[..k] == t;
          assert t'[..|t'|] == t';
        }
      }
    }
  }
}
