/** What a pcb keeps of a process that does not run (phase2/exceptions.c:100-133): the saved
    processor state, the processor time used so far, and the support structure. */
module Contexts {
  import opened Sequences
  import opened SemaphoreLists
  import opened NucleusState
  import opened ProcessQueues

  const WORDLEN := 4
  const TIME_SLICE := 5000
  const V0 := 1    // places of registers in a saved state
  const A1 := 4
  const T9 := 24
  const SP := 26

  datatype Context = Context(cpu: Cpu, time: int, support: int)

  const BLANK := Context(CLEARED, 0, NULL_ADDR)

  /** The state to resume in after a system call: the program counter is past it. */
  function Past(cpu: Cpu): Cpu { cpu.(pc := (cpu.pc + WORDLEN) % 0x1_0000_0000) }

  function WithV0(cpu: Cpu, v0: int): Cpu { cpu.(reg := cpu.reg[V0 := v0]) }

  function WithA1(cpu: Cpu, a1: int): Cpu { cpu.(reg := cpu.reg[A1 := a1]) }

  /** Processor time since the timer was loaded, from what it shows now. */
  function Spent(timer: int): int { TIME_SLICE - timer }

  function ContextOf(p: Pcb): Context
    reads p`cpu, p`time, p`support
  {
    Context(p.cpu, p.time, p.support)
  }

  type Contexts = imap<Pid, Context>

  ghost predicate Total(saved: Contexts) { forall p: Pid :: p in saved }

  ghost function ContextsOf(t: seq<Pcb>): (saved: Contexts)
    requires |t| == MAXPROC
    reads Nodes(t)`cpu, Nodes(t)`time, Nodes(t)`support
    ensures Total(saved)
  {
    imap p: Pid :: ContextOf(t[p])
  }

  /** The state that is loaded when the scheduler has dispatched the process that now runs. */
  ghost function DispatchedIn(s: Nucleus, saved: Contexts): Option<Cpu>
    requires Total(saved)
  {
    match s.current
    case None => None
    case Some(c) => Some(saved[c].cpu)
  }

  /** The account of `p` after it ran until the timer showed `timer`. */
  ghost function Charged(saved: Contexts, p: Pid, timer: int): (r: Contexts)
    requires Total(saved)
    ensures Total(r)
  {
    saved[p := saved[p].(time := saved[p].time + Spent(timer))]
  }

  /** `p` has given up the processor then, to resume in state `cpu`. */
  ghost function Stopped(saved: Contexts, p: Pid, cpu: Cpu, timer: int): (r: Contexts)
    requires Total(saved)
    ensures Total(r)
  {
    saved[p := Context(cpu, saved[p].time + Spent(timer), saved[p].support)]
  }

  /** `p` is a new process. */
  ghost function Created(saved: Contexts, p: Pid, cpu: Cpu, support: int): (r: Contexts)
    requires Total(saved)
    ensures Total(r)
  {
    saved[p := Context(cpu, 0, if support == 0 then NULL_ADDR else support)]
  }

  /** `p` finds `v0` in its register v0. */
  ghost function Told(saved: Contexts, p: Pid, v0: int): (r: Contexts)
    requires Total(saved)
    ensures Total(r)
  {
    saved[p := saved[p].(cpu := WithV0(saved[p].cpu, v0))]
  }
}
