/** Process control blocks and the process state machine (proc.c). A process is named by its slot. */
module Proc {
  const MAX_PROCS: nat := 1024
  const MIN_PRIO: int := 0
  const MAX_PRIO: int := 39
  const LEVELS: nat := 4
  /** response of a process that was never dispatched. */
  const NO_RESPONSE: int := -1

  datatype State = New | Ready | Running | Blocked | Exited

  datatype Pcb = Pcb(
    state: State, priority: int, level: nat, cpu: nat, wait: nat, response: int, start: nat, finish: nat,
    lastReady: nat, wakeup: nat, exitCode: int)

  predicate ValidTransition(from: State, to: State) {
    match from
    case New => to == Ready || to == Exited
    case Ready => to == Running || to == Exited
    case Running => to == Ready || to == Blocked || to == Exited
    case Blocked => to == Ready || to == Exited
    case Exited => false
  }

  function Clamp(priority: int): (p: int)
    ensures MIN_PRIO <= p <= MAX_PRIO
  {
    if priority < MIN_PRIO then MIN_PRIO else if MAX_PRIO < priority then MAX_PRIO else priority
  }

  function NewPcb(priority: int, now: nat): Pcb {
    Pcb(New, Clamp(priority), 0, 0, 0, NO_RESPONSE, now, 0, now, 0, 0)
  }

  /** proc_set_state on a block for which the transition is valid. */
  function Moved(p: Pcb, to: State, now: nat): Pcb {
    p.(state := to,
       response := if to == Running && p.response == NO_RESPONSE then now - p.start else p.response,
       lastReady := if to == Ready then now else p.lastReady,
       finish := if to == Exited then now else p.finish)
  }

  function Dead(p: Pcb, code: int, now: nat): Pcb {
    p.(exitCode := code, finish := now, state := Exited, wakeup := 0)
  }

  ghost function ReadySet(ps: seq<Pcb>): (s: set<int>)
    ensures forall p :: p in s <==> 0 <= p < |ps| && ps[p].state == Ready
  {
    set p | 0 <= p < |ps| && ps[p].state == Ready
  }

  class ProcTable {
    var procs: seq<Pcb>

    constructor ()
      ensures procs == []
    {
      procs := [];
    }

    method Create(priority: int, now: nat) returns (pid: int)
      modifies this
      ensures pid < 0 <==> MAX_PROCS <= |old(procs)|
      ensures pid < 0 ==> pid == -1 && procs == old(procs)
      ensures 0 <= pid ==> pid == |old(procs)| && procs == old(procs) + [NewPcb(priority, now)]
    {
      if MAX_PROCS <= |procs| {
        return -1;
      }
      pid := |procs|;
      procs := procs + [NewPcb(priority, now)];
    }

    method SetState(pid: int, to: State, now: nat) returns (ok: bool)
      modifies this
      ensures ok <==> 0 <= pid < |old(procs)| && ValidTransition(old(procs)[pid].state, to)
      ensures procs == if ok then old(procs)[pid := Moved(old(procs)[pid], to, now)] else old(procs)
    {
      if pid < 0 || |procs| <= pid || !ValidTransition(procs[pid].state, to) {
        return false;
      }
      var p := procs[pid];
      if to == Running && p.response == NO_RESPONSE {
        p := p.(response := now - p.start);
      }
      if to == Ready {
        p := p.(lastReady := now);
      }
      if to == Exited {
        p := p.(finish := now);
      }
      procs := procs[pid := p.(state := to)];
      ok := true;
    }

    method MarkExited(pid: int, code: int, now: nat) returns (ok: bool)
      modifies this
      ensures ok <==> 0 <= pid < |old(procs)| && old(procs)[pid].state != Exited
      ensures procs == if ok then old(procs)[pid := Dead(old(procs)[pid], code, now)] else old(procs)
    {
      if pid < 0 || |procs| <= pid || procs[pid].state == Exited {
        return false;
      }
      procs := procs[pid := procs[pid].(exitCode := code, finish := now, state := Exited, wakeup := 0)];
      ok := true;
    }
  }
}
