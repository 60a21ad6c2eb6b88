/** The coordinator's registry fields and the methods that update them. Each segment of a
  * coroutine between two awaits is one method. */
module RegistryGateCoordinator {
  import opened Models
  import G = RegistryGate

  class Coordinator {
    var registryAllowed: bool
    var commandGate: bool
    var terminalBlocked: bool
    var cleanupRequired: bool
    var cleanupGeneration: nat
    var servedGeneration: nat
    var started: bool
    var shutdown: bool
    var cleanupTask: Option<G.Loop>
    var startupLoop: Option<G.Loop>
    var terminalCleanups: set<nat>

    ghost function Fields(): G.Flags
      reads this
    {
      G.Flags(registryAllowed, commandGate, terminalBlocked, cleanupRequired, cleanupGeneration, servedGeneration,
              started, shutdown, terminalCleanups)
    }

    ghost function View(): G.Gate
      reads this
    {
      G.Gate(Fields(), cleanupTask, startupLoop)
    }

    constructor (allowed: bool)
      ensures View() == G.NewGate(allowed)
    {
      registryAllowed, commandGate, terminalBlocked, cleanupRequired := allowed, allowed, false, false;
      cleanupGeneration, servedGeneration, started, shutdown := 0, 0, false, false;
      cleanupTask, startupLoop, terminalCleanups := None, None, {};
    }

    method SetRegistryAllowed(allowed: bool)
      modifies this
      ensures View() == G.Step(old(View()), G.SetAllowed(allowed))
    {
      if shutdown || terminalBlocked {
        return;
      }
      registryAllowed := allowed;
      var wasRequired := cleanupRequired;
      if cleanupRequired {
        cleanupGeneration := cleanupGeneration + 1;
      }
      if allowed {
        if !cleanupRequired && cleanupTask.None? {
          commandGate := true;
        } else if started && cleanupTask.None? {
          cleanupTask := Some(G.NEW_LOOP);
        }
        return;
      }
      commandGate := false;
      if !cleanupRequired {
        cleanupGeneration := cleanupGeneration + 1;
      }
      cleanupRequired := true;
      if started && cleanupTask.None? {
        cleanupTask := Some(G.NEW_LOOP);
      }
    }

    /** Start up to the in-line cleanup. */
    method Start()
      modifies this
      ensures View() == G.Step(old(View()), G.Start)
    {
      if started || shutdown {
        return;
      }
      started := true;
      startupLoop := if cleanupRequired then Some(G.NEW_LOOP) else None;
    }

    /** The synchronous part of the terminal disable; the generation it captured. */
    method DisableAndClear() returns (generation: nat)
      modifies this
      ensures View() == G.Step(old(View()), G.Disable) && generation == cleanupGeneration
    {
      terminalBlocked := true;
      registryAllowed := false;
      commandGate := false;
      cleanupGeneration := cleanupGeneration + 1;
      generation := cleanupGeneration;
      cleanupRequired := true;
      terminalCleanups := terminalCleanups + {generation};
    }

    /** The end of a terminal cleanup; a failure, or a cancellation of its caller that was
      * held back until then, is raised again after any cleanup still required is scheduled. */
    method TerminalCleanupSettled(generation: nat, success: bool, cancelled: bool)
      requires generation in terminalCleanups
      modifies this
      ensures View() == G.Step(old(View()), G.TerminalSettled(generation, success, cancelled))
    {
      terminalCleanups := terminalCleanups - {generation};
      if success {
        servedGeneration := G.Larger(servedGeneration, generation);
        if generation == cleanupGeneration {
          cleanupRequired := false;
        }
      }
      if (!success || cancelled) && cleanupRequired && started && cleanupTask.None? {
        cleanupTask := Some(G.NEW_LOOP);
      }
    }

    /** The head of the cleanup loop, and its tail when nothing is left to do. */
    method LoopHead(l: G.Loop) returns (m: G.Loop)
      modifies this`commandGate
      ensures (Fields(), m) == G.Top(old(Fields()), l)
    {
      if cleanupRequired && !shutdown {
        return l.(captured := cleanupGeneration, attempt := 0, stage := G.Trying);
      }
      if registryAllowed && !terminalBlocked && !cleanupRequired && !shutdown {
        commandGate := true;
      }
      return l.(stage := G.Over);
    }

    /** What follows a cleanup transaction. */
    method AttemptFinished(l: G.Loop, success: bool) returns (m: G.Loop)
      modifies this`commandGate, this`cleanupRequired, this`servedGeneration
      ensures (Fields(), m) == G.Finish(old(Fields()), l, success)
    {
      m := l.(log := l.log + [l.captured]);
      if success {
        if l.captured == cleanupGeneration {
          cleanupRequired := false;
        }
        servedGeneration := G.Larger(servedGeneration, l.captured);
        m := LoopHead(m);
      } else if l.attempt >= G.LAST_ATTEMPT {
        servedGeneration := G.Larger(servedGeneration, l.captured);
        if l.captured != cleanupGeneration {
          m := LoopHead(m);
        } else {
          m := m.(stage := G.Raised);
        }
      } else {
        m := m.(stage := G.Sleeping);
      }
    }

    /** What follows the sleep between two attempts. */
    method Woken(l: G.Loop) returns (m: G.Loop)
      modifies this`commandGate
      ensures (Fields(), m) == G.Wake(old(Fields()), l)
    {
      if l.captured != cleanupGeneration {
        m := LoopHead(l);
      } else {
        m := l.(attempt := l.attempt + 1, stage := G.Trying);
      }
    }

    method CleanupDone()
      requires G.Ended(cleanupTask)
      modifies this
      ensures View() == G.Step(old(View()), G.Observed)
    {
      var raised := cleanupTask.value.stage == G.Raised;
      cleanupTask := None;
      if raised {
        cleanupRequired := true;
      } else if registryAllowed && !terminalBlocked && !cleanupRequired && !shutdown {
        commandGate := true;
      }
      if cleanupRequired && !shutdown && cleanupGeneration > servedGeneration && cleanupTask.None? {
        cleanupTask := Some(G.NEW_LOOP);
      }
    }

    /** The end of a shutdown, after its last cleanup transaction if one was required. */
    method ShutDown(success: bool)
      modifies this
      ensures View() == G.Step(old(View()), G.ShutDown(success))
    {
      if shutdown {
        return;
      }
      if cleanupRequired && success {
        cleanupRequired := false;
      }
      shutdown := true;
      started := false;
    }
  }
}
