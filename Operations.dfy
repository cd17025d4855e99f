/** The operations wizard store (src/store/useOperationsStore.ts): whether
    the wizard is open, which of its three steps is shown, the raw
    directive typed in the first step and what was parsed from it. */
module Operations {
  datatype OperationStep = Initialize | Entropy | Protocol

  /** The store's fields as one value. */
  datatype OpsState = OpsState(isOpen: bool, step: OperationStep, directive: string, parsedName: string, parsedPriority: string)

  const DefaultPriority := "MED_02"

  /** The state a freshly opened wizard starts from. */
  const Reopened := OpsState(true, Initialize, "", "", DefaultPriority)

  class OperationsStore {
    var isOpen: bool
    var step: OperationStep
    var directive: string
    var parsedName: string
    var parsedPriority: string

    function State(): (s: OpsState)
      reads this
      ensures s.isOpen == isOpen && s.step == step && s.directive == directive
      ensures s.parsedName == parsedName && s.parsedPriority == parsedPriority
    {
      OpsState(isOpen, step, directive, parsedName, parsedPriority)
    }

    /** The initial state is the opened state, closed. */
    constructor ()
      ensures State() == Reopened.(isOpen := false)
    {
      isOpen, step, directive := false, Initialize, "";
      parsedName, parsedPriority := "", DefaultPriority;
    }

    /** Opening always starts over: the previous directive and parse are
        dropped. */
    method OpenOperations()
      modifies this
      ensures State() == Reopened
    {
      isOpen, step, directive := true, Initialize, "";
      parsedName, parsedPriority := "", DefaultPriority;
    }

    method CloseOperations()
      modifies this
      ensures State() == old(State()).(isOpen := false)
    {
      isOpen := false;
    }

    method SetStep(s: OperationStep)
      modifies this
      ensures State() == old(State()).(step := s)
    {
      step := s;
    }

    method SetDirective(val: string)
      modifies this
      ensures State() == old(State()).(directive := val)
    {
      directive := val;
    }

    method SetParsedData(name: string, priority: string)
      modifies this
      ensures State() == old(State()).(parsedName := name, parsedPriority := priority)
    {
      parsedName, parsedPriority := name, priority;
    }
  }
}
