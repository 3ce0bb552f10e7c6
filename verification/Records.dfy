/** Table items as attribute maps, and the two conditions the writers build:
    every attribute read still has its value, and absence. */
module Records {
  import opened Wrappers

  datatype Field =
    // the operator interface of CONTROL/GLOBAL
    | StartRequested | StopRequested | CleanupRequested
    | OperationStatus | LastResult | CommandSequence | ActiveCommand | ActiveRequestId
    | ActiveCommandSequence | LastResultSequence | CycleInitialized | OperationUpdatedAt
    // attributes the controller treats apart
    | PropagationEnabled | UpdatedAt | UpdatedBy
    | Environment | GenerationTable | AuditTable | Inheritance | Backend | BinaryFanout
    | Region | Architecture | InstanceTypes | MaxLive | MaxGeneration
    | ReadinessPoll | ReadinessTimeout | HeartbeatInterval | RetryBackoffMax | ControlPoll | ControlMaxAge
    // CURRENT/GLOBAL
    | CurrentStatus | CurrentRequest | CurrentGeneration | CurrentStack | CurrentInstance
    // every other approved setting
    | Setting(name: string)

  datatype Word =
    | NoCommand | StartCommand | CleanupCommand
    | IdleOp | Rejected | Starting | Stopped | QuiescingOp | PropagationOn | CompleteOp | AttentionOp
    | Uninitialized | CurrentOwner
    | Message(text: nat)

  datatype Value = Bool(b: bool) | Num(n: int) | Word(w: Word) | Text(s: string) | Texts(items: seq<string>)

  type Item = map<Field, Value>

  /** The item still has every attribute that was read; it may have gained others. */
  predicate Holds(actual: Item, read: Item) {
    forall f | f in read :: f in actual && actual[f] == read[f]
  }

  function Lookup(item: Item, f: Field): Option<Value> {
    if f in item then Some(item[f]) else None
  }

  const Switches: set<Field> := {StartRequested, StopRequested, CleanupRequested}

  const OperatorFields: set<Field> :=
    Switches + {OperationStatus, LastResult, CommandSequence, ActiveCommand, ActiveRequestId,
                ActiveCommandSequence, LastResultSequence, CycleInitialized, OperationUpdatedAt}

  /** The digest of the approved settings, taken to be injective: the settings themselves. */
  function Fingerprint(control: Item): Item {
    control - (OperatorFields + {PropagationEnabled, UpdatedAt, UpdatedBy})
  }
}
