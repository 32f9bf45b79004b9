/**
  The enumeration's persisted state as the driver sees it: the cursor of each
  worker (InstructionCounter), the per-worker enumeration state (EnumWorker),
  the worker records, the artifact log of encodings, and the loaded state
  itself (Work), whose workers the maintenance verbs update in place.
 */
module WorkState {
  import opened Wrappers
  import opened Instructions
  import opened Filters

  /** A cursor over the closed range [from, to] (unbounded above when `to` is None). */
  datatype InstructionCounter = InstructionCounter(
    from: Instruction,
    to: Option<Instruction>,
    current: Instruction,
    filters: seq<Filter>)
  {
    /** `clear_filters`: forget every loaded filter; position and bounds stay. */
    function ClearFilters(): InstructionCounter
    {
      this.(filters := [])
    }

    /** `filter(f)`: load one more filter. */
    function AddFilter(f: Filter): InstructionCounter
    {
      this.(filters := filters + [f])
    }

    /** `rebuild_inplace`: recomputes the skip structure; the loaded filters are unchanged. */
    function RebuildInplace(): InstructionCounter
    {
      this
    }
  }

  /** `InstructionCounter::range(from, to)`: a fresh cursor positioned at `from` with no filters. */
  function Range(from: Instruction, to: Option<Instruction>): InstructionCounter
  {
    InstructionCounter(from, to, from, [])
  }

  /** One output of an encoding: whether it accesses memory and how many inputs it reads. */
  datatype Output = Output(memoryAccess: bool, numInputs: nat)

  /** An artifact: one discovered encoding with its representative instruction and filters. */
  datatype Encoding = Encoding(instr: Instruction, filters: seq<Filter>, outputs: seq<Output>)

  /** The enumeration state of one worker. */
  datatype EnumWorker = EnumWorker(
    counter: InstructionCounter,
    uniqueSequences: nat,
    next: Option<Instruction>,
    instrsSeen: set<Instruction>,
    instrsFailed: seq<Instruction>,
    fastTunnel: bool)

  /** A worker record: its partition [from, to], its enumeration state and bookkeeping. */
  datatype WorkerRecord = WorkerRecord(
    id: nat,
    from: Instruction,
    to: Option<Instruction>,
    inner: EnumWorker,
    done: bool,
    artifactsProduced: nat)

  /**
    The worker factory handed to `Work::create`: a fresh worker over
    [from, to], its cursor at `from` with no filters, and every count, list
    and flag zero, empty or false.
   */
  function FreshWorker(from: Instruction, to: Option<Instruction>): (w: EnumWorker)
    ensures w.counter.from == from && w.counter.to == to
    ensures w.counter.current == from && w.counter.filters == []
    ensures w.uniqueSequences == 0 && w.next.None?
    ensures w.instrsSeen == {} && w.instrsFailed == [] && !w.fastTunnel
  {
    EnumWorker(Range(from, to), 0, None, {}, [], false)
  }

  /** Why a verb stopped (each is a panic or an early error in the driver). */
  datatype VerbError =
    | WorkerIndexOutOfRange(num: nat, len: nat)
    | NoFilters(encoding: nat)
    | NoWorkerForInstruction(instr: Instruction)
    | NoWorkers

  /** The loaded enumeration state. */
  class Work {
    var workers: seq<WorkerRecord>
    var artifacts: seq<Encoding>
    var secondsRunning: nat

    /** Worker ids are their positions in the worker list. */
    ghost predicate Valid()
      reads this
    {
      forall i :: 0 <= i < |workers| ==> workers[i].id == i
    }

    /**
      Stands in for `Work::load`: the state read from the save directory,
      whose worker ids are their positions (`Status` indexes its per-worker
      counts by id).
     */
    constructor Load(workers: seq<WorkerRecord>, artifacts: seq<Encoding>, secondsRunning: nat)
      requires forall i :: 0 <= i < |workers| ==> workers[i].id == i
      ensures Valid()
      ensures this.workers == workers && this.artifacts == artifacts
      ensures this.secondsRunning == secondsRunning
    {
      this.workers := workers;
      this.artifacts := artifacts;
      this.secondsRunning := secondsRunning;
    }
  }
}
