/** `ConsumeDesc::consume` for the five descriptor wrappers, and one draining pass over a
    sequence of descriptors, as `build` performs it. */
module Consumption {
  import opened Wrappers
  import opened Stages
  import opened Dispatchers
  import opened Descriptors
  import opened Builders

  /** Why a build aborts: a factory or bundle reported an error, or a task was aimed at
      a stage that has no bucket (only ThreadLocal, in a well-formed dispatcher). */
  datatype BuildError = ConstructionFailed(code: ErrorCode) | NoBucket(stage: Stage)

  /** What `consume` writes to: the dispatcher under construction and the recursive builder. */
  datatype PassState = PassState(dispatcher: Dispatcher, recursive: DispatcherBuilder)

  // Reference meaning of a single descriptor, stated without reference to a pass.

  /** The error consuming `d` reports, if any. */
  function DescError(d: Desc): Option<BuildError> {
    match d
    case SystemDesc(stage, _) =>
      if stage in ParallelStages then None else Some(NoBucket(stage))
    case SystemFactoryDesc(stage, made) =>
      if made.Failure? then Some(ConstructionFailed(made.error))
      else if stage in ParallelStages then None
      else Some(NoBucket(stage))
    case LocalDesc(_) => None
    case LocalFactoryDesc(made) =>
      if made.Failure? then Some(ConstructionFailed(made.error)) else None
    case BundleDesc(_, outcome) =>
      if outcome.Fail? then Some(ConstructionFailed(outcome.error)) else None
  }

  /** The parallel task `d` contributes to stage `s`. */
  function TaskOf(d: Desc, s: Stage): seq<TaskId> {
    match d
    case SystemDesc(stage, task) => if stage == s then [task] else []
    case SystemFactoryDesc(stage, made) => if stage == s && made.Success? then [made.value] else []
    case _ => []
  }

  /** The thread-local task `d` contributes. */
  function LocalOf(d: Desc): seq<LocalId> {
    match d
    case LocalDesc(local) => [local]
    case LocalFactoryDesc(made) => if made.Success? then [made.value] else []
    case _ => []
  }

  /** The descriptors `d` registers for the next pass. */
  function RegistersOf(d: Desc): seq<Desc> {
    match d
    case BundleDesc(registers, outcome) => if outcome.Pass? then registers else []
    case _ => []
  }

  // The same meanings lifted to a sequence of descriptors consumed in order.

  function FirstError(ds: seq<Desc>): Option<BuildError> {
    if |ds| == 0 then None
    else if DescError(ds[0]).Some? then DescError(ds[0])
    else FirstError(ds[1..])
  }

  function StagedTasks(ds: seq<Desc>, s: Stage): seq<TaskId> {
    if |ds| == 0 then [] else TaskOf(ds[0], s) + StagedTasks(ds[1..], s)
  }

  function LocalsOf(ds: seq<Desc>): seq<LocalId> {
    if |ds| == 0 then [] else LocalOf(ds[0]) + LocalsOf(ds[1..])
  }

  function RegisteredBy(ds: seq<Desc>): seq<Desc> {
    if |ds| == 0 then [] else RegistersOf(ds[0]) + RegisteredBy(ds[1..])
  }

  /** `d` consumes without error, and so does everything it registers, at every depth:
      the condition under which `build` returns a dispatcher instead of panicking. */
  predicate Sound(d: Desc)
    decreases d
  {
    DescError(d).None? && (d.BundleDesc? ==> forall x :: x in d.registers ==> Sound(x))
  }

  predicate AllSound(ds: seq<Desc>) {
    forall x :: x in ds ==> Sound(x)
  }

  lemma SoundUnfold(d: Desc)
    ensures Sound(d) <==> DescError(d).None? && AllSound(RegistersOf(d))
  {
  }

  lemma AllSoundConcat(xs: seq<Desc>, ys: seq<Desc>)
    ensures AllSound(xs + ys) <==> AllSound(xs) && AllSound(ys)
  {
    assert forall x :: x in xs + ys <==> x in xs || x in ys;
  }

  /** A sequence is sound at every depth exactly when one pass over it finds no error and
      everything that pass registers is sound in turn. */
  lemma {:induction false} SoundSplit(ds: seq<Desc>)
    ensures AllSound(ds) <==> FirstError(ds).None? && AllSound(RegisteredBy(ds))
  {
    if |ds| > 0 {
      var x, rest := ds[0], ds[1..];
      assert ds == [x] + rest;
      SoundSplit(rest);
      SoundUnfold(x);
      AllSoundConcat([x], rest);
      AllSoundConcat(RegistersOf(x), RegisteredBy(rest));
      assert AllSound([x]) <==> Sound(x) by {
        assert x in [x];
      }
    }
  }

  /** Soundness depends only on which descriptors are queued, not on their order. */
  lemma AllSoundPermutation(xs: seq<Desc>, ys: seq<Desc>)
    requires multiset(xs) == multiset(ys)
    ensures AllSound(xs) <==> AllSound(ys)
  {
    forall x | x in xs
      ensures x in ys
    {
      assert x in multiset(xs);
    }
    forall y | y in ys
      ensures y in xs
    {
      assert y in multiset(ys);
    }
  }

  /** The dispatcher a single pass over `ds` yields when nothing fails. */
  function Direct(ds: seq<Desc>): (d: Dispatcher)
    ensures WellFormed(d)
  {
    Dispatcher(LocalsOf(ds), map s | s in ParallelStages :: StagedTasks(ds, s))
  }

  // The operational model.

  /** Appends a parallel task to its stage's bucket; the bucket lookup is unwrapped. */
  function Place(st: PassState, stage: Stage, task: TaskId): Result<PassState, BuildError> {
    var buckets := st.dispatcher.stages;
    if stage in buckets then
      Success(st.(dispatcher := st.dispatcher.(stages := buckets[stage := buckets[stage] + [task]])))
    else
      Failure(NoBucket(stage))
  }

  function PushLocal(st: PassState, local: LocalId): PassState {
    st.(dispatcher := st.dispatcher.(threadLocals := st.dispatcher.threadLocals + [local]))
  }

  /** `consume` of one descriptor: it fails exactly when its reference error says so, and
      otherwise adds its task, its thread-local or its registrations and nothing else. */
  function Consume(desc: Desc, st: PassState): (r: Result<PassState, BuildError>)
    requires WellFormed(st.dispatcher)
    ensures r.Failure? <==> DescError(desc).Some?
    ensures r.Failure? ==> r.error == DescError(desc).value
    ensures r.Success? ==> WellFormed(r.value.dispatcher)
    ensures r.Success? ==> forall s :: s in ParallelStages ==>
              r.value.dispatcher.stages[s] == st.dispatcher.stages[s] + TaskOf(desc, s)
    ensures r.Success? ==> r.value.dispatcher.threadLocals == st.dispatcher.threadLocals + LocalOf(desc)
    ensures r.Success? ==> r.value.recursive == RegisterAll(st.recursive, RegistersOf(desc))
  {
    match desc
    case SystemDesc(stage, task) => Place(st, stage, task)
    case SystemFactoryDesc(stage, made) =>
      (match made
       case Failure(e) => Failure(ConstructionFailed(e))
       case Success(task) => Place(st, stage, task))
    case LocalDesc(local) => Success(PushLocal(st, local))
    case LocalFactoryDesc(made) =>
      (match made
       case Failure(e) => Failure(ConstructionFailed(e))
       case Success(local) => Success(PushLocal(st, local)))
    case BundleDesc(registers, outcome) =>
      (match outcome
       case Fail(e) => Failure(ConstructionFailed(e))
       case Pass => Success(st.(recursive := RegisterAll(st.recursive, registers))))
  }

  /** One drain loop of `build`: consume `ds` in order, stopping at the first failure (the
      source unwraps each result). Every descriptor is consumed exactly once, in order. */
  function ConsumeAll(ds: seq<Desc>, st: PassState): (r: Result<PassState, BuildError>)
    requires WellFormed(st.dispatcher)
    ensures r.Failure? <==> FirstError(ds).Some?
    ensures r.Failure? ==> r.error == FirstError(ds).value
    ensures r.Success? ==> WellFormed(r.value.dispatcher)
    ensures r.Success? ==> forall s :: s in ParallelStages ==>
              r.value.dispatcher.stages[s] == st.dispatcher.stages[s] + StagedTasks(ds, s)
    ensures r.Success? ==> r.value.dispatcher.threadLocals == st.dispatcher.threadLocals + LocalsOf(ds)
    ensures r.Success? ==> r.value.recursive == RegisterAll(st.recursive, RegisteredBy(ds))
    decreases |ds|
  {
    if |ds| == 0 then Success(st)
    else
      match Consume(ds[0], st)
      case Failure(e) => Failure(e)
      case Success(next) =>
        var r := ConsumeAll(ds[1..], next);
        ConsumeStep(ds, st, next, r);
        r
  }

  /** The inductive step of `ConsumeAll`: the head's contribution followed by the tail's. */
  lemma ConsumeStep(ds: seq<Desc>, st: PassState, next: PassState, r: Result<PassState, BuildError>)
    requires |ds| > 0 && WellFormed(st.dispatcher)
    requires Consume(ds[0], st) == Success(next)
    requires r.Failure? <==> FirstError(ds[1..]).Some?
    requires r.Failure? ==> r.error == FirstError(ds[1..]).value
    requires r.Success? ==> WellFormed(r.value.dispatcher)
    requires r.Success? ==> forall s :: s in ParallelStages ==>
               r.value.dispatcher.stages[s] == next.dispatcher.stages[s] + StagedTasks(ds[1..], s)
    requires r.Success? ==> r.value.dispatcher.threadLocals == next.dispatcher.threadLocals + LocalsOf(ds[1..])
    requires r.Success? ==> r.value.recursive == RegisterAll(next.recursive, RegisteredBy(ds[1..]))
    ensures r.Failure? <==> FirstError(ds).Some?
    ensures r.Failure? ==> r.error == FirstError(ds).value
    ensures r.Success? ==> forall s :: s in ParallelStages ==>
              r.value.dispatcher.stages[s] == st.dispatcher.stages[s] + StagedTasks(ds, s)
    ensures r.Success? ==> r.value.dispatcher.threadLocals == st.dispatcher.threadLocals + LocalsOf(ds)
    ensures r.Success? ==> r.value.recursive == RegisterAll(st.recursive, RegisteredBy(ds))
  {
    var x, rest := ds[0], ds[1..];
    assert DescError(x).None?;
    assert FirstError(ds) == FirstError(rest);
    if r.Success? {
      var d := r.value.dispatcher;
      forall s | s in ParallelStages
        ensures d.stages[s] == st.dispatcher.stages[s] + StagedTasks(ds, s)
      {
        assert StagedTasks(ds, s) == TaskOf(x, s) + StagedTasks(rest, s);
        AppendAssociative(st.dispatcher.stages[s], TaskOf(x, s), StagedTasks(rest, s));
      }
      assert LocalsOf(ds) == LocalOf(x) + LocalsOf(rest);
      AppendAssociative(st.dispatcher.threadLocals, LocalOf(x), LocalsOf(rest));
      assert RegisteredBy(ds) == RegistersOf(x) + RegisteredBy(rest);
      RegisterAllConcat(st.recursive, RegistersOf(x), RegisteredBy(rest));
    }
  }

  /** A pass that starts from an empty dispatcher and an empty recursive builder yields
      the reference dispatcher of the descriptors it drained. */
  lemma ConsumeFromDefault(ds: seq<Desc>)
    ensures FirstError(ds).None? ==>
              ConsumeAll(ds, PassState(Default(), EmptyBuilder()))
                == Success(PassState(Direct(ds), RegisterAll(EmptyBuilder(), RegisteredBy(ds))))
  {
    var start := PassState(Default(), EmptyBuilder());
    var r := ConsumeAll(ds, start);
    if r.Failure? {
      return;
    }
    var d := r.value.dispatcher;
    assert d.stages == Direct(ds).stages by {
      forall s | s in ParallelStages
        ensures d.stages[s] == StagedTasks(ds, s)
      {
        assert start.dispatcher.stages[s] == [];
      }
    }
    assert d.threadLocals == LocalsOf(ds) by {
      assert start.dispatcher.threadLocals == [];
    }
  }
}
