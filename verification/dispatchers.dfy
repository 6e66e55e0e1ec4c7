/** The realised schedule: one ordered bucket of parallel tasks per parallel stage,
    plus an ordered list of thread-local tasks. */
module Dispatchers {
  import opened Wrappers
  import opened Stages

  /** Opaque identity of a parallel task (a boxed `Schedulable`). */
  type TaskId = nat

  /** Opaque identity of a thread-local task (a boxed `ThreadLocal`). */
  type LocalId = nat

  datatype Dispatcher = Dispatcher(threadLocals: seq<LocalId>, stages: map<Stage, seq<TaskId>>)

  /** Every dispatcher constructed by this module has exactly one bucket per parallel stage. */
  predicate WellFormed(d: Dispatcher) {
    d.stages.Keys == ParallelStages
  }

  /** `Dispatcher::default`: the three parallel buckets, all empty, and no thread-locals. */
  function Default(): (d: Dispatcher)
    ensures WellFormed(d)
    ensures ThreadLocal !in d.stages
    ensures forall s :: s in d.stages ==> d.stages[s] == []
    ensures d.threadLocals == []
  {
    Dispatcher([], map[Begin := [], Logic := [], Render := []])
  }

  /** `merge` unwraps the lookup of every key of `d` in `other`, so it panics unless
      `other` has a bucket for each of them. */
  predicate CanMerge(d: Dispatcher, other: Dispatcher) {
    d.stages.Keys <= other.stages.Keys
  }

  /** `Dispatcher::merge`: the work of `other` is appended after that of `d`, stage
      by stage and for the thread-locals; buckets of `other` under keys `d` lacks are dropped. */
  function Merge(d: Dispatcher, other: Dispatcher): (r: Dispatcher)
    requires CanMerge(d, other)
    ensures r.threadLocals == d.threadLocals + other.threadLocals
    ensures r.stages.Keys == d.stages.Keys
    ensures forall k :: k in r.stages ==> r.stages[k] == d.stages[k] + other.stages[k]
    ensures WellFormed(d) ==> WellFormed(r)
  {
    Dispatcher(d.threadLocals + other.threadLocals,
               map k | k in d.stages :: d.stages[k] + other.stages[k])
  }

  /** Merging an empty dispatcher after `d` changes nothing. */
  lemma MergeDefaultRight(d: Dispatcher)
    requires d.stages.Keys <= ParallelStages
    ensures Merge(d, Default()) == d
  {
    var r := Merge(d, Default());
    assert r.stages == d.stages by {
      forall k | k in d.stages
        ensures r.stages[k] == d.stages[k]
      {
        assert Default().stages[k] == [];
      }
    }
    assert r.threadLocals == d.threadLocals + [];
  }

  /** Merging a well-formed `d` after an empty dispatcher yields `d`. */
  lemma MergeDefaultLeft(d: Dispatcher)
    requires WellFormed(d)
    ensures Merge(Default(), d) == d
  {
    var r := Merge(Default(), d);
    assert r.stages == d.stages by {
      forall k | k in d.stages
        ensures r.stages[k] == d.stages[k]
      {
        assert Default().stages[k] == [];
      }
    }
    assert r.threadLocals == [] + d.threadLocals;
  }

  /** The per-stage and thread-local order of a three-way merge does not depend on grouping. */
  lemma MergeAssociative(a: Dispatcher, b: Dispatcher, c: Dispatcher)
    requires CanMerge(a, b) && CanMerge(b, c)
    ensures CanMerge(Merge(a, b), c) && CanMerge(a, Merge(b, c))
    ensures Merge(Merge(a, b), c) == Merge(a, Merge(b, c))
  {
    var left := Merge(Merge(a, b), c);
    var right := Merge(a, Merge(b, c));
    assert left.stages == right.stages by {
      forall k | k in a.stages
        ensures left.stages[k] == right.stages[k]
      {
        assert left.stages[k] == (a.stages[k] + b.stages[k]) + c.stages[k];
        assert right.stages[k] == a.stages[k] + (b.stages[k] + c.stages[k]);
      }
    }
    assert left.threadLocals == right.threadLocals;
  }

  /** What `run` hands on: the thread-locals executed one after another, in order,
      or the batch of one stage given to the external parallel executor. */
  datatype Execution = Sequential(order: seq<LocalId>) | Parallel(batch: seq<TaskId>)

  /** The two `unwrap` panics of the parallel branch of `run`. */
  datatype RunFault = MissingBucket(stage: Stage) | MissingThreadPool

  /** `Dispatcher::run`. The world's thread-pool resource is reduced to whether it is present.
      The bucket lookup is evaluated before the resource lookup, so it is reported first. */
  function Run(d: Dispatcher, stage: Stage, threadPoolPresent: bool): (r: Result<Execution, RunFault>)
    ensures r.Success? && r.value.Sequential? <==> stage == ThreadLocal
    ensures stage == ThreadLocal ==> r.value.order == d.threadLocals
    ensures r.Success? && r.value.Parallel? ==>
              threadPoolPresent && stage in d.stages && r.value.batch == d.stages[stage]
    ensures stage != ThreadLocal && stage in d.stages && threadPoolPresent ==>
              r == Success(Parallel(d.stages[stage]))
    ensures stage != ThreadLocal && stage !in d.stages ==> r == Failure(MissingBucket(stage))
    ensures stage != ThreadLocal && stage in d.stages && !threadPoolPresent ==> r == Failure(MissingThreadPool)
  {
    match stage
    case ThreadLocal => Success(Sequential(d.threadLocals))
    case _ =>
      if stage !in d.stages then Failure(MissingBucket(stage))
      else if !threadPoolPresent then Failure(MissingThreadPool)
      else Success(Parallel(d.stages[stage]))
  }

  /** Running a merged dispatcher runs the first operand's work, then the second's. */
  lemma RunMerge(a: Dispatcher, b: Dispatcher, stage: Stage)
    requires WellFormed(a) && WellFormed(b)
    ensures stage == ThreadLocal ==>
              Run(Merge(a, b), stage, false).value.order
                == Run(a, stage, false).value.order + Run(b, stage, false).value.order
    ensures stage != ThreadLocal ==>
              Run(Merge(a, b), stage, true).value.batch
                == Run(a, stage, true).value.batch + Run(b, stage, true).value.batch
  {
  }
}
