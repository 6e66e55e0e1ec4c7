/** Build-time descriptors: the values queued in a builder and consumed by `build`.
    Each constructor stands for one of the source's `ConsumeDesc` wrappers, with the
    effect of its external payload given as data. */
module Descriptors {
  import opened Wrappers
  import opened Stages
  import opened Dispatchers

  /** Opaque failure reported by a factory or a bundle (an `amethyst_error::Error`). */
  type ErrorCode = nat

  datatype Desc =
      /** `DispatcherSystem`: an already built parallel task for a stage. */
    | SystemDesc(stage: Stage, task: TaskId)
      /** `DispatcherSystemDesc`: a factory that builds a parallel task or fails. */
    | SystemFactoryDesc(stage: Stage, madeTask: Result<TaskId, ErrorCode>)
      /** `DispatcherThreadLocal`: an already built thread-local task. */
    | LocalDesc(local: LocalId)
      /** `DispatcherThreadLocalDesc`: a factory that builds a thread-local task or fails. */
    | LocalFactoryDesc(madeLocal: Result<LocalId, ErrorCode>)
      /** `DispatcherSystemBundle`: registers further descriptors, then reports its outcome. */
    | BundleDesc(registers: seq<Desc>, outcome: Outcome<ErrorCode>)

  predicate IsSystem(d: Desc) {
    d.SystemDesc? || d.SystemFactoryDesc?
  }

  predicate IsLocal(d: Desc) {
    d.LocalDesc? || d.LocalFactoryDesc?
  }

  function Max(a: nat, b: nat): nat {
    if a < b then b else a
  }

  /** Nesting depth of bundles: the measure on which the recursion of `build` terminates. */
  function Height(d: Desc): nat
    decreases d
  {
    match d
    case BundleDesc(registers, _) => 1 + MaxHeight(registers)
    case _ => 0
  }

  function MaxHeight(ds: seq<Desc>): nat
    decreases ds
  {
    if |ds| == 0 then 0 else Max(Height(ds[0]), MaxHeight(ds[1..]))
  }

  lemma {:induction false} MaxHeightIsUpperBound(ds: seq<Desc>)
    ensures forall x :: x in ds ==> Height(x) <= MaxHeight(ds)
  {
    if |ds| > 0 {
      MaxHeightIsUpperBound(ds[1..]);
      forall x | x in ds
        ensures Height(x) <= MaxHeight(ds)
      {
        if x != ds[0] {
          assert x in ds[1..];
        }
      }
    }
  }

  lemma {:induction false} MaxHeightIsLeast(ds: seq<Desc>, h: nat)
    requires forall x :: x in ds ==> Height(x) <= h
    ensures MaxHeight(ds) <= h
  {
    if |ds| > 0 {
      assert ds[0] in ds;
      forall x | x in ds[1..]
        ensures Height(x) <= h
      {
        assert x in ds;
      }
      MaxHeightIsLeast(ds[1..], h);
    }
  }

  /** How many parallel tasks and thread-locals a descriptor resolves to. */
  datatype Tally = Tally(tasks: nat, locals: nat)

  function Plus(a: Tally, b: Tally): Tally {
    Tally(a.tasks + b.tasks, a.locals + b.locals)
  }

  function Leaves(d: Desc): Tally
    decreases d
  {
    match d
    case SystemDesc(_, _) => Tally(1, 0)
    case SystemFactoryDesc(_, _) => Tally(1, 0)
    case LocalDesc(_) => Tally(0, 1)
    case LocalFactoryDesc(_) => Tally(0, 1)
    case BundleDesc(registers, _) => SumLeaves(registers)
  }

  lemma PlusAssociative(a: Tally, b: Tally, c: Tally)
    ensures Plus(a, Plus(b, c)) == Plus(Plus(a, b), c)
  {
  }

  function SumLeaves(ds: seq<Desc>): Tally
    decreases ds
  {
    if |ds| == 0 then Tally(0, 0) else Plus(Leaves(ds[0]), SumLeaves(ds[1..]))
  }

  /** The sum of a weight over a sequence of descriptors. Stated for an arbitrary weight
      so that the solver never unfolds a particular one while reasoning about sums. */
  function SumBy(w: Desc -> Tally, ds: seq<Desc>): Tally {
    if |ds| == 0 then Tally(0, 0) else Plus(w(ds[0]), SumBy(w, ds[1..]))
  }

  lemma {:induction false} SumByConcat(w: Desc -> Tally, xs: seq<Desc>, ys: seq<Desc>)
    ensures SumBy(w, xs + ys) == Plus(SumBy(w, xs), SumBy(w, ys))
  {
    if |xs| == 0 {
      assert xs + ys == ys;
    } else {
      var zs := xs + ys;
      assert zs[0] == xs[0];
      assert zs[1..] == xs[1..] + ys;
      SumByConcat(w, xs[1..], ys);
      PlusAssociative(w(xs[0]), SumBy(w, xs[1..]), SumBy(w, ys));
    }
  }

  lemma {:induction false} SumLeavesIsSumBy(ds: seq<Desc>)
    ensures SumLeaves(ds) == SumBy(Leaves, ds)
  {
    if |ds| > 0 {
      SumLeavesIsSumBy(ds[1..]);
    }
  }

  lemma SumLeavesConcat(xs: seq<Desc>, ys: seq<Desc>)
    ensures SumLeaves(xs + ys) == Plus(SumLeaves(xs), SumLeaves(ys))
  {
    SumLeavesIsSumBy(xs + ys);
    SumLeavesIsSumBy(xs);
    SumLeavesIsSumBy(ys);
    SumByConcat(Leaves, xs, ys);
  }
}
