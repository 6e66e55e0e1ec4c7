/** `DispatcherBuilder::build`: drain the queues into a fresh dispatcher, then build and
    merge whatever the bundles registered into the recursive builder. */
module Building {
  import opened Wrappers
  import opened Stages
  import opened Dispatchers
  import opened Descriptors
  import opened Builders
  import opened Consumption

  /** Running two drain loops one after the other is one drain loop over both sequences. */
  lemma {:induction false} ConsumeAllConcat(xs: seq<Desc>, ys: seq<Desc>, st: PassState)
    requires WellFormed(st.dispatcher)
    ensures ConsumeAll(xs + ys, st)
            == match ConsumeAll(xs, st)
               case Failure(e) => Failure(e)
               case Success(mid) => ConsumeAll(ys, mid)
    decreases |xs|
  {
    if |xs| == 0 {
      assert xs + ys == ys;
    } else {
      assert (xs + ys)[0] == xs[0];
      assert (xs + ys)[1..] == xs[1..] + ys;
      match Consume(xs[0], st)
      case Failure(e) =>
      case Success(next) =>
        ConsumeAllConcat(xs[1..], ys, next);
    }
  }

  /** The first pass of `build`: the systems loop, then the bundles loop, then the
      thread-locals loop, all writing to one fresh dispatcher and one fresh recursive builder. */
  function FirstPass(b: DispatcherBuilder): (r: Result<PassState, BuildError>)
    ensures r.Failure? <==> FirstError(Queued(b)).Some?
    ensures r.Failure? ==> r.error == FirstError(Queued(b)).value
    ensures r.Success? ==>
              r.value == PassState(Direct(Queued(b)), RegisterAll(EmptyBuilder(), RegisteredBy(Queued(b))))
  {
    var start := PassState(Default(), EmptyBuilder());
    var systems, bundles, locals := EntryDescs(b.systems), b.bundles, b.threadLocals;
    ConsumeAllConcat(systems, bundles, start);
    ConsumeAllConcat(systems + bundles, locals, start);
    ConsumeFromDefault(Queued(b));
    match ConsumeAll(systems, start)
    case Failure(e) => Failure(e)
    case Success(afterSystems) =>
      match ConsumeAll(bundles, afterSystems)
      case Failure(e) => Failure(e)
      case Success(afterBundles) => ConsumeAll(locals, afterBundles)
  }

  /** Nesting depth of the bundles a builder holds: the termination measure of `build`. */
  function BuilderHeight(b: DispatcherBuilder): nat {
    MaxHeight(Queued(b))
  }

  /** Everything a sequence registers sits strictly lower than the bundle that registered it. */
  lemma {:induction false} RegisteredIsLower(ds: seq<Desc>)
    ensures forall x :: x in RegisteredBy(ds) ==> Height(x) < MaxHeight(ds)
  {
    if |ds| > 0 {
      var head, rest := ds[0], ds[1..];
      RegisteredIsLower(rest);
      MaxHeightIsUpperBound(ds);
      assert head in ds;
      forall x | x in RegisteredBy(ds)
        ensures Height(x) < MaxHeight(ds)
      {
        if x in RegistersOf(head) {
          MaxHeightIsUpperBound(head.registers);
        } else {
          assert x in RegisteredBy(rest);
        }
      }
    }
  }

  /** Any non-empty rearrangement of what `q` registers is shallower than `q`. */
  lemma RegisteredIsShallower(q: seq<Desc>, next: seq<Desc>)
    requires multiset(next) == multiset(RegisteredBy(q))
    requires |next| > 0
    ensures MaxHeight(next) < MaxHeight(q)
  {
    RegisteredIsLower(q);
    assert next[0] in multiset(RegisteredBy(q));
    assert MaxHeight(q) >= 1;
    forall x | x in next
      ensures Height(x) <= MaxHeight(q) - 1
    {
      assert x in multiset(RegisteredBy(q));
    }
    MaxHeightIsLeast(next, MaxHeight(q) - 1);
  }

  /** The builder the bundles of `b` fill during the first pass. */
  function RecursiveBuilder(b: DispatcherBuilder): DispatcherBuilder {
    RegisterAll(EmptyBuilder(), RegisteredBy(Queued(b)))
  }

  /** The recursive builder is strictly shallower than the builder whose bundles filled it. */
  lemma RecursionShrinks(b: DispatcherBuilder)
    requires !IsEmpty(RecursiveBuilder(b))
    ensures BuilderHeight(RecursiveBuilder(b)) < BuilderHeight(b)
  {
    RegisteredQueue(RegisteredBy(Queued(b)));
    RegisteredIsShallower(Queued(b), Queued(RecursiveBuilder(b)));
  }

  /** `DispatcherBuilder::build`. A consume failure (a panic at an `unwrap` in the source)
      aborts the whole build, even when every other descriptor would have succeeded. */
  function Build(b: DispatcherBuilder): (r: Result<Dispatcher, BuildError>)
    ensures r.Success? ==> WellFormed(r.value)
    ensures FirstError(Queued(b)).Some? ==> r == Failure(FirstError(Queued(b)).value)
    decreases BuilderHeight(b)
  {
    match FirstPass(b)
    case Failure(e) => Failure(e)
    case Success(pass) =>
      if IsEmpty(pass.recursive) then Success(pass.dispatcher)
      else
        RecursionShrinks(b);
        match Build(pass.recursive)
        case Failure(e) => Failure(e)
        case Success(child) => Success(Merge(pass.dispatcher, child))
  }

  /** `base` followed by the outcome of a build: a failure stays a failure. */
  function MergeAfter(base: Dispatcher, rest: Result<Dispatcher, BuildError>): Result<Dispatcher, BuildError>
    requires WellFormed(base)
    requires rest.Success? ==> WellFormed(rest.value)
  {
    match rest
    case Failure(e) => Failure(e)
    case Success(d) => Success(Merge(base, d))
  }

  /** Without a first-pass error, the build is the first-pass dispatcher when the bundles
      registered nothing, and otherwise that dispatcher followed by the build of the
      recursive builder, which may still fail. */
  lemma BuildLayers(b: DispatcherBuilder)
    requires FirstError(Queued(b)).None?
    ensures RegisteredBy(Queued(b)) == [] ==> Build(b) == Success(Direct(Queued(b)))
    ensures RegisteredBy(Queued(b)) != [] ==>
              Build(b) == MergeAfter(Direct(Queued(b)), Build(RecursiveBuilder(b)))
  {
    var q, rb := Queued(b), RecursiveBuilder(b);
    assert FirstPass(b) == Success(PassState(Direct(q), rb));
    assert IsEmpty(rb) <==> RegisteredBy(q) == [] by {
      RegisteredQueue(RegisteredBy(q));
    }
  }

  /** `build` returns a dispatcher exactly when every queued descriptor, and everything the
      bundles register at every depth, consumes without error. */
  lemma {:induction false} BuildSucceeds(b: DispatcherBuilder)
    ensures Build(b).Success? <==> AllSound(Queued(b))
    decreases BuilderHeight(b)
  {
    var q := Queued(b);
    SoundSplit(q);
    if FirstError(q).None? {
      var rb := RecursiveBuilder(b);
      RegisteredQueue(RegisteredBy(q));
      BuildLayers(b);
      if RegisteredBy(q) != [] {
        RecursionShrinks(b);
        BuildSucceeds(rb);
        AllSoundPermutation(Queued(rb), RegisteredBy(q));
      }
    }
  }

  /** Tasks resolved in the first pass come first, in drain order, in every bucket and in
      the thread-local list; recursively registered tasks can only follow them. */
  lemma BuildKeepsFirstPassFirst(b: DispatcherBuilder)
    requires Build(b).Success?
    ensures forall s :: s in ParallelStages ==> StagedTasks(Queued(b), s) <= Build(b).value.stages[s]
    ensures LocalsOf(Queued(b)) <= Build(b).value.threadLocals
  {
    var q := Queued(b);
    var r := Build(b).value;
    assert FirstError(q).None?;
    BuildLayers(b);
    if RegisteredBy(q) == [] {
      assert r == Direct(q);
    } else {
      assert Build(RecursiveBuilder(b)).Success?;
      var child := Build(RecursiveBuilder(b)).value;
      assert r == Merge(Direct(q), child);
      forall s | s in ParallelStages
        ensures StagedTasks(q, s) <= r.stages[s]
      {
        assert r.stages[s] == StagedTasks(q, s) + child.stages[s];
      }
    }
  }

  /** How many parallel tasks (over all three buckets) and thread-locals a dispatcher holds. */
  function Count(d: Dispatcher): Tally
    requires WellFormed(d)
  {
    Tally(|d.stages[Begin]| + |d.stages[Logic]| + |d.stages[Render]|, |d.threadLocals|)
  }

  lemma CountMerge(d: Dispatcher, other: Dispatcher)
    requires WellFormed(d) && WellFormed(other)
    ensures Count(Merge(d, other)) == Plus(Count(d), Count(other))
  {
  }

  /** What a single descriptor adds to the dispatcher of its own pass. */
  function OwnCount(x: Desc): Tally {
    Tally(|TaskOf(x, Begin)| + |TaskOf(x, Logic)| + |TaskOf(x, Render)|, |LocalOf(x)|)
  }

  /** A descriptor that consumes without error resolves to what it adds directly plus what
      its registrations resolve to. */
  lemma DescLeaves(x: Desc)
    requires DescError(x).None?
    ensures Leaves(x) == Plus(OwnCount(x), SumLeaves(RegistersOf(x)))
  {
    if x.BundleDesc? {
      DescLeavesBundle(x);
    } else {
      DescLeavesDirect(x);
    }
  }

  lemma DescLeavesBundle(x: Desc)
    requires DescError(x).None? && x.BundleDesc?
    ensures Leaves(x) == Plus(OwnCount(x), SumLeaves(RegistersOf(x)))
  {
    assert OwnCount(x) == Tally(0, 0);
  }

  lemma DescLeavesDirect(x: Desc)
    requires DescError(x).None? && !x.BundleDesc?
    ensures Leaves(x) == Plus(OwnCount(x), SumLeaves(RegistersOf(x)))
  {
    var none: seq<Desc> := [];
    assert SumLeaves(none) == Tally(0, 0);
    assert RegistersOf(x) == none;
    if IsSystem(x) {
      assert x.stage in ParallelStages;
      assert OwnCount(x) == Tally(1, 0);
    } else {
      assert OwnCount(x) == Tally(0, 1);
    }
  }

  lemma PlusInterchange(a: Tally, b: Tally, c: Tally, d: Tally)
    ensures Plus(Plus(a, b), Plus(c, d)) == Plus(Plus(a, c), Plus(b, d))
  {
  }

  /** What a pass over `ds` adds directly, counted without building the dispatcher. */
  function DirectCount(ds: seq<Desc>): Tally {
    Tally(|StagedTasks(ds, Begin)| + |StagedTasks(ds, Logic)| + |StagedTasks(ds, Render)|, |LocalsOf(ds)|)
  }

  lemma CountDirect(ds: seq<Desc>)
    ensures Count(Direct(ds)) == DirectCount(ds)
  {
  }

  lemma DirectCountCons(ds: seq<Desc>)
    requires |ds| > 0
    ensures DirectCount(ds) == Plus(OwnCount(ds[0]), DirectCount(ds[1..]))
  {
    var x, rest := ds[0], ds[1..];
    assert StagedTasks(ds, Begin) == TaskOf(x, Begin) + StagedTasks(rest, Begin);
    assert StagedTasks(ds, Logic) == TaskOf(x, Logic) + StagedTasks(rest, Logic);
    assert StagedTasks(ds, Render) == TaskOf(x, Render) + StagedTasks(rest, Render);
    assert LocalsOf(ds) == LocalOf(x) + LocalsOf(rest);
  }

  /** A pass without errors accounts for every task: those resolved directly plus those
      its bundles registered for the next pass. */
  lemma {:induction false} DirectLeaves(ds: seq<Desc>)
    requires FirstError(ds).None?
    ensures SumLeaves(ds) == Plus(DirectCount(ds), SumLeaves(RegisteredBy(ds)))
  {
    if |ds| == 0 {
    } else {
      var x, rest := ds[0], ds[1..];
      assert DescError(x).None? && FirstError(rest).None?;
      DirectLeaves(rest);
      DescLeaves(x);
      SumLeavesConcat(RegistersOf(x), RegisteredBy(rest));
      DirectCountCons(ds);
      PlusInterchange(OwnCount(x), SumLeaves(RegistersOf(x)), DirectCount(rest), SumLeaves(RegisteredBy(rest)));
    }
  }

  /** Build completeness: a successful build holds exactly as many parallel tasks and
      thread-locals as the queued descriptors resolve to, bundles expanded at every depth. */
  lemma {:induction false} BuildTally(b: DispatcherBuilder)
    requires Build(b).Success?
    ensures Count(Build(b).value) == SumLeaves(Queued(b))
    decreases BuilderHeight(b)
  {
    var q := Queued(b);
    assert FirstError(q).None?;
    BuildLayers(b);
    DirectLeaves(q);
    CountDirect(q);
    RegisteredQueue(RegisteredBy(q));
    if RegisteredBy(q) != [] {
      var rb := RecursiveBuilder(b);
      RecursionShrinks(b);
      BuildTally(rb);
      CountMerge(Direct(q), Build(rb).value);
    }
  }

  /** Parallel-task descriptors each resolve to one task and no thread-local. */
  lemma {:induction false} SumLeavesOfSystems(ds: seq<Desc>)
    requires forall x :: x in ds ==> IsSystem(x)
    ensures SumLeaves(ds) == Tally(|ds|, 0)
  {
    if |ds| > 0 {
      assert ds[0] in ds;
      assert forall x :: x in ds[1..] ==> x in ds;
      SumLeavesOfSystems(ds[1..]);
    }
  }

  /** Thread-local descriptors each resolve to one thread-local and no task. */
  lemma {:induction false} SumLeavesOfLocals(ds: seq<Desc>)
    requires forall x :: x in ds ==> IsLocal(x)
    ensures SumLeaves(ds) == Tally(0, |ds|)
  {
    if |ds| > 0 {
      assert ds[0] in ds;
      assert forall x :: x in ds[1..] ==> x in ds;
      SumLeavesOfLocals(ds[1..]);
    }
  }

  /** Build completeness: a builder holding n pre-built systems for parallel stages,
      m pre-built thread-locals and no bundles builds a dispatcher with n parallel tasks
      over all buckets and m thread-locals. */
  lemma BuildCompleteness(b: DispatcherBuilder)
    requires b.bundles == []
    requires forall e :: e in b.systems ==> e.desc.SystemDesc? && e.desc.stage in ParallelStages
    requires forall x :: x in b.threadLocals ==> x.LocalDesc?
    ensures Build(b).Success?
    ensures Count(Build(b).value) == Tally(|b.systems|, |b.threadLocals|)
  {
    var systems := EntryDescs(b.systems);
    assert Queued(b) == systems + b.threadLocals;
    forall x | x in systems
      ensures x.SystemDesc? && x.stage in ParallelStages
    {
      var i :| 0 <= i < |systems| && systems[i] == x;
      assert b.systems[i] in b.systems;
    }
    assert AllSound(Queued(b)) by {
      AllSoundConcat(systems, b.threadLocals);
    }
    BuildSucceeds(b);
    BuildTally(b);
    SumLeavesConcat(systems, b.threadLocals);
    SumLeavesOfSystems(systems);
    SumLeavesOfLocals(b.threadLocals);
  }

  /** A default builder builds the default dispatcher. */
  lemma BuildEmpty()
    ensures Build(EmptyBuilder()) == Success(Default())
  {
  }

  /** The same build as an explicit work queue: one pass per iteration, each pass's
      dispatcher merged after the earlier ones, until a pass registers nothing. */
  method BuildByPasses(b: DispatcherBuilder) returns (r: Result<Dispatcher, BuildError>)
    ensures r == Build(b)
  {
    var done := Default();
    var pending := b;
    if Build(b).Success? {
      MergeDefaultLeft(Build(b).value);
    }
    while true
      invariant WellFormed(done)
      invariant Build(b) == MergeAfter(done, Build(pending))
      decreases BuilderHeight(pending)
    {
      var pass := FirstPass(pending);
      if pass.Failure? {
        return Failure(pass.error);
      }
      var next := pass.value;
      if IsEmpty(next.recursive) {
        return Success(Merge(done, next.dispatcher));
      }
      RecursionShrinks(pending);
      if Build(next.recursive).Success? {
        MergeAssociative(done, next.dispatcher, Build(next.recursive).value);
      }
      done := Merge(done, next.dispatcher);
      pending := next.recursive;
    }
  }
}
