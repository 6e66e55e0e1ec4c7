/** `DispatcherBuilder`: three ordered queues of descriptors, filled by `add_*`/`with_*`. */
module Builders {
  import opened Wrappers
  import opened Stages
  import opened Dispatchers
  import opened Descriptors

  /** A queued system: the stage tag the builder records beside the descriptor. */
  datatype SystemEntry = SystemEntry(stage: Stage, desc: Desc)

  datatype DispatcherBuilder =
    DispatcherBuilder(systems: seq<SystemEntry>, threadLocals: seq<Desc>, bundles: seq<Desc>)

  /** Each queue holds only descriptors of its own kind, and a system's tag is its stage:
      the shape `add_*` gives a builder. */
  predicate WellFormedBuilder(b: DispatcherBuilder) {
    && (forall e :: e in b.systems ==> IsSystem(e.desc) && e.desc.stage == e.stage)
    && (forall d :: d in b.threadLocals ==> IsLocal(d))
    && (forall d :: d in b.bundles ==> d.BundleDesc?)
  }

  function EntryDescs(es: seq<SystemEntry>): (ds: seq<Desc>)
    ensures |ds| == |es|
    ensures forall i :: 0 <= i < |es| ==> ds[i] == es[i].desc
  {
    if |es| == 0 then [] else [es[0].desc] + EntryDescs(es[1..])
  }

  /** Every queued descriptor, in the order `build` drains them: systems, bundles, thread-locals. */
  function Queued(b: DispatcherBuilder): seq<Desc> {
    EntryDescs(b.systems) + b.bundles + b.threadLocals
  }

  /** `DispatcherBuilder::is_empty`: nothing is left for `build` to consume. */
  function IsEmpty(b: DispatcherBuilder): (r: bool)
    ensures r <==> Queued(b) == []
  {
    |b.systems| == 0 && |b.bundles| == 0 && |b.threadLocals| == 0
  }

  /** `DispatcherBuilder::default`. */
  function EmptyBuilder(): (b: DispatcherBuilder)
    ensures IsEmpty(b)
    ensures WellFormedBuilder(b)
  {
    DispatcherBuilder([], [], [])
  }

  /** `add_thread_local`. */
  function AddThreadLocal(b: DispatcherBuilder, local: LocalId): (r: DispatcherBuilder)
    ensures r.threadLocals == b.threadLocals + [LocalDesc(local)]
    ensures r.systems == b.systems && r.bundles == b.bundles
    ensures WellFormedBuilder(b) ==> WellFormedBuilder(r)
  {
    b.(threadLocals := b.threadLocals + [LocalDesc(local)])
  }

  /** `add_thread_local_desc`. */
  function AddThreadLocalDesc(b: DispatcherBuilder, made: Result<LocalId, ErrorCode>): (r: DispatcherBuilder)
    ensures r.threadLocals == b.threadLocals + [LocalFactoryDesc(made)]
    ensures r.systems == b.systems && r.bundles == b.bundles
    ensures WellFormedBuilder(b) ==> WellFormedBuilder(r)
  {
    b.(threadLocals := b.threadLocals + [LocalFactoryDesc(made)])
  }

  /** `add_system`: the stage is recorded both as the entry's tag and inside the descriptor. */
  function AddSystem(b: DispatcherBuilder, stage: Stage, task: TaskId): (r: DispatcherBuilder)
    ensures r.systems == b.systems + [SystemEntry(stage, SystemDesc(stage, task))]
    ensures r.threadLocals == b.threadLocals && r.bundles == b.bundles
    ensures WellFormedBuilder(b) ==> WellFormedBuilder(r)
  {
    b.(systems := b.systems + [SystemEntry(stage, SystemDesc(stage, task))])
  }

  /** `add_system_desc`. */
  function AddSystemDesc(b: DispatcherBuilder, stage: Stage, made: Result<TaskId, ErrorCode>): (r: DispatcherBuilder)
    ensures r.systems == b.systems + [SystemEntry(stage, SystemFactoryDesc(stage, made))]
    ensures r.threadLocals == b.threadLocals && r.bundles == b.bundles
    ensures WellFormedBuilder(b) ==> WellFormedBuilder(r)
  {
    b.(systems := b.systems + [SystemEntry(stage, SystemFactoryDesc(stage, made))])
  }

  /** `add_bundle`. */
  function AddBundle(b: DispatcherBuilder, registers: seq<Desc>, outcome: Outcome<ErrorCode>): (r: DispatcherBuilder)
    ensures r.bundles == b.bundles + [BundleDesc(registers, outcome)]
    ensures r.systems == b.systems && r.threadLocals == b.threadLocals
    ensures WellFormedBuilder(b) ==> WellFormedBuilder(r)
  {
    b.(bundles := b.bundles + [BundleDesc(registers, outcome)])
  }

  /** `with_thread_local`: `add_thread_local`, then the builder itself is returned. */
  function WithThreadLocal(b: DispatcherBuilder, local: LocalId): (r: DispatcherBuilder)
    ensures Queued(r) == Queued(b) + [LocalDesc(local)]
    ensures r.systems == b.systems && r.bundles == b.bundles
  {
    AddThreadLocal(b, local)
  }

  /** `with_thread_local_desc`. */
  function WithThreadLocalDesc(b: DispatcherBuilder, made: Result<LocalId, ErrorCode>): (r: DispatcherBuilder)
    ensures Queued(r) == Queued(b) + [LocalFactoryDesc(made)]
    ensures r.systems == b.systems && r.bundles == b.bundles
  {
    AddThreadLocalDesc(b, made)
  }

  /** `with_system`. */
  function WithSystem(b: DispatcherBuilder, stage: Stage, task: TaskId): (r: DispatcherBuilder)
    ensures r.systems == b.systems + [SystemEntry(stage, SystemDesc(stage, task))]
    ensures r.threadLocals == b.threadLocals && r.bundles == b.bundles
  {
    AddSystem(b, stage, task)
  }

  /** `with_system_desc`. */
  function WithSystemDesc(b: DispatcherBuilder, stage: Stage, made: Result<TaskId, ErrorCode>): (r: DispatcherBuilder)
    ensures r.systems == b.systems + [SystemEntry(stage, SystemFactoryDesc(stage, made))]
    ensures r.threadLocals == b.threadLocals && r.bundles == b.bundles
  {
    AddSystemDesc(b, stage, made)
  }

  /** `with_bundle`. */
  function WithBundle(b: DispatcherBuilder, registers: seq<Desc>, outcome: Outcome<ErrorCode>): (r: DispatcherBuilder)
    ensures r.bundles == b.bundles + [BundleDesc(registers, outcome)]
    ensures r.systems == b.systems && r.threadLocals == b.threadLocals
  {
    AddBundle(b, registers, outcome)
  }

  /** The system entries `add_system`/`add_system_desc` would queue for `ds`, in order. */
  function SystemEntries(ds: seq<Desc>): seq<SystemEntry> {
    if |ds| == 0 then []
    else (if IsSystem(ds[0]) then [SystemEntry(ds[0].stage, ds[0])] else []) + SystemEntries(ds[1..])
  }

  function SystemsIn(ds: seq<Desc>): seq<Desc> {
    if |ds| == 0 then [] else (if IsSystem(ds[0]) then [ds[0]] else []) + SystemsIn(ds[1..])
  }

  function LocalsIn(ds: seq<Desc>): seq<Desc> {
    if |ds| == 0 then [] else (if IsLocal(ds[0]) then [ds[0]] else []) + LocalsIn(ds[1..])
  }

  function BundlesIn(ds: seq<Desc>): seq<Desc> {
    if |ds| == 0 then [] else (if ds[0].BundleDesc? then [ds[0]] else []) + BundlesIn(ds[1..])
  }

  /** A registration made through the builder's interface (as a bundle does): the `add_*`
      call matching the descriptor's kind. */
  function Register(b: DispatcherBuilder, d: Desc): (r: DispatcherBuilder)
    ensures r.systems == b.systems + SystemEntries([d])
    ensures r.threadLocals == b.threadLocals + LocalsIn([d])
    ensures r.bundles == b.bundles + BundlesIn([d])
  {
    match d
    case SystemDesc(stage, task) => AddSystem(b, stage, task)
    case SystemFactoryDesc(stage, made) => AddSystemDesc(b, stage, made)
    case LocalDesc(local) => AddThreadLocal(b, local)
    case LocalFactoryDesc(made) => AddThreadLocalDesc(b, made)
    case BundleDesc(registers, outcome) => AddBundle(b, registers, outcome)
  }

  /** A run of registrations keeps registration order within each kind. */
  function RegisterAll(b: DispatcherBuilder, ds: seq<Desc>): (r: DispatcherBuilder)
    ensures r.systems == b.systems + SystemEntries(ds)
    ensures r.threadLocals == b.threadLocals + LocalsIn(ds)
    ensures r.bundles == b.bundles + BundlesIn(ds)
    decreases |ds|
  {
    if |ds| == 0 then b
    else
      var r := RegisterAll(Register(b, ds[0]), ds[1..]);
      RegisterStep(b, ds, r);
      r
  }

  /** Regrouping appended queues; stated once so the step lemmas below need not prove it
      in their own, larger contexts. */
  lemma AppendAssociative<T>(a: seq<T>, b: seq<T>, c: seq<T>)
    ensures (a + b) + c == a + (b + c)
  {
  }

  /** The inductive step of `RegisterAll`: the head's registration, then the tail's. */
  lemma RegisterStep(b: DispatcherBuilder, ds: seq<Desc>, r: DispatcherBuilder)
    requires |ds| > 0
    requires r.systems == Register(b, ds[0]).systems + SystemEntries(ds[1..])
    requires r.threadLocals == Register(b, ds[0]).threadLocals + LocalsIn(ds[1..])
    requires r.bundles == Register(b, ds[0]).bundles + BundlesIn(ds[1..])
    ensures r.systems == b.systems + SystemEntries(ds)
    ensures r.threadLocals == b.threadLocals + LocalsIn(ds)
    ensures r.bundles == b.bundles + BundlesIn(ds)
  {
    var x, rest := ds[0], ds[1..];
    FiltersUnfold(ds);
    AppendAssociative(b.systems, SystemEntries([x]), SystemEntries(rest));
    AppendAssociative(b.threadLocals, LocalsIn([x]), LocalsIn(rest));
    AppendAssociative(b.bundles, BundlesIn([x]), BundlesIn(rest));
  }

  /** The filters of a non-empty sequence split into its head and its tail. */
  lemma FiltersUnfold(ds: seq<Desc>)
    requires |ds| > 0
    ensures SystemEntries(ds) == SystemEntries([ds[0]]) + SystemEntries(ds[1..])
    ensures LocalsIn(ds) == LocalsIn([ds[0]]) + LocalsIn(ds[1..])
    ensures BundlesIn(ds) == BundlesIn([ds[0]]) + BundlesIn(ds[1..])
    ensures SystemsIn(ds) == SystemsIn([ds[0]]) + SystemsIn(ds[1..])
  {
    var x := ds[0];
    assert [x][0] == x && [x][1..] == [];
    assert SystemEntries([x]) == (if IsSystem(x) then [SystemEntry(x.stage, x)] else []);
    assert LocalsIn([x]) == (if IsLocal(x) then [x] else []);
    assert BundlesIn([x]) == (if x.BundleDesc? then [x] else []);
    assert SystemsIn([x]) == (if IsSystem(x) then [x] else []);
  }

  lemma {:induction false} RegisterAllConcat(b: DispatcherBuilder, xs: seq<Desc>, ys: seq<Desc>)
    ensures RegisterAll(RegisterAll(b, xs), ys) == RegisterAll(b, xs + ys)
    decreases |xs|
  {
    if |xs| == 0 {
      assert xs + ys == ys;
    } else {
      assert (xs + ys)[0] == xs[0];
      assert (xs + ys)[1..] == xs[1..] + ys;
      RegisterAllConcat(Register(b, xs[0]), xs[1..], ys);
    }
  }

  /** Registration through the builder keeps the builder's shape. */
  lemma {:induction false} RegisterAllWellFormed(b: DispatcherBuilder, ds: seq<Desc>)
    requires WellFormedBuilder(b)
    ensures WellFormedBuilder(RegisterAll(b, ds))
    decreases |ds|
  {
    if |ds| > 0 {
      var b' := Register(b, ds[0]);
      assert WellFormedBuilder(b');
      RegisterAllWellFormed(b', ds[1..]);
    }
  }

  lemma {:induction false} EntryDescsOfSystems(ds: seq<Desc>)
    ensures EntryDescs(SystemEntries(ds)) == SystemsIn(ds)
  {
    if |ds| > 0 {
      EntryDescsOfSystems(ds[1..]);
    }
  }

  /** Every descriptor is of exactly one kind, so the three filters partition a sequence. */
  lemma {:induction false} PartitionMultiset(ds: seq<Desc>)
    ensures multiset(SystemsIn(ds)) + multiset(BundlesIn(ds)) + multiset(LocalsIn(ds)) == multiset(ds)
  {
    if |ds| > 0 {
      PartitionMultiset(ds[1..]);
      assert ds == [ds[0]] + ds[1..];
    }
  }

  /** The filters of `[x] + rest`, by the kind of `x`. */
  lemma FiltersCons(x: Desc, rest: seq<Desc>)
    ensures SystemsIn([x] + rest) == (if IsSystem(x) then [x] else []) + SystemsIn(rest)
    ensures LocalsIn([x] + rest) == (if IsLocal(x) then [x] else []) + LocalsIn(rest)
    ensures BundlesIn([x] + rest) == (if x.BundleDesc? then [x] else []) + BundlesIn(rest)
  {
    var ds := [x] + rest;
    assert ds[0] == x && ds[1..] == rest;
  }

  lemma SumByCons(w: Desc -> Tally, x: Desc, rest: seq<Desc>)
    ensures SumBy(w, [x] + rest) == Plus(w(x), SumBy(w, rest))
  {
    var ds := [x] + rest;
    assert ds[0] == x && ds[1..] == rest;
  }

  lemma PlusShuffle(x: Tally, s: Tally, b: Tally, l: Tally)
    ensures Plus(Plus(Plus(x, s), b), l) == Plus(x, Plus(Plus(s, b), l))
    ensures Plus(Plus(s, Plus(x, b)), l) == Plus(x, Plus(Plus(s, b), l))
    ensures Plus(Plus(s, b), Plus(x, l)) == Plus(x, Plus(Plus(s, b), l))
  {
  }

  /** The sum of a weight over `ds`, grouped by kind. */
  function KindSums(w: Desc -> Tally, ds: seq<Desc>): Tally {
    Plus(Plus(SumBy(w, SystemsIn(ds)), SumBy(w, BundlesIn(ds))), SumBy(w, LocalsIn(ds)))
  }

  lemma KindSumsCons(w: Desc -> Tally, x: Desc, rest: seq<Desc>)
    ensures KindSums(w, [x] + rest) == Plus(w(x), KindSums(w, rest))
  {
    if IsSystem(x) {
      KindSumsConsSystem(w, x, rest);
    } else if IsLocal(x) {
      KindSumsConsLocal(w, x, rest);
    } else {
      KindSumsConsBundle(w, x, rest);
    }
  }

  lemma KindSumsConsSystem(w: Desc -> Tally, x: Desc, rest: seq<Desc>)
    requires IsSystem(x)
    ensures KindSums(w, [x] + rest) == Plus(w(x), KindSums(w, rest))
  {
    var ds := [x] + rest;
    FiltersCons(x, rest);
    assert SystemsIn(ds) == [x] + SystemsIn(rest);
    assert BundlesIn(ds) == BundlesIn(rest) && LocalsIn(ds) == LocalsIn(rest);
    SumByCons(w, x, SystemsIn(rest));
    PlusShuffle(w(x), SumBy(w, SystemsIn(rest)), SumBy(w, BundlesIn(rest)), SumBy(w, LocalsIn(rest)));
  }

  lemma KindSumsConsLocal(w: Desc -> Tally, x: Desc, rest: seq<Desc>)
    requires IsLocal(x)
    ensures KindSums(w, [x] + rest) == Plus(w(x), KindSums(w, rest))
  {
    var ds := [x] + rest;
    FiltersCons(x, rest);
    assert LocalsIn(ds) == [x] + LocalsIn(rest);
    assert BundlesIn(ds) == BundlesIn(rest) && SystemsIn(ds) == SystemsIn(rest);
    SumByCons(w, x, LocalsIn(rest));
    PlusShuffle(w(x), SumBy(w, SystemsIn(rest)), SumBy(w, BundlesIn(rest)), SumBy(w, LocalsIn(rest)));
  }

  lemma KindSumsConsBundle(w: Desc -> Tally, x: Desc, rest: seq<Desc>)
    requires x.BundleDesc?
    ensures KindSums(w, [x] + rest) == Plus(w(x), KindSums(w, rest))
  {
    var ds := [x] + rest;
    FiltersCons(x, rest);
    assert BundlesIn(ds) == [x] + BundlesIn(rest);
    assert SystemsIn(ds) == SystemsIn(rest) && LocalsIn(ds) == LocalsIn(rest);
    SumByCons(w, x, BundlesIn(rest));
    PlusShuffle(w(x), SumBy(w, SystemsIn(rest)), SumBy(w, BundlesIn(rest)), SumBy(w, LocalsIn(rest)));
  }

  /** Grouping by kind does not change a sum. */
  lemma {:induction false} PartitionSum(w: Desc -> Tally, ds: seq<Desc>)
    ensures KindSums(w, ds) == SumBy(w, ds)
  {
    if |ds| > 0 {
      var x, rest := ds[0], ds[1..];
      assert ds == [x] + rest;
      PartitionSum(w, rest);
      KindSumsCons(w, x, rest);
      SumByCons(w, x, rest);
    }
  }

  /** A builder filled only by registrations drains systems, then bundles, then thread-locals. */
  lemma RegisteredDrainOrder(ds: seq<Desc>)
    ensures Queued(RegisterAll(EmptyBuilder(), ds)) == SystemsIn(ds) + BundlesIn(ds) + LocalsIn(ds)
  {
    var b := RegisterAll(EmptyBuilder(), ds);
    assert b.systems == SystemEntries(ds);
    EntryDescsOfSystems(ds);
  }

  /** The builder filled by registering `ds` queues exactly the descriptors of `ds`,
      each once (a permutation of `ds`), and carries the same number of tasks. */
  lemma RegisteredQueue(ds: seq<Desc>)
    ensures multiset(Queued(RegisterAll(EmptyBuilder(), ds))) == multiset(ds)
    ensures SumLeaves(Queued(RegisterAll(EmptyBuilder(), ds))) == SumLeaves(ds)
    ensures IsEmpty(RegisterAll(EmptyBuilder(), ds)) <==> ds == []
  {
    var q := Queued(RegisterAll(EmptyBuilder(), ds));
    var sy, bu, lo := SystemsIn(ds), BundlesIn(ds), LocalsIn(ds);
    RegisteredDrainOrder(ds);
    assert multiset(q) == multiset(ds) by {
      PartitionMultiset(ds);
    }
    assert SumLeaves(q) == SumLeaves(ds) by {
      PartitionSum(Leaves, ds);
      SumByConcat(Leaves, sy, bu);
      SumByConcat(Leaves, sy + bu, lo);
      SumLeavesIsSumBy(ds);
      SumLeavesIsSumBy(q);
    }
    assert |multiset(q)| == |q|;
  }
}
