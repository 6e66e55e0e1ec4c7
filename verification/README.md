# Legion dispatcher: staging and composition, modelled in Dafny

This project models the staging and composition core of the Legion dispatcher of
`amethyst_core` (`amethyst_core/src/legion/dispatcher.rs`) and proves properties of it.

- A `Stage` is one of Begin, Logic, Render and ThreadLocal (`Stages`).
- A `Dispatcher` is the executable schedule (`Dispatchers`). It keeps a map from stage to
  an ordered bucket of parallel tasks, and an ordered list of thread-local tasks.
  - `Default` has exactly the three parallel buckets, all empty.
  - `Merge` appends the second dispatcher's work after the first's, stage by stage.
  - `Run` is reduced to what it hands on: the thread-locals in order, or one stage's
    bucket given to the parallel executor.
- Descriptors (`Descriptors`) are the five `ConsumeDesc` wrappers: a built system, a
  system factory, a built thread-local, a thread-local factory and a bundle. Each
  external payload's effect is given as data: a task, a failure, or, for a bundle, the
  descriptors it registers and its outcome.
- A `DispatcherBuilder` (`Builders`) keeps three queues: systems tagged with a stage,
  thread-locals and bundles. `Add*`/`With*` append to one queue. `IsEmpty` tests all three.
  A bundle registers descriptors through the same `add_*` calls (`Register`, `RegisterAll`).
- `Consume` and `ConsumeAll` (`Consumption`) are one descriptor's consumption and one
  drain loop. Both are specified against reference functions: `DescError`, `TaskOf`,
  `LocalOf` and `RegistersOf` for one descriptor, and `FirstError`, `StagedTasks`,
  `LocalsOf` and `RegisteredBy` for a sequence.
- `Build` (`Building`) does this:
  1. It drains systems, then bundles, then thread-locals into a fresh dispatcher and a
     fresh recursive builder.
  2. If the recursive builder is non-empty, it builds that builder and merges the result
     after the first pass.
  3. Any consume failure aborts the whole build.

  A build succeeds exactly when every descriptor is `Sound`: it consumes without error,
  and so does everything it registers, at every depth (`BuildSucceeds`).

  The recursion terminates because a bundle holds the descriptors it registers, so the
  bundle nesting depth (`BuilderHeight`) drops with every level. `BuildByPasses` is the
  same algorithm as an explicit work queue, one pass per loop iteration. It is proved
  equal to `Build`.

Tasks and thread-locals are opaque numbers. The world is not modelled. Its only effects
are what each factory produces and whether the thread-pool resource exists; both are
given as inputs. Where the source panics through `unwrap`, the model either returns a
failure value or, for `merge`, states the condition as a precondition.

## Model

| member | source | states |
|---|---|---|
| Dispatchers.Default | amethyst_core/src/legion/dispatcher.rs:30-44 | The default dispatcher has exactly the keys Begin, Logic and Render, each mapped to an empty bucket. ThreadLocal is not a key. There are no thread-locals. |
| Dispatchers.Merge | amethyst_core/src/legion/dispatcher.rs:64-71 | Thread-locals are `d`'s followed by `other`'s. The key set stays `d`'s. Each bucket is `d[k] ++ other[k]`. Well-formedness is preserved. The caller must give `other` a bucket for every key of `d`, because the lookup is unwrapped. |
| Dispatchers.MergeDefaultRight | amethyst_core/src/legion/dispatcher.rs:64-71 | Merging an empty dispatcher after any `d` whose keys are parallel stages returns `d` unchanged. |
| Dispatchers.MergeDefaultLeft | amethyst_core/src/legion/dispatcher.rs:64-71 | Merging a well-formed `d` after an empty dispatcher returns `d`. |
| Dispatchers.MergeAssociative | amethyst_core/src/legion/dispatcher.rs:64-71 | `(A.merge(B)).merge(C)` equals `A.merge(B.merge(C))` in every bucket and in the thread-locals, whenever each merge's precondition holds. |
| Dispatchers.Run | amethyst_core/src/legion/dispatcher.rs:47-62 | ThreadLocal runs exactly the thread-locals, in registration order. It never touches a bucket. Any other stage hands over exactly that stage's bucket, and does so whenever the bucket and the thread pool are both present, whether or not the dispatcher is well-formed. It fails only when the bucket or the thread pool is missing. A missing bucket is reported before a missing pool, as the bucket lookup is evaluated first. |
| Dispatchers.RunMerge | amethyst_core/src/legion/dispatcher.rs:47-71 | Running a merged dispatcher runs the first operand's thread-locals or batch, then the second's. |
| Builders.EmptyBuilder | amethyst_core/src/legion/dispatcher.rs:74-79 | A default builder is empty, and every queue holds only its own kind of descriptor. |
| Builders.IsEmpty | amethyst_core/src/legion/dispatcher.rs:140-142 | `is_empty` holds exactly when nothing is left for `build` to drain from the three queues. |
| Builders.AddThreadLocal | amethyst_core/src/legion/dispatcher.rs:81-84 | Appends one built thread-local descriptor to the end of the thread-local queue. The other two queues stay unchanged. |
| Builders.AddThreadLocalDesc | amethyst_core/src/legion/dispatcher.rs:86-89 | Appends one thread-local factory descriptor to the end of the thread-local queue. The other two queues stay unchanged. |
| Builders.AddSystem | amethyst_core/src/legion/dispatcher.rs:91-96 | Appends one system entry, tagged with the given stage, to the end of the systems queue. The other two queues stay unchanged. |
| Builders.AddSystemDesc | amethyst_core/src/legion/dispatcher.rs:98-103 | Appends one system-factory entry, tagged with the given stage, to the end of the systems queue. The other two queues stay unchanged. |
| Builders.AddBundle | amethyst_core/src/legion/dispatcher.rs:105-108 | Appends one bundle descriptor to the end of the bundle queue. The other two queues stay unchanged. |
| Builders.WithThreadLocal | amethyst_core/src/legion/dispatcher.rs:110-114 | The builder returned has the thread-local appended at the very end of everything `build` will drain. Systems and bundles are unchanged. |
| Builders.WithThreadLocalDesc | amethyst_core/src/legion/dispatcher.rs:116-120 | The builder returned has the thread-local factory appended at the very end of the drain order. Systems and bundles are unchanged. |
| Builders.WithSystem | amethyst_core/src/legion/dispatcher.rs:122-126 | The builder returned has one more system entry at the end of the systems queue. The other queues are unchanged. |
| Builders.WithSystemDesc | amethyst_core/src/legion/dispatcher.rs:128-132 | The builder returned has one more system-factory entry at the end of the systems queue. The other queues are unchanged. |
| Builders.WithBundle | amethyst_core/src/legion/dispatcher.rs:134-138 | The builder returned has one more bundle at the end of the bundle queue. The other queues are unchanged. |
| Builders.Register | amethyst_core/src/legion/dispatcher.rs:81-108 | A registration through the builder's interface goes to the one queue that matches the descriptor's kind. |
| Builders.RegisterAll | amethyst_core/src/legion/dispatcher.rs:81-108 | A run of registrations appends each kind's descriptors to that kind's queue, in registration order. |
| Builders.RegisterAllConcat | amethyst_core/src/legion/dispatcher.rs:81-108 | Registering `xs` then `ys` equals registering `xs ++ ys`. |
| Builders.RegisterAllWellFormed | amethyst_core/src/legion/dispatcher.rs:81-108 | Registration keeps every queue restricted to its own kind, and keeps each system's tag equal to its stage. |
| Builders.RegisteredDrainOrder | amethyst_core/src/legion/dispatcher.rs:147-167 | A recursive builder filled only by registering `ds` drains the systems of `ds`, then its bundles, then its thread-locals, each kind in registration order. |
| Builders.RegisteredQueue | amethyst_core/src/legion/dispatcher.rs:147-167 | A recursive builder filled by registering `ds` queues each descriptor of `ds` exactly once (a permutation). It carries the same tasks and thread-locals as `ds`. It is empty iff `ds` is empty. |
| Consumption.Consume | amethyst_core/src/legion/dispatcher.rs:9-16 | Consuming one descriptor fails exactly when its reference error is set, and returns that error. Otherwise it appends only the descriptor's own task to its stage's bucket, its thread-local to the list, or its registrations to the recursive builder. |
| Consumption.ConsumeAll | amethyst_core/src/legion/dispatcher.rs:148-163 | A drain loop consumes every descriptor once and in order. It fails exactly when one fails, with the first error. Otherwise it appends each descriptor's contribution in order. |
| Consumption.SoundSplit | amethyst_core/src/legion/dispatcher.rs:148-167 | Descriptors are sound at every depth exactly when one pass over them finds no error and everything that pass registers is sound in turn. |
| Consumption.ConsumeFromDefault | amethyst_core/src/legion/dispatcher.rs:145-163 | A pass from an empty dispatcher and an empty recursive builder yields the reference dispatcher of the drained descriptors. The recursive builder then holds their registrations. |
| Building.ConsumeAllConcat | amethyst_core/src/legion/dispatcher.rs:148-163 | Two drain loops in a row equal one drain loop over the concatenation. |
| Building.FirstPass | amethyst_core/src/legion/dispatcher.rs:144-163 | The three drain loops together consume systems, then bundles, then thread-locals. The pass fails exactly on the first failing descriptor in that order. Otherwise it yields the reference dispatcher and recursive builder of that order. |
| Building.RecursionShrinks | amethyst_core/src/legion/dispatcher.rs:165-167 | The recursive builder filled by the bundles of a builder has strictly smaller bundle depth than that builder, so the recursion in `build` terminates. |
| Building.Build | amethyst_core/src/legion/dispatcher.rs:144-171 | A built dispatcher has exactly the three stage buckets. A failure anywhere in the first pass fails the whole build with that error, even when every other descriptor would have succeeded. |
| Building.BuildLayers | amethyst_core/src/legion/dispatcher.rs:165-170 | When the first pass finds no error, the build succeeds with the single-pass dispatcher if the bundles registered nothing. Otherwise it is the first-pass dispatcher merged with the build of the recursive builder, and it fails exactly when that build fails. |
| Building.BuildSucceeds | amethyst_core/src/legion/dispatcher.rs:144-171 | `build` returns a dispatcher exactly when every queued descriptor, and everything bundles register at every depth, consumes without error. In any other case some `unwrap` panics. |
| Building.BuildCompleteness | amethyst_core/src/legion/dispatcher.rs:144-171 | A builder holding n pre-built systems for parallel stages, m pre-built thread-locals and no bundles builds successfully. The result holds n parallel tasks over its buckets and m thread-locals. |
| Building.BuildKeepsFirstPassFirst | amethyst_core/src/legion/dispatcher.rs:165-170 | In every bucket and in the thread-local list of a successful build, first-pass tasks come first, in drain order. Recursively registered tasks follow them. `BuildSucceeds` says which builds succeed. |
| Building.BuildTally | amethyst_core/src/legion/dispatcher.rs:144-171 | A successful build holds exactly as many parallel tasks and thread-locals as the queued descriptors resolve to, with bundles expanded at every depth. `BuildSucceeds` says which builds succeed. |
| Building.BuildEmpty | amethyst_core/src/legion/dispatcher.rs:144-171 | Building a default builder yields the default dispatcher. |
| Building.BuildByPasses | amethyst_core/src/legion/dispatcher.rs:144-171 | The work-queue version runs one pass per iteration and merges each pass's dispatcher after the earlier ones. It returns the same result as the recursive `Build`. |

## Left out

- The parallel branch of `run` is cut off where the bucket is handed to `legion::system::StageExecutor`. The executor's conflict scheduling and the thread pool are concurrency and foreign code. The thread-pool resource is reduced to a flag saying whether it is present.
- `ThreadLocal::run` and the parallel tasks themselves are not executed. `Run` returns the order of execution, not its effects on the world.
- The world and its resources are not modelled. Each factory's and each bundle's result is an input. So a descriptor cannot see what earlier descriptors did to the world.
- The `consume` bodies of the five wrappers (`DispatcherSystem`, `DispatcherSystemDesc`, `DispatcherThreadLocal`, `DispatcherThreadLocalDesc`, `DispatcherSystemBundle`) are not part of this model. Their effects follow the descriptor protocol, with two assumptions. First, a system aimed at a stage with no bucket (ThreadLocal) makes `build` fail with `NoBucket`. This mirrors the unwrapped bucket lookup in `merge` and `run`. Second, a system factory runs before its bucket is looked up, so a failing factory aimed at ThreadLocal reports its own error rather than `NoBucket`. The source panics either way, so the two assumptions change only which error value the model reports.
- A failing bundle fails the build whatever it registered before failing. The recursive builder is then thrown away with the rest of the build.
- The source recurses on the recursive builder without any bound (lines 166-167). In the model a bundle holds the descriptors it registers. So a bundle that registers itself forever cannot be expressed, and `Build` terminates by bundle depth instead.
- The source panics on a consume error (`unwrap` at lines 151, 157 and 162) instead of returning it. The model turns that panic into a `Failure` value that aborts the whole build.
- The `serde` derives on `Stage`, the unused imports, `Box`/`dyn` ownership and the `amethyst_error::Error` type are left out. Errors are opaque numbers.
