# GraphShape layout iteration snapshot, in Dafny

GraphShape's layout algorithms report progress by raising an event whose
arguments are a `LayoutIterationEventArgs` snapshot. The snapshot holds:

- the iteration number;
- the completion percentage;
- a status message;
- the current vertex positions (possibly null);
- an `Abort` flag that an observer may set to ask the algorithm to stop.

The info-carrying subclass adds optional per-vertex and per-edge diagnostic
maps. It answers `GetVertexInfo` / `GetEdgeInfo` by a three-way rule:

- a null map gives null;
- a key gives its stored value, which may itself be null;
- any other argument gives `default` of the info type.

The plain snapshot answers null to both lookups.

The model has three modules:

- `Nullables` (`nullables.dfy`): `Nullable<T>`, the .NET null reference
  (`Null`) or a reference to / boxed copy of a value (`NonNull`).
- `LayoutIteration` (`layout_iteration.dfy`): one datatype `IterationEvent`
  with constructor `Plain` for the base class and `WithInfos` for the
  subclass. The virtual lookups dispatch on the constructor. Each .NET
  constructor overload is a function (`Create…` for the base class,
  `CreateInfo…` for the subclass). The observer's write to `Abort` is
  `SetAbort`, and a run of writes by several observers is `ObserverWrites`.
- `LayoutIterationProperties` (`layout_iteration_properties.dfy`): lemmas
  relating the operations. They cover the constructor chain, the
  store-then-look-up round trip, the exact cases in which a lookup yields
  null, and `Abort` as the only writable property.

Modelling choices:

- The classes' generic parameters `TVertex`, `TEdge`, `TVertexInfo` and
  `TEdgeInfo` are the opaque types `Vertex`, `Edge`, `VertexInfo` and
  `EdgeInfo`. Nothing is assumed of them beyond equality on vertices and
  edges (dictionary keys), so the proved facts hold for every instantiation.
  They are opaque types rather than type parameters so that the overloads
  without a vertex or info argument need no explicit type arguments.
- The classes do not constrain the info types, so a stored info may be null.
  The info maps therefore hold `Nullable` values:
  `map<Vertex, Nullable<VertexInfo>>` and `map<Edge, Nullable<EdgeInfo>>`.
- `default(TVertexInfo)` / `default(TEdgeInfo)` is an explicit `dflt`
  argument of the lookups. It is `Null` when the info type is a reference
  type or a nullable value type. It is `NonNull(zero)`, the boxed zero
  value, when the info type is a non-nullable value type.
- The iteration number is `Int32`, the range of .NET `int`. The percentage
  is a `real`. A position is a pair of `real`s that is only stored, never
  computed with.
- No constructor checks or clamps its iteration number or percentage.
  Negative iterations and percentages outside 0..100 are stored as given, so
  no constructor has a `requires`.
- `Abort` has an unrestricted public setter
  (`LayoutIterationEventArgs.cs:103`), so any number of writes is allowed and
  the last one is what the algorithm reads.

## Model

| member | source | states |
|---|---|---|
| LayoutIteration.CreateFull | src/GraphShape/Algorithms/Layout/LayoutIterationEventArgs.cs:85-93 | the full base constructor builds a plain snapshot that stores iteration, percentage, message and position map exactly as given, for every input with no validation, and starts with `Abort` false |
| LayoutIteration.Create | src/GraphShape/Algorithms/Layout/LayoutIterationEventArgs.cs:68-70 | the parameterless base constructor yields iteration 0, percentage 0, empty message, null positions, not aborted |
| LayoutIteration.CreateAt | src/GraphShape/Algorithms/Layout/LayoutIterationEventArgs.cs:72-74 | the (iteration, percentage) overload keeps both arguments, with empty message, null positions, not aborted |
| LayoutIteration.CreateWithMessage | src/GraphShape/Algorithms/Layout/LayoutIterationEventArgs.cs:76-78 | the overload with a message keeps iteration, percentage and message, with null positions, not aborted |
| LayoutIteration.CreateWithPositions | src/GraphShape/Algorithms/Layout/LayoutIterationEventArgs.cs:80-83 | the overload with positions keeps iteration, percentage and position map, with empty message, not aborted |
| LayoutIteration.CreateInfoFull | src/GraphShape/Algorithms/Layout/LayoutIterationEventArgs.cs:31-39 | the full subclass constructor has the same progress properties as the base full constructor on the same arguments, is not aborted, and stores both info maps (null or not) as given |
| LayoutIteration.CreateInfo | src/GraphShape/Algorithms/Layout/LayoutIterationEventArgs.cs:14-16 | the parameterless subclass constructor yields iteration 0, percentage 0, empty message, null positions, null vertex and edge infos, not aborted |
| LayoutIteration.CreateInfoAt | src/GraphShape/Algorithms/Layout/LayoutIterationEventArgs.cs:18-20 | the subclass (iteration, percentage) overload keeps both, with empty message and null positions and infos, not aborted |
| LayoutIteration.CreateInfoWithMessage | src/GraphShape/Algorithms/Layout/LayoutIterationEventArgs.cs:22-24 | the subclass overload with a message keeps iteration, percentage and message, with null positions and infos, not aborted |
| LayoutIteration.CreateInfoWithPositions | src/GraphShape/Algorithms/Layout/LayoutIterationEventArgs.cs:26-29 | the subclass overload with positions keeps iteration, percentage and positions, with empty message and null infos, not aborted |
| LayoutIteration.IterationEvent.SetAbort | src/GraphShape/Algorithms/Layout/LayoutIterationEventArgs.cs:95-115 | a write to `Abort` makes the flag read back as the written value and leaves iteration, percentage, message, positions, the class and both info maps unchanged, because only `Abort` has a public setter |
| LayoutIteration.IterationEvent.GetVertexInfo | src/GraphShape/Algorithms/Layout/LayoutIterationEventArgs.cs:44-50 | the vertex lookup is null on a plain snapshot and on a null vertex-info map, the stored info (null or not) for a key, `default` otherwise; it is total |
| LayoutIteration.IterationEvent.GetEdgeInfo | src/GraphShape/Algorithms/Layout/LayoutIterationEventArgs.cs:52-58 | the edge lookup is null on a plain snapshot and on a null edge-info map, the stored info (null or not) for a key, `default` otherwise; it is total |
| LayoutIteration.InfoLookup | src/GraphShape/Algorithms/Layout/LayoutIterationEventArgs.cs:46-49 | the shared three-way lookup: null map gives null, a present key its stored value (possibly null), an absent key the default |
| LayoutIteration.ObserverWrites | src/GraphShape/Algorithms/Layout/LayoutIterationEventArgs.cs:100-103 | after any sequence of observer writes the snapshot's progress properties, class and info maps are unchanged and `Abort` holds the last value written, or its old value if nobody wrote |
| LayoutIterationProperties.PlainOverloadsDelegate | src/GraphShape/Algorithms/Layout/LayoutIterationEventArgs.cs:68-83 | each shorter base overload equals the full base constructor with `""` for the message and/or null for the positions |
| LayoutIterationProperties.InfoOverloadsDelegate | src/GraphShape/Algorithms/Layout/LayoutIterationEventArgs.cs:14-29 | each shorter subclass overload equals the full subclass constructor with `""` and/or nulls substituted |
| LayoutIterationProperties.PlainHasNoInfo | src/GraphShape/Algorithms/Layout/LayoutIterationEventArgs.cs:117-125 | the base class answers null to every vertex and edge lookup, for any key and any default |
| LayoutIterationProperties.ShortInfoOverloadsHaveNoInfo | src/GraphShape/Algorithms/Layout/LayoutIterationEventArgs.cs:14-29 | a subclass snapshot built by any shorter overload answers null to every lookup, even when `default` of the info type is not null |
| LayoutIterationProperties.StoredInfoIsReturned | src/GraphShape/Algorithms/Layout/LayoutIterationEventArgs.cs:31-58 | round trip: the info stored for a vertex or edge at construction, null or not, is what the lookup returns for it; an unstored key gets the default |
| LayoutIterationProperties.VertexInfoNullIff | src/GraphShape/Algorithms/Layout/LayoutIterationEventArgs.cs:44-50 | a vertex lookup is null if and only if the snapshot is plain, its vertex-info map is null, the vertex's stored info is null, or the vertex is absent and the default is null |
| LayoutIterationProperties.EdgeInfoNullIff | src/GraphShape/Algorithms/Layout/LayoutIterationEventArgs.cs:52-58 | an edge lookup is null if and only if the snapshot is plain, its edge-info map is null, the edge's stored info is null, or the edge is absent and the default is null |
| LayoutIterationProperties.AbortKeepsInfos | src/GraphShape/Algorithms/Layout/LayoutIterationEventArgs.cs:41-42 | writing `Abort` never changes what either lookup returns, since the info maps have private setters |
| LayoutIterationProperties.AbortWriteUndone | src/GraphShape/Algorithms/Layout/LayoutIterationEventArgs.cs:103 | writing back the old flag value restores the original snapshot exactly, and repeating a write changes nothing |
| LayoutIterationProperties.FreshSnapshotAbortsOnlyOnRequest | src/GraphShape/Algorithms/Layout/LayoutIterationEventArgs.cs:85-103 | a freshly built snapshot of either class reads as aborted after its observers' writes if and only if some observer wrote and the last write was `true` |
| LayoutIterationProperties.ObserverWritesCompose | src/GraphShape/Algorithms/Layout/LayoutIterationEventArgs.cs:103 | two successive runs of observer writes equal one run of their concatenation |
| LayoutIterationProperties.LastWriteWins | src/GraphShape/Algorithms/Layout/LayoutIterationEventArgs.cs:103 | after a non-empty run of writes the snapshot equals the original with only the last write applied |

## Left out

- tests/GraphShape.Tests/Algorithms/Layout/LayoutAlgorithmTestBase.cs: test scaffolding. It only wires an algorithm's `Compute` into four metric calculators, and those calculators are not part of this model. Its 20×20 vertex sizes and `CheckResult` assertions are test expectations, not library behaviour.
- Event delivery order, monotone progress and an algorithm honouring `Abort`: these belong to the concrete layout algorithms, which are not part of this model. The snapshot itself guarantees none of them.
- Cross-thread visibility of the `Abort` flag: a concurrency concern. The model treats observer writes as a sequence in delivery order.
- `double` percentage: modelled as `real`, so NaN and infinities are not represented. `System.Windows.Point` is an opaque pair of `real`s.
- `EventArgs` and the `ILayoutIterationEventArgs` / `ILayoutInfoIterationEventArgs` interfaces: foreign .NET types. Only the concrete fields and methods are modelled.
- Null message: the model's message is always a string, so a caller passing a null `message` to a constructor is not represented.
- Null keys: a .NET `Dictionary` throws on `TryGetValue(null)`. Vertices and edges here are values, so that failure is not represented.
- Dictionary aliasing: the snapshot keeps a reference to the caller's dictionaries, which the caller could mutate later. The model stores map values, i.e. their contents at construction.
