/**
 The progress snapshot every layout algorithm hands to its observers after an
 iteration: iteration number, completion percentage, status message, the
 current vertex positions, and an `abort` flag the observer may set to ask the
 algorithm to stop.  The info-carrying variant additionally holds optional
 per-vertex and per-edge diagnostic information.

 The two .NET classes (the base snapshot and its info-carrying subclass) are
 one datatype with two constructors; the virtual `GetVertexInfo` and
 `GetEdgeInfo` dispatch on the constructor.
 */
module LayoutIteration {
  import opened Nullables

  /** The .NET `int` that holds the iteration number. */
  newtype Int32 = x: int | -0x8000_0000 <= x < 0x8000_0000

  // The graph's vertex and edge types and the types of the diagnostic info
  // attached to them.  They are generic parameters of the snapshot classes.
  // Here they are opaque types rather than type parameters, so that the
  // constructor overloads without a vertex or info argument (`Create()`,
  // `CreateAt(...)`) need no explicit type arguments at each use.  Nothing is
  // assumed of them beyond equality on vertices and edges, so every fact
  // proved below holds for whatever types are substituted.  An info value may
  // be null (the classes do not constrain the info types), so the info maps
  // hold `Nullable` values.

  type Vertex(==)

  type Edge(==)

  type VertexInfo

  type EdgeInfo

  /** A vertex position; coordinates are never computed with here. */
  datatype Point = Point(x: real, y: real)

  /**
   A progress snapshot.  The `WithInfos` variant carries per-vertex and
   per-edge info maps; the `Plain` variant carries none.
   */
  datatype IterationEvent =
    | Plain(iteration: Int32, statusInPercent: real, message: string,
            verticesPositions: Nullable<map<Vertex, Point>>, abort: bool)
    | WithInfos(iteration: Int32, statusInPercent: real, message: string,
                verticesPositions: Nullable<map<Vertex, Point>>, abort: bool,
                verticesInfos: Nullable<map<Vertex, Nullable<VertexInfo>>>, edgesInfos: Nullable<map<Edge, Nullable<EdgeInfo>>>)
  {
    /** The observer's write to the `Abort` property: no other property has a public setter. */
    function SetAbort(value: bool): (r: IterationEvent)
      ensures r.abort == value
      ensures SameProgress(r, this) && SameInfos(r, this)
    {
      this.(abort := value)
    }

    /**
     The info attached to `vertex`, as an `object`.  The plain snapshot has
     none; the info-carrying one has none when its vertex-info map is null,
     and otherwise the stored info (which may itself be null), or `dflt` (the
     boxed `default` of the info type) when the vertex is not a key.
     */
    function GetVertexInfo(vertex: Vertex, dflt: Nullable<VertexInfo>): (r: Nullable<VertexInfo>)
      ensures Plain? ==> r == Null
      ensures WithInfos? && verticesInfos.Null? ==> r == Null
      ensures WithInfos? && verticesInfos.NonNull? && vertex in verticesInfos.value ==>
                r == verticesInfos.value[vertex]
      ensures WithInfos? && verticesInfos.NonNull? && vertex !in verticesInfos.value ==>
                r == dflt
    {
      match this
      case Plain(_, _, _, _, _) => Null
      case WithInfos(_, _, _, _, _, infos, _) => InfoLookup(infos, vertex, dflt)
    }

    /** The info attached to `edge`, by the same rule as `GetVertexInfo` over the edge-info map. */
    function GetEdgeInfo(edge: Edge, dflt: Nullable<EdgeInfo>): (r: Nullable<EdgeInfo>)
      ensures Plain? ==> r == Null
      ensures WithInfos? && edgesInfos.Null? ==> r == Null
      ensures WithInfos? && edgesInfos.NonNull? && edge in edgesInfos.value ==>
                r == edgesInfos.value[edge]
      ensures WithInfos? && edgesInfos.NonNull? && edge !in edgesInfos.value ==>
                r == dflt
    {
      match this
      case Plain(_, _, _, _, _) => Null
      case WithInfos(_, _, _, _, _, _, infos) => InfoLookup(infos, edge, dflt)
    }
  }

  /** The four read-only progress properties agree. */
  ghost predicate SameProgress(a: IterationEvent, b: IterationEvent)
  {
    && a.iteration == b.iteration
    && a.statusInPercent == b.statusInPercent
    && a.message == b.message
    && a.verticesPositions == b.verticesPositions
  }

  /** Both snapshots are of the same class and, if info-carrying, hold the same info maps. */
  ghost predicate SameInfos(a: IterationEvent, b: IterationEvent)
  {
    && a.Plain? == b.Plain?
    && (a.WithInfos? ==> a.verticesInfos == b.verticesInfos && a.edgesInfos == b.edgesInfos)
  }

  /**
   The shared lookup rule of the info-carrying snapshot: a null map gives
   null, a key gives its stored value (itself possibly null), any other
   argument gives `dflt`.  It never fails.
   */
  function InfoLookup<K, T>(infos: Nullable<map<K, Nullable<T>>>, key: K, dflt: Nullable<T>): (r: Nullable<T>)
    ensures infos.Null? ==> r == Null
    ensures infos.NonNull? && key in infos.value ==> r == infos.value[key]
    ensures infos.NonNull? && key !in infos.value ==> r == dflt
  {
    match infos
    case Null => Null
    case NonNull(m) => if key in m then m[key] else dflt
  }

  // Constructors of the plain snapshot.  Every overload funnels into
  // `CreateFull`, which stores its arguments as given and clears `abort`.

  function CreateFull(iteration: Int32, statusInPercent: real, message: string,
                      vertexPositions: Nullable<map<Vertex, Point>>): (r: IterationEvent)
    ensures r.Plain? && !r.abort
    ensures r.iteration == iteration && r.statusInPercent == statusInPercent
    ensures r.message == message && r.verticesPositions == vertexPositions
  {
    Plain(iteration, statusInPercent, message, vertexPositions, false)
  }

  function Create(): (r: IterationEvent)
    ensures r.Plain? && !r.abort
    ensures r.iteration == 0 && r.statusInPercent == 0.0
    ensures r.message == "" && r.verticesPositions == Null
  {
    CreateFull(0, 0.0, "", Null)
  }

  function CreateAt(iteration: Int32, statusInPercent: real): (r: IterationEvent)
    ensures r.Plain? && !r.abort
    ensures r.iteration == iteration && r.statusInPercent == statusInPercent
    ensures r.message == "" && r.verticesPositions == Null
  {
    CreateFull(iteration, statusInPercent, "", Null)
  }

  function CreateWithMessage(iteration: Int32, statusInPercent: real, message: string): (r: IterationEvent)
    ensures r.Plain? && !r.abort
    ensures r.iteration == iteration && r.statusInPercent == statusInPercent
    ensures r.message == message && r.verticesPositions == Null
  {
    CreateFull(iteration, statusInPercent, message, Null)
  }

  function CreateWithPositions(iteration: Int32, statusInPercent: real,
                               vertexPositions: Nullable<map<Vertex, Point>>): (r: IterationEvent)
    ensures r.Plain? && !r.abort
    ensures r.iteration == iteration && r.statusInPercent == statusInPercent
    ensures r.message == "" && r.verticesPositions == vertexPositions
  {
    CreateFull(iteration, statusInPercent, "", vertexPositions)
  }

  // Constructors of the info-carrying snapshot.  Every overload funnels into
  // `CreateInfoFull`, which runs the plain full constructor and then stores
  // the two info maps.

  function CreateInfoFull(iteration: Int32, statusInPercent: real, message: string,
                          vertexPositions: Nullable<map<Vertex, Point>>,
                          vertexInfos: Nullable<map<Vertex, Nullable<VertexInfo>>>,
                          edgeInfos: Nullable<map<Edge, Nullable<EdgeInfo>>>): (r: IterationEvent)
    ensures r.WithInfos? && !r.abort
    ensures SameProgress(r, CreateFull(iteration, statusInPercent, message, vertexPositions))
    ensures r.verticesInfos == vertexInfos && r.edgesInfos == edgeInfos
  {
    var base: IterationEvent := CreateFull(iteration, statusInPercent, message, vertexPositions);
    WithInfos(base.iteration, base.statusInPercent, base.message, base.verticesPositions, base.abort,
              vertexInfos, edgeInfos)
  }

  function CreateInfo(): (r: IterationEvent)
    ensures r.WithInfos? && !r.abort
    ensures r.iteration == 0 && r.statusInPercent == 0.0
    ensures r.message == "" && r.verticesPositions == Null
    ensures r.verticesInfos == Null && r.edgesInfos == Null
  {
    CreateInfoFull(0, 0.0, "", Null, Null, Null)
  }

  function CreateInfoAt(iteration: Int32, statusInPercent: real): (r: IterationEvent)
    ensures r.WithInfos? && !r.abort
    ensures r.iteration == iteration && r.statusInPercent == statusInPercent
    ensures r.message == "" && r.verticesPositions == Null
    ensures r.verticesInfos == Null && r.edgesInfos == Null
  {
    CreateInfoFull(iteration, statusInPercent, "", Null, Null, Null)
  }

  function CreateInfoWithMessage(iteration: Int32, statusInPercent: real, message: string): (r: IterationEvent)
    ensures r.WithInfos? && !r.abort
    ensures r.iteration == iteration && r.statusInPercent == statusInPercent
    ensures r.message == message && r.verticesPositions == Null
    ensures r.verticesInfos == Null && r.edgesInfos == Null
  {
    CreateInfoFull(iteration, statusInPercent, message, Null, Null, Null)
  }

  function CreateInfoWithPositions(iteration: Int32, statusInPercent: real,
                                   vertexPositions: Nullable<map<Vertex, Point>>): (r: IterationEvent)
    ensures r.WithInfos? && !r.abort
    ensures r.iteration == iteration && r.statusInPercent == statusInPercent
    ensures r.message == "" && r.verticesPositions == vertexPositions
    ensures r.verticesInfos == Null && r.edgesInfos == Null
  {
    CreateInfoFull(iteration, statusInPercent, "", vertexPositions, Null, Null)
  }

  /**
   The snapshot after its observers, in delivery order, have each written
   `writes[i]` to `Abort`.  The setter is unrestricted, so any number of
   writes is allowed and the last one is what the algorithm reads.
   */
  function ObserverWrites(e: IterationEvent, writes: seq<bool>): (r: IterationEvent)
    ensures SameProgress(r, e) && SameInfos(r, e)
    ensures r.abort == if |writes| == 0 then e.abort else writes[|writes| - 1]
    decreases |writes|
  {
    if |writes| == 0 then e else ObserverWrites(e.SetAbort(writes[0]), writes[1..])
  }
}
