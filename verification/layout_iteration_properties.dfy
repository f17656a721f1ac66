/**
 Properties of the progress snapshot that relate several operations: the
 constructor chain, the store-then-look-up round trip of the info maps, and
 the `Abort` flag as the one writable property.
 */
module LayoutIterationProperties {
  import opened Nullables
  import opened LayoutIteration

  /** The shorter overloads of the plain snapshot are the full one with `""` and null substituted. */
  lemma PlainOverloadsDelegate(iteration: Int32, statusInPercent: real, message: string,
                               vertexPositions: Nullable<map<Vertex, Point>>)
    ensures Create() == CreateFull(0, 0.0, "", Null)
    ensures CreateAt(iteration, statusInPercent) == CreateFull(iteration, statusInPercent, "", Null)
    ensures CreateWithMessage(iteration, statusInPercent, message)
            == CreateFull(iteration, statusInPercent, message, Null)
    ensures CreateWithPositions(iteration, statusInPercent, vertexPositions)
            == CreateFull(iteration, statusInPercent, "", vertexPositions)
  {
  }

  /** The shorter overloads of the info-carrying snapshot are its full one with `""` and nulls substituted. */
  lemma InfoOverloadsDelegate(iteration: Int32, statusInPercent: real, message: string,
                              vertexPositions: Nullable<map<Vertex, Point>>)
    ensures CreateInfo() == CreateInfoFull(0, 0.0, "", Null, Null, Null)
    ensures CreateInfoAt(iteration, statusInPercent)
            == CreateInfoFull(iteration, statusInPercent, "", Null, Null, Null)
    ensures CreateInfoWithMessage(iteration, statusInPercent, message)
            == CreateInfoFull(iteration, statusInPercent, message, Null, Null, Null)
    ensures CreateInfoWithPositions(iteration, statusInPercent, vertexPositions)
            == CreateInfoFull(iteration, statusInPercent, "", vertexPositions, Null, Null)
  {
  }

  /**
   A plain snapshot answers null to every info lookup, whatever the key and
   whatever the default of the info type.
   */
  lemma PlainHasNoInfo(e: IterationEvent, v: Vertex, ev: Edge,
                       dv: Nullable<VertexInfo>, de: Nullable<EdgeInfo>)
    requires e.Plain?
    ensures e.GetVertexInfo(v, dv) == Null && e.GetEdgeInfo(ev, de) == Null
  {
  }

  /**
   An info-carrying snapshot built by any overload but the full one answers
   null to every info lookup: those overloads leave both info maps null.
   */
  lemma ShortInfoOverloadsHaveNoInfo(iteration: Int32, statusInPercent: real, message: string,
                                     vertexPositions: Nullable<map<Vertex, Point>>, v: Vertex, ev: Edge,
                                     dv: Nullable<VertexInfo>, de: Nullable<EdgeInfo>)
    ensures CreateInfo().GetVertexInfo(v, dv) == Null
    ensures CreateInfo().GetEdgeInfo(ev, de) == Null
    ensures CreateInfoAt(iteration, statusInPercent).GetVertexInfo(v, dv) == Null
    ensures CreateInfoAt(iteration, statusInPercent).GetEdgeInfo(ev, de) == Null
    ensures CreateInfoWithMessage(iteration, statusInPercent, message).GetVertexInfo(v, dv) == Null
    ensures CreateInfoWithMessage(iteration, statusInPercent, message).GetEdgeInfo(ev, de) == Null
    ensures CreateInfoWithPositions(iteration, statusInPercent, vertexPositions).GetVertexInfo(v, dv) == Null
    ensures CreateInfoWithPositions(iteration, statusInPercent, vertexPositions).GetEdgeInfo(ev, de) == Null
  {
  }

  /**
   Round trip: the info stored for a vertex or edge at construction, null or
   not, is the info the lookup returns for it; a key that was not stored gets
   the default.
   */
  lemma StoredInfoIsReturned(iteration: Int32, statusInPercent: real, message: string,
                             vertexPositions: Nullable<map<Vertex, Point>>,
                             vertexInfos: map<Vertex, Nullable<VertexInfo>>, edgeInfos: map<Edge, Nullable<EdgeInfo>>,
                             v: Vertex, ev: Edge, dv: Nullable<VertexInfo>, de: Nullable<EdgeInfo>)
    ensures var e := CreateInfoFull(iteration, statusInPercent, message, vertexPositions,
                                    NonNull(vertexInfos), NonNull(edgeInfos));
            && e.GetVertexInfo(v, dv) == (if v in vertexInfos then vertexInfos[v] else dv)
            && e.GetEdgeInfo(ev, de) == (if ev in edgeInfos then edgeInfos[ev] else de)
  {
  }

  /**
   A vertex lookup yields null exactly when the snapshot is plain, its
   vertex-info map is null, the info stored for the vertex is null, or the
   vertex is not a key and the default of the info type is itself null.
   */
  lemma VertexInfoNullIff(e: IterationEvent, v: Vertex, dflt: Nullable<VertexInfo>)
    ensures e.GetVertexInfo(v, dflt) == Null <==>
            || e.Plain?
            || e.verticesInfos.Null?
            || (v in e.verticesInfos.value && e.verticesInfos.value[v] == Null)
            || (v !in e.verticesInfos.value && dflt == Null)
  {
  }

  /** The edge counterpart of `VertexInfoNullIff`. */
  lemma EdgeInfoNullIff(e: IterationEvent, ev: Edge, dflt: Nullable<EdgeInfo>)
    ensures e.GetEdgeInfo(ev, dflt) == Null <==>
            || e.Plain?
            || e.edgesInfos.Null?
            || (ev in e.edgesInfos.value && e.edgesInfos.value[ev] == Null)
            || (ev !in e.edgesInfos.value && dflt == Null)
  {
  }

  /** Writing `Abort` does not change what the info lookups return. */
  lemma AbortKeepsInfos(e: IterationEvent, b: bool, v: Vertex, ev: Edge,
                        dv: Nullable<VertexInfo>, de: Nullable<EdgeInfo>)
    ensures e.SetAbort(b).GetVertexInfo(v, dv) == e.GetVertexInfo(v, dv)
    ensures e.SetAbort(b).GetEdgeInfo(ev, de) == e.GetEdgeInfo(ev, de)
  {
  }

  /**
   Writing back the value `Abort` had undoes a write, and writing the same
   value twice is the same as writing it once.
   */
  lemma AbortWriteUndone(e: IterationEvent, b: bool)
    ensures e.SetAbort(b).SetAbort(e.abort) == e
    ensures e.SetAbort(b).SetAbort(b) == e.SetAbort(b)
  {
  }

  /** A fresh snapshot of any overload reads back as not aborted until an observer writes `true`. */
  lemma FreshSnapshotAbortsOnlyOnRequest(iteration: Int32, statusInPercent: real, message: string,
                                         vertexPositions: Nullable<map<Vertex, Point>>,
                                         vertexInfos: Nullable<map<Vertex, Nullable<VertexInfo>>>,
                                         edgeInfos: Nullable<map<Edge, Nullable<EdgeInfo>>>, writes: seq<bool>)
    ensures ObserverWrites(CreateFull(iteration, statusInPercent, message, vertexPositions), writes).abort
            <==> |writes| > 0 && writes[|writes| - 1]
    ensures ObserverWrites(CreateInfoFull(iteration, statusInPercent, message, vertexPositions,
                                          vertexInfos, edgeInfos), writes).abort
            <==> |writes| > 0 && writes[|writes| - 1]
  {
  }

  /**
   Observer writes compose: delivering to the observers of `w1` and then to
   those of `w2` is delivering to all of them in that order.
   */
  lemma ObserverWritesCompose(e: IterationEvent, w1: seq<bool>, w2: seq<bool>)
    ensures ObserverWrites(e, w1 + w2) == ObserverWrites(ObserverWrites(e, w1), w2)
  {
  }

  /** Only the last observer's write matters. */
  lemma LastWriteWins(e: IterationEvent, writes: seq<bool>)
    requires |writes| > 0
    ensures ObserverWrites(e, writes) == e.SetAbort(writes[|writes| - 1])
  {
  }
}
