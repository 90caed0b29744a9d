/** What the graph file models let through (backend/schema/models.py). */
module Models {
  import opened Wrappers
  import opened Digraph
  import opened Graph

  datatype Kind = Data | SubNode
  datatype Endpoint = Endpoint(node: Id, slot: Option<Slot>)

  /** An edge as it stands in a file, before its shape is checked against its kind. */
  datatype RawEdge = RawEdge(kind: Kind, from: Endpoint, to: Endpoint, slot: Option<string>)

  function ParseEdge(raw: RawEdge): Option<EdgeSpec> {
    match raw.kind
    case Data =>
      if raw.from.slot.None? || raw.to.slot.None? || raw.slot.Some? then None
      else Some(DataEdge(raw.from.node, raw.from.slot.value, raw.to.node, raw.to.slot.value))
    case SubNode =>
      if raw.slot.None? || raw.from.slot.Some? || raw.to.slot.Some? then None
      else Some(SubNodeEdge(raw.from.node, raw.to.node, raw.slot.value))
  }

  function WriteEdge(e: EdgeSpec): RawEdge {
    match e
    case DataEdge(src, srcSlot, dst, dstSlot) => RawEdge(Data, Endpoint(src, Some(srcSlot)),
                                                         Endpoint(dst, Some(dstSlot)), None)
    case SubNodeEdge(src, dst, slot) => RawEdge(SubNode, Endpoint(src, None), Endpoint(dst, None), Some(slot))
  }

  /** An edge is accepted exactly in two shapes: a data edge names both its slots and no slot of a
      root; a sub-node edge names a slot of its root and none of its own. Its ends are read as written. */
  lemma ParseIsExact(raw: RawEdge, e: EdgeSpec)
    ensures ParseEdge(raw) == Some(e) <==>
              match e
              case DataEdge(src, srcSlot, dst, dstSlot) =>
                raw == RawEdge(Data, Endpoint(src, Some(srcSlot)), Endpoint(dst, Some(dstSlot)), None)
              case SubNodeEdge(src, dst, slot) =>
                raw == RawEdge(SubNode, Endpoint(src, None), Endpoint(dst, None), Some(slot))
    ensures ParseEdge(raw) == Some(e) <==> raw == WriteEdge(e)
  {
  }

  ghost predicate Repeated(ids: seq<Id>, id: Id) {
    exists i, j :: 0 <= i < j < |ids| && ids[i] == id && ids[j] == id
  }

  /** The ids that more than one node carries. */
  method FindDuplicates(nodes: seq<NodeSpec>) returns (duplicates: set<Id>)
    ensures forall id :: id in duplicates <==> Repeated(NodeIds(nodes), id)
    ensures duplicates == {} <==> Distinct(NodeIds(nodes))
  {
    var seen: set<Id> := {};
    duplicates := {};
    var ids := NodeIds(nodes);
    for k := 0 to |nodes|
      invariant forall id :: id in seen <==> id in ids[..k]
      invariant forall id :: id in duplicates <==> Repeated(ids[..k], id)
    {
      forall id ensures Repeated(ids[..k + 1], id) <==> Repeated(ids[..k], id) || (id == ids[k] && id in ids[..k]) {
        OneMore(ids, k, id);
      }
      if nodes[k].id in seen {
        duplicates := duplicates + {nodes[k].id};
      }
      seen := seen + {nodes[k].id};
    }
    assert ids[..|nodes|] == ids;
    NoneRepeated(ids);
  }

  lemma OneMore(ids: seq<Id>, k: nat, id: Id)
    requires k < |ids|
    ensures Repeated(ids[..k + 1], id) <==> Repeated(ids[..k], id) || (id == ids[k] && id in ids[..k])
  {
    var front, more := ids[..k], ids[..k + 1];
    assert forall i | 0 <= i < k :: more[i] == front[i];
    if Repeated(front, id) {
      var i, j :| 0 <= i < j < |front| && front[i] == id && front[j] == id;
      assert more[i] == id && more[j] == id;
    }
    if id == ids[k] && id in front {
      var i :| 0 <= i < |front| && front[i] == id;
      assert more[i] == id && more[k] == id;
    }
    if Repeated(more, id) {
      var i, j :| 0 <= i < j < |more| && more[i] == id && more[j] == id;
      assert front[i] == id;
      if j < k {
        assert front[j] == id;
      }
    }
  }

  lemma NoneRepeated(ids: seq<Id>)
    ensures (forall id :: !Repeated(ids, id)) <==> Distinct(ids)
  {
    if i, j :| 0 <= i < j < |ids| && ids[i] == ids[j] {
      assert Repeated(ids, ids[i]);
    }
  }

  /** A graph is accepted exactly if every edge has the shape of its kind and no id is repeated. */
  method ReadGraph(nodes: seq<NodeSpec>, raw: seq<RawEdge>) returns (r: Option<GraphSpec>)
    ensures r.Some? <==> (forall x | x in raw :: ParseEdge(x).Some?) && Distinct(NodeIds(nodes))
    ensures r.Some? ==> UniqueIds(r.value) && r.value.nodes == nodes && |r.value.edges| == |raw|
                        && forall i | 0 <= i < |raw| :: raw[i] == WriteEdge(r.value.edges[i])
  {
    var edges := [];
    for i := 0 to |raw|
      invariant |edges| == i && forall j | 0 <= j < i :: ParseEdge(raw[j]) == Some(edges[j])
    {
      match ParseEdge(raw[i])
      case None => return None;
      case Some(e) => edges := edges + [e];
    }
    var duplicates := FindDuplicates(nodes);
    if duplicates != {} {
      return None;
    }
    r := Some(GraphSpec(nodes, edges));
    forall i | 0 <= i < |raw| ensures raw[i] == WriteEdge(edges[i]) {
      ParseIsExact(raw[i], edges[i]);
    }
  }
}
