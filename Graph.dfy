/**
 * The audio graph's bookkeeping (include/audiolib/Graph.h,
 * src/audiolib/Graph.cpp): port addresses, the per-node connection
 * multimaps, the per-node wrapper with its input buffer slots, and the
 * graph's node registry.
 */
module Graphs {
  import opened Wrappers
  import opened Iframes
  import opened Nodes

  /** `PortPair`: a port of a node, compared by value. */
  datatype PortPair = PortPair(nodeId: int, port: int)

  /** One entry of a `PortConnections` multimap: a local port and the remote port it is wired to. */
  datatype Edge = Edge(local: int, remote: PortPair)

  /** `PortPair::operator==`: both the node id and the port agree. */
  function SamePort(a: PortPair, b: PortPair): (r: bool)
    ensures r <==> a == b
  {
    a.nodeId == b.nodeId && a.port == b.port
  }

  /** `edges` without its first occurrence of `e` (unchanged when there is none). */
  function RemoveFirst(edges: seq<Edge>, e: Edge): seq<Edge>
  {
    if edges == [] then []
    else if edges[0] == e then edges[1..]
    else [edges[0]] + RemoveFirst(edges[1..], e)
  }

  lemma {:induction false} RemoveFirstMultiset(edges: seq<Edge>, e: Edge)
    ensures multiset(RemoveFirst(edges, e)) == multiset(edges) - multiset{e}
  {
    if edges != [] {
      assert edges == [edges[0]] + edges[1..];
      if edges[0] != e {
        RemoveFirstMultiset(edges[1..], e);
      }
    }
  }

  /** The entries whose remote end is not on node `id`, in their original order. */
  function WithoutNode(edges: seq<Edge>, id: int): seq<Edge>
  {
    if edges == [] then []
    else (if edges[0].remote.nodeId == id then [] else [edges[0]]) + WithoutNode(edges[1..], id)
  }

  /** Exactly the entries to node `id` go; every other entry keeps its multiplicity. */
  lemma {:induction false} WithoutNodeMultiset(edges: seq<Edge>, id: int)
    ensures forall e :: multiset(WithoutNode(edges, id))[e] ==
              if e.remote.nodeId == id then 0 else multiset(edges)[e]
  {
    if edges != [] {
      assert edges == [edges[0]] + edges[1..];
      WithoutNodeMultiset(edges[1..], id);
    }
  }

  lemma {:induction false} WithoutNodeShrinks(edges: seq<Edge>, id: int)
    ensures |WithoutNode(edges, id)| < |edges| <==> exists k :: 0 <= k < |edges| && edges[k].remote.nodeId == id
    ensures |WithoutNode(edges, id)| <= |edges|
  {
    if edges != [] {
      WithoutNodeShrinks(edges[1..], id);
      if edges[0].remote.nodeId != id && exists k :: 0 <= k < |edges| && edges[k].remote.nodeId == id {
        var k :| 0 <= k < |edges| && edges[k].remote.nodeId == id;
        assert edges[1..][k - 1] == edges[k];
      }
    }
  }

  /**
   * `PortConnections`: a multimap from a local port to remote ports. One
   * local port may hold several entries, and the same entry may be held
   * twice. The entries are kept in insertion order.
   */
  class PortConnections {
    var edges: seq<Edge>

    constructor ()
      ensures edges == []
    {
      edges := [];
    }

    /** `connect(local_port, pair)`: one more entry, nothing else changes. */
    method Connect(localPort: int, remote: PortPair)
      modifies this
      ensures edges == old(edges) + [Edge(localPort, remote)]
      ensures multiset(edges) == old(multiset(edges)) + multiset{Edge(localPort, remote)}
      ensures IsConnectedTo(localPort, remote) && IsConnected(localPort)
    {
      edges := edges + [Edge(localPort, remote)];
      assert edges[|edges| - 1] == Edge(localPort, remote);
    }

    /** `removeConnection(local_port, pair)`: drops one matching entry and reports whether there was one. */
    method RemoveConnection(localPort: int, remote: PortPair) returns (removed: bool)
      modifies this
      ensures removed <==> Edge(localPort, remote) in old(edges)
      ensures multiset(edges) == old(multiset(edges)) - multiset{Edge(localPort, remote)}
      ensures !removed ==> edges == old(edges)
    {
      removed := Edge(localPort, remote) in edges;
      RemoveFirstMultiset(edges, Edge(localPort, remote));
      if removed {
        edges := RemoveFirst(edges, Edge(localPort, remote));
      }
    }

    /**
     * `removeConnectionToNode(node_id)`: drops every entry whose remote end
     * is on that node and reports whether any was dropped.
     */
    method RemoveConnectionToNode(nodeId: int) returns (removed: bool)
      modifies this
      ensures removed <==> exists k :: 0 <= k < |old(edges)| && old(edges)[k].remote.nodeId == nodeId
      ensures forall e :: multiset(edges)[e] == if e.remote.nodeId == nodeId then 0 else old(multiset(edges))[e]
    {
      WithoutNodeMultiset(edges, nodeId);
      WithoutNodeShrinks(edges, nodeId);
      var kept := WithoutNode(edges, nodeId);
      removed := |kept| < |edges|;
      edges := kept;
    }

    /** `isConnected(local_port, pair)`: that exact entry is present. */
    predicate IsConnectedTo(localPort: int, remote: PortPair)
      reads this
    {
      Edge(localPort, remote) in edges
    }

    /** `isConnected(local_port)`: some entry has that local port. */
    predicate IsConnected(localPort: int)
      reads this
    {
      exists k :: 0 <= k < |edges| && edges[k].local == localPort
    }
  }

  /** A connection followed by the removal of the same entry leaves the table as it was. */
  method ConnectThenRemove(pc: PortConnections, localPort: int, remote: PortPair) returns (removed: bool)
    modifies pc
    ensures removed
    ensures multiset(pc.edges) == old(multiset(pc.edges))
  {
    pc.Connect(localPort, remote);
    removed := pc.RemoveConnection(localPort, remote);
  }

  /**
   * `NodeWrapper`: owns its node, the node's two connection tables, and one
   * input buffer slot per audio input of the node.
   */
  class NodeWrapper {
    const node: NodeRef
    const outputAudioConnections: PortConnections
    const inputAudioConnections: PortConnections
    var inputBuffer: seq<Frames>

    constructor (node: NodeRef, defaultInputFrames: Frames)
      requires node.Settings().numAudioInputs >= 0
      ensures this.node == node
      ensures fresh(outputAudioConnections) && fresh(inputAudioConnections)
      ensures outputAudioConnections != inputAudioConnections
      ensures outputAudioConnections.edges == [] && inputAudioConnections.edges == []
      ensures |inputBuffer| == node.Settings().numAudioInputs
      ensures forall k :: 0 <= k < |inputBuffer| ==> inputBuffer[k] == defaultInputFrames
    {
      this.node := node;
      outputAudioConnections := new PortConnections();
      inputAudioConnections := new PortConnections();
      inputBuffer := Fill(node.Settings().numAudioInputs, defaultInputFrames);
    }
  }

  /** The reserved ids of the graph's own input and output, and the first id left for other nodes. */
  const INPUT_ID: int := 0
  const OUTPUT_ID: int := 1
  const FIRST_EXTERNAL_NODE_ID: int := 2

  /**
   * `Graph::mkNodeSettings`: the graph's own settings from its four
   * arguments; the message counts stay at their default of 0.
   */
  function MkNodeSettings(sampleRate: int, blockSize: int, nInputs: int, nOutputs: int): (s: NodeSettings)
    ensures s.sampleRate == sampleRate as real && s.blockSize == blockSize
    ensures s.numAudioInputs == nInputs && s.numAudioOutputs == nOutputs
    ensures s.numMessageInputs == 0 && s.numMessageOutputs == 0
  {
    DefaultSettings().(sampleRate := sampleRate as real, blockSize := blockSize,
                       numAudioInputs := nInputs, numAudioOutputs := nOutputs)
  }

  /**
   * `Graph`: a node that registers other nodes by their id.
   */
  class Graph {
    const id: int
    const settings: NodeSettings
    const nullFrames: Frames
    const internalOutputBuffer: seq<Frames>
    const externalOutputBuffer: seq<Frames>
    var nodeMap: map<int, NodeWrapper>

    /** Every registered wrapper is filed under its node's own id. */
    ghost predicate Valid()
      reads this
    {
      forall k :: k in nodeMap ==> nodeMap[k].node.Id() == k
    }

    constructor (sampleRate: int, blockSize: int, nInputs: int, nOutputs: int, ids: IdCounter)
      requires blockSize >= 0 && nOutputs >= 0
      modifies ids
      ensures id == old(ids.next) && ids.next == old(ids.next) + 1
      ensures settings == MkNodeSettings(sampleRate, blockSize, nInputs, nOutputs)
      ensures fresh(nullFrames) && nullFrames.Length == blockSize && Silent(nullFrames)
      ensures |internalOutputBuffer| == nOutputs && Distinct(internalOutputBuffer)
      ensures forall k :: 0 <= k < nOutputs ==>
                && fresh(internalOutputBuffer[k]) && internalOutputBuffer[k].Length == blockSize
                && Silent(internalOutputBuffer[k])
      ensures externalOutputBuffer == internalOutputBuffer
      ensures nodeMap == map[] && Valid()
    {
      var n := ids.Take();
      var z := NewFrames(blockSize);
      var buffers := NewIframesVector(nOutputs, blockSize, sampleRate as real);
      id := n;
      settings := MkNodeSettings(sampleRate, blockSize, nInputs, nOutputs);
      nullFrames := z;
      internalOutputBuffer := buffers;
      externalOutputBuffer := ConstView(buffers);
      nodeMap := map[];
    }

    /** `Graph::validate()`: checks nothing and never fails. */
    method Validate() returns (r: Outcome<string>)
      ensures r == Pass
    {
      r := Pass;
    }

    /**
     * `Graph::registerNode`: files the node under its own id and returns
     * that id. As with `emplace`, an id already present keeps its old
     * entry, and the new wrapper is dropped.
     */
    method RegisterNode(node: NodeRef) returns (nodeId: int)
      requires Valid()
      requires node.Settings().numAudioInputs >= 0
      modifies this
      ensures Valid()
      ensures nodeId == node.Id() && nodeId in nodeMap
      ensures old(nodeId in nodeMap) ==> nodeMap == old(nodeMap)
      ensures !old(nodeId in nodeMap) ==>
                && nodeMap.Keys == old(nodeMap.Keys) + {nodeId}
                && |nodeMap| == |old(nodeMap)| + 1
                && fresh(nodeMap[nodeId]) && nodeMap[nodeId].node == node
                && (forall k :: k in old(nodeMap) ==> nodeMap[k] == old(nodeMap)[k])
    {
      nodeId := node.Id();
      var wrapper := new NodeWrapper(node, nullFrames);
      if nodeId !in nodeMap {
        nodeMap := nodeMap[nodeId := wrapper];
      }
    }
  }
}
