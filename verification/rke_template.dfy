/** The RKE cluster file: what the cluster template renders for a configuration
    (one entry per target node, the first three forming the control plane), and
    the two ways rendering the template can fail. */
module Rke {
  import opened Base

  /** The number of leading nodes that form the control plane. */
  const ManagementNodes: nat := 3

  datatype ClusterConfig = ClusterConfig(
    targetNodes: seq<string>,
    nodeUsername: string,
    privateKeyPath: string,
    clusterName: string)

  datatype Role = Etcd | ControlPlane | Worker

  /** A node entry: its address, SSH user, RKE roles and `nalej.com/role` label. */
  datatype NodeEntry = NodeEntry(address: string, user: string, roles: seq<Role>, roleLabel: string)

  /** The entry the template's `if lt $index 3` renders for the node at `index`. */
  function Entry(address: string, user: string, index: nat): NodeEntry {
    if index < ManagementNodes then NodeEntry(address, user, [Etcd, ControlPlane, Worker], "management")
    else NodeEntry(address, user, [Worker], "compute")
  }

  /** The `range` over the target nodes, the first of them at index `start`. */
  function EntriesFrom(nodes: seq<string>, user: string, start: nat): (r: seq<NodeEntry>)
    ensures |r| == |nodes|
    ensures forall i | 0 <= i < |nodes| :: r[i] == Entry(nodes[i], user, start + i)
    decreases |nodes|
  {
    if nodes == [] then [] else [Entry(nodes[0], user, start)] + EntriesFrom(nodes[1..], user, start + 1)
  }

  /** The content of the rendered file, apart from its fixed text. */
  datatype ClusterFile = ClusterFile(nodes: seq<NodeEntry>, sshKeyPath: string, clusterName: string)

  /** The cluster template applied to a configuration. */
  function Render(config: ClusterConfig): (f: ClusterFile)
    // one entry per target node, in order, all with the shared user
    ensures |f.nodes| == |config.targetNodes|
    ensures forall i | 0 <= i < |f.nodes| ::
      f.nodes[i].address == config.targetNodes[i] && f.nodes[i].user == config.nodeUsername
    // the first three nodes run the control plane, the others only workloads
    ensures forall i | 0 <= i < |f.nodes| && i < 3 ::
      f.nodes[i].roles == [Etcd, ControlPlane, Worker] && f.nodes[i].roleLabel == "management"
    ensures forall i | 3 <= i < |f.nodes| :: f.nodes[i].roles == [Worker] && f.nodes[i].roleLabel == "compute"
    ensures f.sshKeyPath == config.privateKeyPath && f.clusterName == config.clusterName
  {
    ClusterFile(EntriesFrom(config.targetNodes, config.nodeUsername, 0), config.privateKeyPath, config.clusterName)
  }

  /** Adding a target node appends its entry and leaves the others as they were. */
  lemma {:induction false} EntriesFromAppend(nodes: seq<string>, node: string, user: string, start: nat)
    ensures EntriesFrom(nodes + [node], user, start) == EntriesFrom(nodes, user, start) + [Entry(node, user, start + |nodes|)]
    decreases |nodes|
  {
    if nodes == [] {
      assert nodes + [node] == [node];
    } else {
      assert (nodes + [node])[1..] == nodes[1..] + [node];
      EntriesFromAppend(nodes[1..], node, user, start + 1);
    }
  }

  lemma RenderAppend(config: ClusterConfig, node: string)
    ensures Render(config.(targetNodes := config.targetNodes + [node])).nodes
         == Render(config).nodes + [Entry(node, config.nodeUsername, |config.targetNodes|)]
  {
    EntriesFromAppend(config.targetNodes, node, config.nodeUsername, 0);
  }

  /** The number of entries carrying a label. */
  function CountLabel(entries: seq<NodeEntry>, wanted: string): (n: nat)
    ensures n <= |entries|
  {
    if entries == [] then 0
    else (if entries[0].roleLabel == wanted then 1 else 0) + CountLabel(entries[1..], wanted)
  }

  function Min(a: nat, b: nat): nat {
    if a <= b then a else b
  }

  lemma {:induction false} ManagementCountFrom(nodes: seq<string>, user: string, start: nat)
    ensures CountLabel(EntriesFrom(nodes, user, start), "management")
         == if start >= ManagementNodes then 0 else Min(|nodes|, ManagementNodes - start)
    decreases |nodes|
  {
    if nodes != [] {
      var r := EntriesFrom(nodes, user, start);
      assert r[1..] == EntriesFrom(nodes[1..], user, start + 1);
      ManagementCountFrom(nodes[1..], user, start + 1);
    }
  }

  /** A cluster has min(3, n) management nodes and every other node is a compute node. */
  lemma ManagementCount(config: ClusterConfig)
    ensures CountLabel(Render(config).nodes, "management") == Min(|config.targetNodes|, 3)
    ensures CountLabel(Render(config).nodes, "compute") == |config.targetNodes| - Min(|config.targetNodes|, 3)
  {
    ManagementCountFrom(config.targetNodes, config.nodeUsername, 0);
    LabelsPartition(Render(config).nodes);
  }

  lemma {:induction false} LabelsPartition(entries: seq<NodeEntry>)
    requires forall i | 0 <= i < |entries| :: entries[i].roleLabel in {"management", "compute"}
    ensures CountLabel(entries, "management") + CountLabel(entries, "compute") == |entries|
  {
    if entries != [] {
      LabelsPartition(entries[1..]);
    }
  }

  /** How Go's template engine fares with the template text and the configuration:
      the text does not parse, executing it fails, or it renders. */
  datatype EngineOutcome = ParseFails(err: Error) | ExecuteFails(err: Error) | Renders(text: string)

  /** `ParseTemplate`: an error at either stage gives an empty text and an internal
      error naming the stage. */
  function ParseTemplate(engine: EngineOutcome): (r: (string, Option<Error>))
    ensures r.1.None? <==> engine.Renders?
    ensures r.1.None? ==> r.0 == engine.text
    ensures r.1.Some? ==> r.0 == "" && r.1.value.kind == Internal && r.1.value.cause == Some(engine.err)
    ensures engine.ParseFails? ==> r.1.value.msg == "cannot parse workflow template file"
    ensures engine.ExecuteFails? ==> r.1.value.msg == "cannot parse RKE cluster template file"
  {
    match engine
    case ParseFails(err) => ("", Some(InternalFrom("cannot parse workflow template file", err)))
    case ExecuteFails(err) => ("", Some(InternalFrom("cannot parse RKE cluster template file", err)))
    case Renders(text) => (text, None)
  }

  /** The two failing stages are told apart by the error, whatever the cause. */
  lemma StagesDistinct(parseErr: Error, executeErr: Error)
    ensures ParseTemplate(ParseFails(parseErr)).1 != ParseTemplate(ExecuteFails(executeErr)).1
  {
    assert ParseTemplate(ParseFails(parseErr)).1.value.msg[13] == 'w';
    assert ParseTemplate(ExecuteFails(executeErr)).1.value.msg[13] == 'R';
  }
}
