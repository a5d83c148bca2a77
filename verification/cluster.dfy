/** The abstract Kubernetes cluster the commands act on, the external calls they
    make, and the oracle that decides which of those calls fail. */
module Cluster {
  import opened Base

  /** The Go types of the objects the installer creates or decodes. */
  datatype Kind =
    | Job | Deployment | DaemonSet | Service | Secret | ServiceAccount | ConfigMap
    | RoleBinding | ClusterRole | ClusterRoleBinding | PodSecurityPolicy
    | PersistentVolume | PersistentVolumeClaim | PodDisruptionBudget | StatefulSet
    | Ingress | Gateway
    | Unsupported(typeName: string)

  /** Objects are identified by kind, namespace and name ("" for cluster-scoped ones). */
  datatype ObjKey = ObjKey(kind: Kind, namespace: string, name: string)

  /** An image pull secret reference: one of the three registry secrets, or any other name. */
  datatype SecretRef = ProdRegistry | StagingRegistry | DevRegistry | Named(name: string)

  /** A Kubernetes object reduced to the fields the installer reads or writes;
      `body` stands for the rest of its specification, which it passes through. */
  datatype Object = Object(
    key: ObjKey,
    labels: map<string, string>,
    data: map<string, string>,
    secretType: Option<string>,
    pullSecrets: seq<SecretRef>,
    storageClass: Option<string>,
    body: string)

  /** An object the installer builds itself: only metadata and data are set. */
  function NewObject(key: ObjKey, labels: map<string, string>, data: map<string, string>,
                     secretType: Option<string>): (o: Object)
    ensures o.key == key && o.labels == labels && o.data == data && o.secretType == secretType
  {
    Object(key, labels, data, secretType, [], None, "")
  }

  /** The cluster: the namespaces that exist and the objects that have been created. */
  datatype State = State(namespaces: set<string>, objects: map<ObjKey, Object>)

  function Put(s: State, o: Object): (s': State)
    ensures s'.namespaces == s.namespaces
    ensures o.key in s'.objects && s'.objects[o.key] == o
    ensures forall k | k in s.objects && k != o.key :: k in s'.objects && s'.objects[k] == s.objects[k]
    ensures s'.objects.Keys == s.objects.Keys + {o.key}
  {
    s.(objects := s.objects[o.key := o])
  }

  /** Every external call a modelled command makes. */
  datatype Call =
    | Connect
    | ListNamespaces
    | CreateNamespace(ns: string)
      /** the Kubernetes base helper that creates a namespace unless it exists */
    | EnsureNamespace(name: string)
    | Create(key: ObjKey)
    | ReadDir(path: string)
    | ReadFile(dir: string, file: string)
      /** running a nested command */
    | RunCommand(command: CommandName)
    | GenerateRootCA
    | GenerateClusterCA
    | InClusterConfig
    | NewLocalClient
    | GetGatewayService
      /** creating the ingress certificate request for a public host; its manifest is
          rendered by the Istio model */
    | CreateCertificate(dnsPublicHost: string)
    | WaitCertificate
    | TempFile
    | WriteFile
      /** running istioctl to install the mesh; its argument list is rendered by the Istio model */
    | Istioctl(binary: string, install: MeshInstall)
    | PatchGateway

  /** The two ways istioctl installs the mesh: as the master, with the control-plane
      file, or as a remote cluster that points at the master's gateway. */
  datatype MeshInstall =
    | MasterInstall(kubeConfigPath: string, loadBalancerIP: string, configFile: string)
    | RemoteInstall(kubeConfigPath: string, gatewayIP: string, network: string)

  /** The oracle: a call fails, with the given error, exactly when it is a key of `failing`. */
  datatype Api = Api(failing: map<Call, Error>) {
    predicate Fails(c: Call) {
      c in failing
    }
  }

  /** What running a command does: its outcome, the resulting cluster and the
      external calls it attempted, in order. */
  datatype Execution = Execution(outcome: RunOutcome, state: State, calls: seq<Call>)

  /** No step of `plan` fails. */
  predicate AllSucceed<T>(plan: seq<T>, failing: set<T>) {
    forall j | 0 <= j < |plan| :: plan[j] !in failing
  }

  /** The fail-fast reference: the steps of `plan` up to and including the first failing one. */
  function Attempted<T>(plan: seq<T>, failing: set<T>): (r: seq<T>)
    ensures |r| <= |plan| && r == plan[..|r|]
    ensures forall j | 0 <= j < |r| - 1 :: plan[j] !in failing
    ensures |r| < |plan| ==> |r| > 0 && plan[|r| - 1] in failing
    ensures AllSucceed(plan, failing) ==> r == plan
  {
    if plan == [] then []
    else if plan[0] in failing then [plan[0]]
    else [plan[0]] + Attempted(plan[1..], failing)
  }

  /** The reference over a plan that starts with `x`: it stops at `x` if `x` fails,
      and otherwise goes on with the rest. */
  lemma AttemptedCons<T>(x: T, rest: seq<T>, failing: set<T>)
    ensures x in failing ==> Attempted([x] + rest, failing) == [x] && !AllSucceed([x] + rest, failing)
    ensures x !in failing ==> Attempted([x] + rest, failing) == [x] + Attempted(rest, failing)
    ensures x !in failing ==> (AllSucceed([x] + rest, failing) <==> AllSucceed(rest, failing))
  {
    var plan := [x] + rest;
    assert plan[0] == x && plan[1..] == rest;
    if x !in failing {
      assert forall j | 0 <= j < |rest| :: plan[j + 1] == rest[j];
    }
  }

  /** Only steps of the plan are attempted. */
  lemma AttemptedWithin<T>(plan: seq<T>, failing: set<T>)
    ensures forall x | x in Attempted(plan, failing) :: x in plan
  {
    var r := Attempted(plan, failing);
    forall x | x in r ensures x in plan {
      var i :| 0 <= i < |r| && r[i] == x;
      assert plan[i] == x;
    }
  }

  /** When step `k` is the first to fail, exactly the steps up to `k` are attempted. */
  lemma {:induction false} AttemptedUpToFirstFailure<T>(plan: seq<T>, failing: set<T>, k: nat)
    requires k < |plan| && plan[k] in failing
    requires forall j | 0 <= j < k :: plan[j] !in failing
    ensures Attempted(plan, failing) == plan[..k + 1]
  {
    if k > 0 {
      AttemptedUpToFirstFailure(plan[1..], failing, k - 1);
      assert plan[..k + 1] == [plan[0]] + plan[1..][..k];
    }
  }

  /** Only whether the plan's own steps fail matters. */
  lemma {:induction false} AttemptedRestrict<T>(plan: seq<T>, f1: set<T>, f2: set<T>)
    requires forall j | 0 <= j < |plan| :: plan[j] in f1 <==> plan[j] in f2
    ensures Attempted(plan, f1) == Attempted(plan, f2)
    ensures AllSucceed(plan, f1) <==> AllSucceed(plan, f2)
  {
    if plan != [] && plan[0] !in f1 {
      AttemptedRestrict(plan[1..], f1, f2);
    }
  }

  /** Creating one object: on success it is stored, on failure the cluster is unchanged. */
  function CreateObject(o: Object, api: Api, s: State): (r: (State, Option<Error>))
    ensures r.1.None? <==> !api.Fails(Create(o.key))
    ensures r.1.Some? ==> r.0 == s && r.1.value == api.failing[Create(o.key)]
    ensures r.1.None? ==> r.0 == Put(s, o)
  {
    if api.Fails(Create(o.key)) then (s, Some(api.failing[Create(o.key)])) else (Put(s, o), None)
  }

  /** The Kubernetes base helpers that create a namespace unless it already exists. */
  function EnsureNamespaceExists(name: string, api: Api, s: State): (r: (State, Option<Error>))
    ensures r.1.None? <==> !api.Fails(EnsureNamespace(name))
    ensures r.1.Some? ==> r.0 == s && r.1.value == api.failing[EnsureNamespace(name)]
    ensures r.1.None? ==> r.0 == s.(namespaces := s.namespaces + {name})
  {
    if api.Fails(EnsureNamespace(name)) then (s, Some(api.failing[EnsureNamespace(name)]))
    else (s.(namespaces := s.namespaces + {name}), None)
  }

  /** The objects of `s'` are those of `s` plus exactly the ones whose creation
      was attempted in `calls` and did not fail. */
  ghost predicate CreatedExactly(s: State, s': State, calls: seq<Call>, api: Api) {
    forall k :: k in s'.objects <==> (k in s.objects || (Create(k) in calls && !api.Fails(Create(k))))
  }

  /** Steps that succeed do not change which later step is the first to fail. */
  lemma {:induction false} AttemptedAfterSuccesses<T>(p: seq<T>, q: seq<T>, failing: set<T>)
    requires AllSucceed(p, failing)
    ensures Attempted(p + q, failing) == p + Attempted(q, failing)
  {
    if p != [] {
      assert p == [p[0]] + p[1..];
      AttemptedCons(p[0], p[1..], failing);
      assert p + q == [p[0]] + (p[1..] + q);
      AttemptedCons(p[0], p[1..] + q, failing);
      AttemptedAfterSuccesses(p[1..], q, failing);
    } else {
      assert p + q == q;
    }
  }

  /** An object to create together with the message its failure is wrapped in. */
  datatype Creation = Creation(obj: Object, failMsg: string)

  function CreateCalls(cs: seq<Creation>): (r: seq<Call>)
    ensures |r| == |cs| && forall i | 0 <= i < |cs| :: r[i] == Create(cs[i].obj.key)
  {
    seq(|cs|, i requires 0 <= i < |cs| => Create(cs[i].obj.key))
  }

  predicate DistinctKeys(cs: seq<Creation>) {
    forall i, j | 0 <= i < j < |cs| :: cs[i].obj.key != cs[j].obj.key
  }

  /** Creates the objects in order and stops at the first one the cluster rejects,
      returning the resulting cluster, the wrapped error and the attempted calls. */
  function CreateInOrder(cs: seq<Creation>, api: Api, s: State): (r: (State, Option<Error>, seq<Call>))
    ensures r.2 == Attempted(CreateCalls(cs), api.failing.Keys)
    ensures r.1.None? <==> AllSucceed(CreateCalls(cs), api.failing.Keys)
    ensures r.0.namespaces == s.namespaces
  {
    if cs == [] then (s, None, [])
    else
      var o := cs[0].obj;
      assert CreateCalls(cs) == [Create(o.key)] + CreateCalls(cs[1..]);
      AttemptedCons(Create(o.key), CreateCalls(cs[1..]), api.failing.Keys);
      if api.Fails(Create(o.key)) then
        (s, Some(Wrap(api.failing[Create(o.key)], cs[0].failMsg)), [Create(o.key)])
      else
        var rest := CreateInOrder(cs[1..], api, Put(s, o));
        (rest.0, rest.1, [Create(o.key)] + rest.2)
  }

  /** The error is that of the last creation attempted, wrapped in its message. */
  lemma {:induction false} CreateInOrderReportsCause(cs: seq<Creation>, api: Api, s: State)
    ensures var r := CreateInOrder(cs, api, s);
      r.1.Some? ==>
        && 0 < |r.2| <= |cs| && api.Fails(Create(cs[|r.2| - 1].obj.key))
        && r.1.value == Wrap(api.failing[Create(cs[|r.2| - 1].obj.key)], cs[|r.2| - 1].failMsg)
  {
    if cs != [] && !api.Fails(Create(cs[0].obj.key)) {
      CreateInOrderReportsCause(cs[1..], api, Put(s, cs[0].obj));
    }
  }

  /** The objects `CreateInOrder` adds are exactly those whose creation it attempted
      successfully, and objects it did not try to create keep their value. */
  lemma {:induction false} CreateInOrderEffect(cs: seq<Creation>, api: Api, s: State)
    ensures CreatedExactly(s, CreateInOrder(cs, api, s).0, CreateInOrder(cs, api, s).2, api)
    ensures var r := CreateInOrder(cs, api, s);
      forall k | k in s.objects && Create(k) !in r.2 :: r.0.objects[k] == s.objects[k]
  {
    if cs != [] {
      var o := cs[0].obj;
      if !api.Fails(Create(o.key)) {
        var s1 := Put(s, o);
        CreateInOrderEffect(cs[1..], api, s1);
        var rest := CreateInOrder(cs[1..], api, s1);
        var calls := [Create(o.key)] + rest.2;
        assert CreateInOrder(cs, api, s).2 == calls;
        forall k ensures k in rest.0.objects <==> (k in s.objects || (Create(k) in calls && !api.Fails(Create(k)))) {
          assert Create(k) in calls <==> k == o.key || Create(k) in rest.2;
        }
      }
    }
  }

  /** Without repeated keys, the tail has none either and never creates the head's key. */
  lemma DistinctKeysTail(cs: seq<Creation>)
    requires cs != [] && DistinctKeys(cs)
    ensures DistinctKeys(cs[1..]) && Create(cs[0].obj.key) !in CreateCalls(cs[1..])
  {
    forall i, j | 0 <= i < j < |cs[1..]| ensures cs[1..][i].obj.key != cs[1..][j].obj.key {
      assert cs[1..][i] == cs[i + 1] && cs[1..][j] == cs[j + 1];
    }
    forall j | 0 <= j < |cs[1..]| ensures CreateCalls(cs[1..])[j] != Create(cs[0].obj.key) {
      assert cs[1..][j] == cs[j + 1];
    }
  }

  /** When every creation succeeds and no key repeats, each object ends up stored as built. */
  lemma {:induction false} CreateInOrderStoresAll(cs: seq<Creation>, api: Api, s: State)
    ensures DistinctKeys(cs) && AllSucceed(CreateCalls(cs), api.failing.Keys) ==>
      var r := CreateInOrder(cs, api, s);
      forall i | 0 <= i < |cs| :: cs[i].obj.key in r.0.objects && r.0.objects[cs[i].obj.key] == cs[i].obj
  {
    if cs != [] && DistinctKeys(cs) && AllSucceed(CreateCalls(cs), api.failing.Keys) {
      var o := cs[0].obj;
      var s1 := Put(s, o);
      assert CreateCalls(cs) == [Create(o.key)] + CreateCalls(cs[1..]);
      AttemptedCons(Create(o.key), CreateCalls(cs[1..]), api.failing.Keys);
      DistinctKeysTail(cs);
      var rest := CreateInOrder(cs[1..], api, s1);
      assert o.key in rest.0.objects && rest.0.objects[o.key] == o by {
        assert rest.2 == CreateCalls(cs[1..]);
        CreateInOrderEffect(cs[1..], api, s1);
      }
      CreateInOrderStoresAll(cs[1..], api, s1);
      forall i | 0 < i < |cs| ensures cs[i].obj.key in rest.0.objects && rest.0.objects[cs[i].obj.key] == cs[i].obj {
        assert cs[i] == cs[1..][i - 1];
      }
    }
  }
}
