/** The CreateManagementConfig command: on the management cluster it creates the
    `nalej` namespace, a config map with the public address, the docker
    credentials secret and the authx secret, in that order, stopping at the first
    failure. */
module ManagementConfig {
  import opened Base
  import opened Cluster
  import opened Strings

  const TargetNamespace: string := "nalej"

  datatype Command = Command(
    header: Header,
    kubeConfigPath: string,
    publicHost: string,
    publicPort: string,
    dockerUsername: string,
    dockerPassword: string)

  function New(kubeConfigPath: string, publicHost: string, publicPort: string,
               dockerUsername: string, dockerPassword: string): (c: Command)
    ensures c.header == NewSyncHeader(Base.CreateManagementConfig)
    ensures c.kubeConfigPath == kubeConfigPath
    ensures c.publicHost == publicHost && c.publicPort == publicPort
    ensures c.dockerUsername == dockerUsername && c.dockerPassword == dockerPassword
  {
    Command(NewSyncHeader(Base.CreateManagementConfig), kubeConfigPath,
      publicHost, publicPort, dockerUsername, dockerPassword)
  }

  const ManagementLabels: map<string, string> := map["cluster" := "management"]
  const ConfigMapKey: ObjKey := ObjKey(ConfigMap, TargetNamespace, "management-config")
  const DockerSecretKey: ObjKey := ObjKey(Secret, TargetNamespace, "docker-credentials")
  const AuthxSecretKey: ObjKey := ObjKey(Secret, TargetNamespace, "authx-secret")

  /** The config map that publishes the management cluster's public address. */
  function ConfigMapObject(c: Command): (o: Object)
    ensures o.key == ObjKey(ConfigMap, "nalej", "management-config")
    ensures o.labels == map["cluster" := "management"]
    ensures o.data.Keys == {"public_host", "public_port"}
    ensures o.data["public_host"] == c.publicHost && o.data["public_port"] == c.publicPort
  {
    NewObject(ConfigMapKey, ManagementLabels,
      map["public_host" := c.publicHost, "public_port" := c.publicPort], None)
  }

  /** The opaque secret holding the docker registry credentials. */
  function DockerSecretObject(c: Command): (o: Object)
    ensures o.key == ObjKey(Secret, "nalej", "docker-credentials")
    ensures o.labels == map["cluster" := "management"]
    ensures o.data.Keys == {"username", "password"}
    ensures o.data["username"] == c.dockerUsername && o.data["password"] == c.dockerPassword
    ensures o.secretType == Some("Opaque")
  {
    NewObject(DockerSecretKey, ManagementLabels,
      map["username" := c.dockerUsername, "password" := c.dockerPassword], Some("Opaque"))
  }

  /** The authx signing secret; `token` stands for the random UUID the source generates. */
  function AuthxSecretObject(token: string): (o: Object)
    ensures o.key == ObjKey(Secret, "nalej", "authx-secret")
    ensures o.labels == map["cluster" := "management", "component" := "authx"]
    ensures o.data == map["secret" := token]
    ensures o.secretType == Some("Opaque")
  {
    NewObject(AuthxSecretKey, map["cluster" := "management", "component" := "authx"],
      map["secret" := token], Some("Opaque"))
  }

  /** The messages a rejected config map, docker secret and authx secret are wrapped in. */
  const ObjectFailures: seq<string> :=
    ["cannot create configmap", "cannot create docker secret", "cannot create authx secret"]

  /** The objects the command creates after the namespace, each with the message
      a failure to create it is wrapped in. */
  function Creations(c: Command, token: string): (cs: seq<Creation>)
    ensures DistinctKeys(cs)
    ensures CreateCalls(cs) == [Create(ConfigMapKey), Create(DockerSecretKey), Create(AuthxSecretKey)]
    ensures |cs| == 3 && cs[0].obj == ConfigMapObject(c) && cs[1].obj == DockerSecretObject(c)
    ensures cs[2].obj == AuthxSecretObject(token)
    ensures forall i | 0 <= i < 3 :: cs[i].failMsg == ObjectFailures[i]
  {
    [ Creation(ConfigMapObject(c), "cannot create configmap"),
      Creation(DockerSecretObject(c), "cannot create docker secret"),
      Creation(AuthxSecretObject(token), "cannot create authx secret") ]
  }

  /** The external calls after the connection: the namespace, then the three objects. */
  const InstallPlan: seq<Call> :=
    [EnsureNamespace(TargetNamespace), Create(ConfigMapKey), Create(DockerSecretKey), Create(AuthxSecretKey)]

  /** The external calls of a run with no failure, in order. */
  const Plan: seq<Call> := [Connect] + InstallPlan

  /** The namespace, then the objects in order, stopping at the first failure. */
  function InstallObjects(cs: seq<Creation>, api: Api, s: State): (e: Execution)
    ensures e.calls == Attempted([EnsureNamespace(TargetNamespace)] + CreateCalls(cs), api.failing.Keys)
    ensures e.outcome.IsSuccess() <==> AllSucceed([EnsureNamespace(TargetNamespace)] + CreateCalls(cs), api.failing.Keys)
    ensures !e.outcome.IsSuccess() ==> e.outcome.IsSemanticFailure() && e.outcome.result.value.error.Some?
    ensures e.outcome.IsSuccess() ==>
      e.outcome.result.value.output == "management cluster config has been created"
  {
    AttemptedCons(EnsureNamespace(TargetNamespace), CreateCalls(cs), api.failing.Keys);
    var (s1, nsErr) := EnsureNamespaceExists(TargetNamespace, api, s);
    if nsErr.Some? then
      Execution(Failed("cannot create namespace", nsErr), s1, [EnsureNamespace(TargetNamespace)])
    else
      var (s2, err, calls) := CreateInOrder(cs, api, s1);
      var outcome := if err.Some? then Failed("cannot create management config", err)
                     else Succeeded("management cluster config has been created");
      Execution(outcome, s2, [EnsureNamespace(TargetNamespace)] + calls)
  }

  /** A rejected namespace stops the command before any object; a rejected object is
      the last call, reported under its own message with the rejection as cause. */
  lemma InstallObjectsReportsCause(cs: seq<Creation>, api: Api, s: State)
    ensures var e := InstallObjects(cs, api, s);
      api.Fails(EnsureNamespace(TargetNamespace)) ==>
        e.outcome == Failed("cannot create namespace", Some(api.failing[EnsureNamespace(TargetNamespace)]))
        && e.state == s
    ensures var e := InstallObjects(cs, api, s);
      !api.Fails(EnsureNamespace(TargetNamespace)) && !e.outcome.IsSuccess() ==>
        && 2 <= |e.calls| <= |cs| + 1 && api.Fails(Create(cs[|e.calls| - 2].obj.key))
        && e.outcome == Failed("cannot create management config",
             Some(Wrap(api.failing[Create(cs[|e.calls| - 2].obj.key)], cs[|e.calls| - 2].failMsg)))
  {
    if !api.Fails(EnsureNamespace(TargetNamespace)) {
      var s1 := s.(namespaces := s.namespaces + {TargetNamespace});
      var r := CreateInOrder(cs, api, s1);
      if r.1.Some? {
        CreateInOrderReportsCause(cs, api, s1);
        var i := |r.2| - 1;
        assert r.1 == Some(Wrap(api.failing[Create(cs[i].obj.key)], cs[i].failMsg));
        assert InstallObjects(cs, api, s).calls == [EnsureNamespace(TargetNamespace)] + r.2;
      }
    }
  }

  /** The part of `Run` after a successful connection: the namespace, then the three objects. */
  function Install(c: Command, token: string, api: Api, s: State): (e: Execution)
    ensures e.calls == Attempted(InstallPlan, api.failing.Keys)
    ensures e.outcome.IsSuccess() <==> AllSucceed(InstallPlan, api.failing.Keys)
    ensures !e.outcome.IsSuccess() ==> e.outcome.IsSemanticFailure() && e.outcome.result.value.error.Some?
    ensures e.outcome.IsSuccess() ==>
      e.outcome.result.value.output == "management cluster config has been created"
    ensures api.Fails(EnsureNamespace(TargetNamespace)) ==>
      e.outcome == Failed("cannot create namespace", Some(api.failing[EnsureNamespace(TargetNamespace)]))
      && e.state == s
    ensures !api.Fails(EnsureNamespace(TargetNamespace)) && !e.outcome.IsSuccess() ==>
      && 2 <= |e.calls| <= 4 && api.Fails(InstallPlan[|e.calls| - 1])
      && e.outcome == Failed("cannot create management config",
           Some(Wrap(api.failing[InstallPlan[|e.calls| - 1]], ObjectFailures[|e.calls| - 2])))
  {
    assert InstallPlan == [EnsureNamespace(TargetNamespace)] + CreateCalls(Creations(c, token));
    InstallObjectsReportsCause(Creations(c, token), api, s);
    InstallObjects(Creations(c, token), api, s)
  }

  /** `Run`: connect, then namespace, config map, docker secret and authx secret;
      `token` stands for the random authx secret. */
  function Run(c: Command, token: string, api: Api, s: State): (e: Execution)
    // fail-fast: the steps attempted are those of the plan up to the first failure
    ensures e.calls == Attempted(Plan, api.failing.Keys)
    // a connection failure is the only transport error, and nothing is created
    ensures e.outcome.IsTransportError() <==> api.Fails(Connect)
    ensures api.Fails(Connect) ==> e.outcome == Transport(api.failing[Connect]) && e.state == s
    // every other failure is a semantic one that carries its cause
    ensures !api.Fails(Connect) && !AllSucceed(Plan, api.failing.Keys) ==>
      e.outcome.IsSemanticFailure() && e.outcome.result.value.error.Some?
    ensures e.outcome.IsSuccess() <==> AllSucceed(Plan, api.failing.Keys)
    ensures e.outcome.IsSuccess() ==>
      e.outcome.result.value.output == "management cluster config has been created"
    // the namespace and each object are reported under their own message, with the rejection as cause
    ensures !api.Fails(Connect) && api.Fails(EnsureNamespace(TargetNamespace)) ==>
      e.outcome == Failed("cannot create namespace", Some(api.failing[EnsureNamespace(TargetNamespace)]))
      && e.state == s
    ensures !api.Fails(Connect) && !api.Fails(EnsureNamespace(TargetNamespace)) && !e.outcome.IsSuccess() ==>
      && 3 <= |e.calls| <= 5 && api.Fails(e.calls[|e.calls| - 1])
      && e.outcome == Failed("cannot create management config",
           Some(Wrap(api.failing[e.calls[|e.calls| - 1]], ObjectFailures[|e.calls| - 3])))
  {
    if api.Fails(Connect) then
      Execution(Transport(api.failing[Connect]), s, [Connect])
    else
      var e := Install(c, token, api, s);
      AttemptedCons(Connect, InstallPlan, api.failing.Keys);
      Execution(e.outcome, e.state, [Connect] + e.calls)
  }

  lemma InstallCreatesExactly(c: Command, token: string, api: Api, s: State)
    ensures var e := Install(c, token, api, s); CreatedExactly(s, e.state, e.calls, api)
  {
    if !api.Fails(EnsureNamespace(TargetNamespace)) {
      var s1 := s.(namespaces := s.namespaces + {TargetNamespace});
      var r := CreateInOrder(Creations(c, token), api, s1);
      CreateInOrderEffect(Creations(c, token), api, s1);
      assert Install(c, token, api, s).calls == [EnsureNamespace(TargetNamespace)] + r.2;
    }
  }

  /** The objects a run adds are exactly those whose creation it attempted successfully. */
  lemma RunCreatesExactly(c: Command, token: string, api: Api, s: State)
    ensures var e := Run(c, token, api, s); CreatedExactly(s, e.state, e.calls, api)
  {
    if !api.Fails(Connect) {
      InstallCreatesExactly(c, token, api, s);
      var e := Install(c, token, api, s);
      assert Run(c, token, api, s).calls == [Connect] + e.calls;
    }
  }

  /** A successful run leaves the namespace and the three objects, exactly as built, in the cluster. */
  lemma RunStoresObjects(c: Command, token: string, api: Api, s: State)
    requires Run(c, token, api, s).outcome.IsSuccess()
    ensures var e := Run(c, token, api, s);
      && e.state.namespaces == s.namespaces + {"nalej"}
      && ConfigMapKey in e.state.objects && e.state.objects[ConfigMapKey] == ConfigMapObject(c)
      && DockerSecretKey in e.state.objects && e.state.objects[DockerSecretKey] == DockerSecretObject(c)
      && AuthxSecretKey in e.state.objects && e.state.objects[AuthxSecretKey] == AuthxSecretObject(token)
  {
    var s1 := s.(namespaces := s.namespaces + {TargetNamespace});
    var cs := Creations(c, token);
    assert Plan[0] == Connect && Plan[1] == EnsureNamespace(TargetNamespace);
    assert AllSucceed(CreateCalls(cs), api.failing.Keys) by {
      forall j | 0 <= j < 3 ensures CreateCalls(cs)[j] !in api.failing.Keys {
        assert CreateCalls(cs)[j] == Plan[j + 2];
      }
    }
    var r := CreateInOrder(cs, api, s1);
    assert Run(c, token, api, s).state == r.0;
    CreateInOrderStoresAll(cs, api, s1);
    assert cs[1].obj.key == DockerSecretKey && cs[1].obj.key in r.0.objects;
    assert cs[0].obj.key == ConfigMapKey && cs[2].obj.key == AuthxSecretKey;
  }

  const StringPrefix: string := "SYNC CreateManagementConfig publicHost: "

  /** `String()`: names the command and embeds the public host and port. */
  function String(c: Command): (r: string)
    ensures OccursAt(r, c.publicHost, |StringPrefix|)
    ensures HasSuffix(r, c.publicPort)
    ensures |r| >= |StringPrefix| && r[..|StringPrefix|] == StringPrefix
  {
    StringPrefix + c.publicHost + ", publicPort: " + c.publicPort
  }

  /** `PrettyPrint(indentation)`: the `String()` line indented by `indentation` spaces. */
  function PrettyPrint(c: Command, indentation: nat): (r: string)
    ensures StripIndent(r) == (indentation, String(c))
  {
    assert String(c)[0] == String(c)[..|StringPrefix|][0] == StringPrefix[0];
    IndentRoundTrip(indentation, String(c));
    Indent(indentation, String(c))
  }

  /** `UserString()`: the public address as host:port. */
  function UserString(c: Command): (r: string)
    ensures HasSuffix(r, c.publicHost + ":" + c.publicPort)
  {
    "Creating management cluster config with public address " + c.publicHost + ":" + c.publicPort
  }
}
