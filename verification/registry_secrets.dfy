/** The CreateRegistrySecrets command: after the `nalej` namespace it creates, when
    needed, the environment secret that lets application clusters be installed,
    and then runs the CreateDockerSecret command for the same credentials. */
module RegistrySecrets {
  import opened Base
  import opened Cluster
  import opened Strings
  import ManagementConfig

  const TargetNamespace: string := "nalej"
  /** The registry whose credentials must always be published to application clusters. */
  const PublicRegistry: string := "nalej-public-registry"
  const SuccessMessage: string := "management registry secret has been created"

  datatype Command = Command(
    header: Header,
    kubeConfigPath: string,
    onManagementCluster: bool,
    credentialsName: string,
    username: string,
    password: string,
    url: string)

  /** `NewCreateRegistrySecrets`. It is built with the CreateManagementConfig discriminant. */
  function New(kubeConfigPath: string, onManagementCluster: bool, credentialsName: string,
               username: string, password: string, url: string): (c: Command)
    ensures c.header.name == Base.CreateManagementConfig && c.header.category == Sync
    ensures c.kubeConfigPath == kubeConfigPath && c.onManagementCluster == onManagementCluster
    ensures c.credentialsName == credentialsName && c.username == username
    ensures c.password == password && c.url == url
  {
    Command(NewSyncHeader(Base.CreateManagementConfig), kubeConfigPath, onManagementCluster,
      credentialsName, username, password, url)
  }

  /** A freshly built command cannot be told apart from a CreateManagementConfig one by its header. */
  lemma NewSharesManagementConfigHeader(kubeConfigPath: string, onManagementCluster: bool,
      credentialsName: string, username: string, password: string, url: string,
      publicHost: string, publicPort: string)
    ensures New(kubeConfigPath, onManagementCluster, credentialsName, username, password, url).header
         == ManagementConfig.New(kubeConfigPath, publicHost, publicPort, username, password).header
  {
  }

  /** `NewCreateRegistrySecretsFromJSON`: the identifier comes from the decoded name. */
  function FromJSON(decoded: Option<Command>): (r: Result<Command>)
    ensures r.Err? <==> decoded.None?
    ensures r.Err? ==> r.error == UnmarshalFailure
    ensures r.Ok? ==> r.value.header.id == GenerateCommandId(decoded.value.header.name)
    ensures r.Ok? ==> r.value.(header := decoded.value.header) == decoded.value
  {
    match decoded
    case None => Err(UnmarshalFailure)
    case Some(c) => Ok(c.(header := IdentifyDecoded(c.header)))
  }

  /** The environment secret is created on the management cluster, and for the public
      registry everywhere. */
  predicate WantsEnvironmentSecret(c: Command) {
    c.onManagementCluster || c.credentialsName == PublicRegistry
  }

  /** `createEnvironmentSecret`'s object. */
  function EnvironmentSecret(c: Command): (o: Object)
    ensures o.key == ObjKey(Secret, "nalej", "credentials-" + c.credentialsName)
    ensures o.labels == map["cluster" := "management"]
    ensures o.data.Keys == {"credentials_name", "username", "password", "url"}
    ensures o.data["credentials_name"] == c.credentialsName && o.data["username"] == c.username
    ensures o.data["password"] == c.password && o.data["url"] == c.url
    ensures o.secretType == Some("Opaque")
  {
    NewObject(ObjKey(Secret, TargetNamespace, "credentials-" + c.credentialsName),
      map["cluster" := "management"],
      map["credentials_name" := c.credentialsName, "username" := c.username,
          "password" := c.password, "url" := c.url],
      Some("Opaque"))
  }

  /** How `createDockerSecrets` judges the inner CreateDockerSecret run. */
  datatype Verdict = Passed | Rejected(cause: Option<Error>)

  /** As the source folds the inner outcome: an error is returned, and for a failed
      result its `Error` field is returned, which may be absent. */
  function DockerSecretsErrorAsWritten(inner: RunOutcome): (err: Option<Error>)
    requires inner.WellFormed()
    ensures inner.err.Some? ==> err == inner.err
    ensures inner.err.None? && !inner.result.value.success ==> err == inner.result.value.error
    ensures inner.IsSuccess() ==> err.None?
  {
    if inner.err.Some? then inner.err
    else if !inner.result.value.success then inner.result.value.error
    else None
  }

  /** A failed inner result that carries no error slips through as a success. */
  lemma FailureWithoutErrorPasses()
    ensures var inner := Failed("cannot create docker secret", None);
      && inner.IsSemanticFailure()
      && DockerSecretsErrorAsWritten(inner).None?
      && DockerSecrets(inner).Rejected?
  {
  }

  /** `createDockerSecrets` as intended: it fails exactly when the inner command
      reported a transport error or an unsuccessful result. */
  function DockerSecrets(inner: RunOutcome): (v: Verdict)
    requires inner.WellFormed()
    ensures v.Passed? <==> inner.err.None? && inner.result.value.success
    ensures v.Rejected? ==> v.cause == DockerSecretsErrorAsWritten(inner)
  {
    if inner.err.Some? then Rejected(inner.err)
    else if !inner.result.value.success then Rejected(inner.result.value.error)
    else Passed
  }

  /** The two agree on every inner outcome except a failed result without an error. */
  lemma DockerSecretsAgree(inner: RunOutcome)
    requires inner.WellFormed()
    ensures DockerSecretsErrorAsWritten(inner).Some? ==> DockerSecrets(inner) == Rejected(DockerSecretsErrorAsWritten(inner))
    ensures DockerSecretsErrorAsWritten(inner).None? && DockerSecrets(inner).Rejected? <==>
      inner.IsSemanticFailure() && inner.result.value.error.None?
  {
  }

  /** The inner CreateDockerSecret run: its outcome, and the docker registry secret it
      stores in the cluster when that outcome passes. The command itself is defined in
      a file that is not part of this model. */
  datatype DockerRun = DockerRun(outcome: RunOutcome, secret: Object)

  /** The cluster once the environment step is done: "nalej" exists and, when wanted,
      the environment secret is stored. */
  function AfterEnvironmentSecret(c: Command, s: State): (s': State)
    ensures s'.namespaces == s.namespaces + {TargetNamespace}
    ensures WantsEnvironmentSecret(c) ==> s'.objects == s.objects[EnvironmentSecret(c).key := EnvironmentSecret(c)]
    ensures !WantsEnvironmentSecret(c) ==> s'.objects == s.objects
  {
    var s1 := s.(namespaces := s.namespaces + {TargetNamespace});
    if WantsEnvironmentSecret(c) then Put(s1, EnvironmentSecret(c)) else s1
  }

  /** `Run`. `inner` is the CreateDockerSecret run it starts. */
  function Run(c: Command, inner: DockerRun, api: Api, s: State): (e: Execution)
    requires inner.outcome.WellFormed()
    ensures api.Fails(Connect) ==> e == Execution(Transport(api.failing[Connect]), s, [Connect])
    ensures !api.Fails(Connect) ==> !e.outcome.IsTransportError()
    ensures !api.Fails(Connect) && api.Fails(EnsureNamespace(TargetNamespace)) ==>
      e == Execution(Failed("cannot create namespace", Some(api.failing[EnsureNamespace(TargetNamespace)])), s,
                     [Connect, EnsureNamespace(TargetNamespace)])
    // the environment secret is attempted exactly when wanted and nothing before it failed
    ensures Create(EnvironmentSecret(c).key) in e.calls <==>
      !api.Fails(Connect) && !api.Fails(EnsureNamespace(TargetNamespace)) && WantsEnvironmentSecret(c)
    // the docker secret command runs only when every earlier step succeeded
    ensures RunCommand(CreateDockerSecret) in e.calls <==>
      && !api.Fails(Connect) && !api.Fails(EnsureNamespace(TargetNamespace))
      && (WantsEnvironmentSecret(c) ==> !api.Fails(Create(EnvironmentSecret(c).key)))
    // a rejected environment secret is reported with the rejection wrapped twice
    ensures && !api.Fails(Connect) && !api.Fails(EnsureNamespace(TargetNamespace))
            && WantsEnvironmentSecret(c) && api.Fails(Create(EnvironmentSecret(c).key)) ==>
      && e.outcome == Failed("cannot create environment secret",
           Some(Wrap(api.failing[Create(EnvironmentSecret(c).key)], "cannot create environment registry-credentials secret")))
      && e.state == s.(namespaces := s.namespaces + {TargetNamespace})
    ensures e.outcome.IsSuccess() <==> RunCommand(CreateDockerSecret) in e.calls && DockerSecrets(inner.outcome).Passed?
    // a rejected docker secret command is reported with the cause the verdict names
    ensures RunCommand(CreateDockerSecret) in e.calls && DockerSecrets(inner.outcome).Rejected? ==>
      && e.outcome == Failed("cannot create docker registry secret", DockerSecrets(inner.outcome).cause)
      && e.state == AfterEnvironmentSecret(c, s)
    ensures !api.Fails(Connect) && !e.outcome.IsSuccess() ==> e.outcome.IsSemanticFailure()
    // a success has stored the docker registry secret on top of the environment step
    ensures e.outcome.IsSuccess() ==>
      && e.outcome.result.value.output == SuccessMessage
      && e.state == Put(AfterEnvironmentSecret(c, s), inner.secret)
  {
    if api.Fails(Connect) then Execution(Transport(api.failing[Connect]), s, [Connect])
    else
      var (s1, nsErr) := EnsureNamespaceExists(TargetNamespace, api, s);
      if nsErr.Some? then
        Execution(Failed("cannot create namespace", nsErr), s1, [Connect, EnsureNamespace(TargetNamespace)])
      else
        var before := [Connect, EnsureNamespace(TargetNamespace)];
        var secret := EnvironmentSecret(c);
        var (s2, sErr) := if WantsEnvironmentSecret(c) then CreateObject(secret, api, s1) else (s1, None);
        var tried := if WantsEnvironmentSecret(c) then before + [Create(secret.key)] else before;
        if sErr.Some? then
          var err := Wrap(sErr.value, "cannot create environment registry-credentials secret");
          Execution(Failed("cannot create environment secret", Some(err)), s2, tried)
        else
          var calls := tried + [RunCommand(CreateDockerSecret)];
          match DockerSecrets(inner.outcome)
          case Rejected(cause) => Execution(Failed("cannot create docker registry secret", cause), s2, calls)
          case Passed => Execution(Succeeded(SuccessMessage), Put(s2, inner.secret), calls)
  }

  /** A successful run has created the namespace, the docker registry secret and, when
      wanted, the environment secret; every other object is as it was. */
  lemma RunStoresSecret(c: Command, inner: DockerRun, api: Api, s: State)
    requires inner.outcome.WellFormed()
    requires Run(c, inner, api, s).outcome.IsSuccess()
    ensures var e := Run(c, inner, api, s);
      && e.state.namespaces == s.namespaces + {"nalej"}
      && inner.secret.key in e.state.objects && e.state.objects[inner.secret.key] == inner.secret
      && (WantsEnvironmentSecret(c) && EnvironmentSecret(c).key != inner.secret.key ==>
            EnvironmentSecret(c).key in e.state.objects && e.state.objects[EnvironmentSecret(c).key] == EnvironmentSecret(c))
      && e.state.objects.Keys == s.objects.Keys + {inner.secret.key}
           + (if WantsEnvironmentSecret(c) then {EnvironmentSecret(c).key} else {})
      && forall k | k in s.objects && k != inner.secret.key && (WantsEnvironmentSecret(c) ==> k != EnvironmentSecret(c).key)
           :: e.state.objects[k] == s.objects[k]
  {
  }

  const StringPrefix: string := "SYNC CreateRegistrySecrets for a "

  /** `String()`: names the credentials. */
  function String(c: Command): (r: string)
    ensures OccursAt(r, c.credentialsName, |StringPrefix|)
    ensures HasSuffix(r, " environment")
  {
    StringPrefix + c.credentialsName + " environment"
  }

  /** `PrettyPrint(indentation)`. */
  function PrettyPrint(c: Command, indentation: nat): (r: string)
    ensures StripIndent(r) == (indentation, String(c))
  {
    IndentRoundTrip(indentation, String(c));
    Indent(indentation, String(c))
  }

  function UserString(c: Command): (r: string)
    ensures OccursAt(r, c.credentialsName, |"Creating managment registry secrets for a "|)
  {
    "Creating managment registry secrets for a " + c.credentialsName + " environment"
  }
}
