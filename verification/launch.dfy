/** The LaunchComponents command: it connects, resolves the target environment,
    makes sure the listed namespaces exist, and then creates in Kubernetes every
    `.yaml` component of a directory, in listing order, stopping at the first
    one that cannot be launched. */
module Launch {
  import opened Base
  import opened Cluster
  import opened Strings

  /** The deployment environments of the installer's entities package. */
  datatype TargetEnvironment = Production | Staging | Development

  const AzureStorageClass: string := "managed-premium"
  /** The string form of the AZURE member of the platform enumeration. */
  const AzurePlatform: string := "AZURE"
  const YamlSuffix: string := ".yaml"
  const LaunchedSuffix: string := " components have been launched"

  datatype Command = Command(
    header: Header,
    kubeConfigPath: string,
    namespaces: seq<string>,
    componentsDir: string,
    platformType: string,
    environment: string)

  /** `NewLaunchComponents`: note that it leaves the environment empty. */
  function New(kubeConfigPath: string, namespaces: seq<string>, componentsDir: string,
               targetPlatform: string): (c: Command)
    ensures c.header == NewSyncHeader(Base.LaunchComponents)
    ensures c.kubeConfigPath == kubeConfigPath && c.namespaces == namespaces
    ensures c.componentsDir == componentsDir && c.platformType == targetPlatform
    ensures c.environment == ""
  {
    Command(NewSyncHeader(Base.LaunchComponents), kubeConfigPath, namespaces, componentsDir,
      targetPlatform, "")
  }

  /** `NewLaunchComponentsFromJSON`; `decoded` is what the JSON decoder produced, if anything. */
  function FromJSON(decoded: Option<Command>): (r: Result<Command>)
    ensures r.Err? <==> decoded.None?
    ensures r.Err? ==> r.error == UnmarshalFailure
    ensures r.Ok? ==> r.value.header.id == GenerateCommandId(r.value.header.name)
    ensures r.Ok? ==> r.value.(header := decoded.value.header) == decoded.value
    ensures r.Ok? ==> r.value.header.name == decoded.value.header.name
  {
    match decoded
    case None => Err(UnmarshalFailure)
    case Some(c) => Ok(c.(header := IdentifyDecoded(c.header)))
  }

  // ---------------------------------------------------------------------------
  // Image pull secrets and storage classes

  /** How permissive an environment is: each one may pull from the registries of
      the ones before it. */
  function Rank(env: TargetEnvironment): (n: nat)
    ensures n < 3
  {
    match env
    case Production => 0
    case Staging => 1
    case Development => 2
  }

  /** The registries in order of decreasing strictness. */
  function RegistryAt(i: nat): (r: SecretRef)
    requires i < 3
    ensures r != Named("") && (i == 0 <==> r == ProdRegistry)
  {
    if i == 0 then ProdRegistry else if i == 1 then StagingRegistry else DevRegistry
  }

  /** The pull secrets a deployment gets in each environment: production only, production
      and staging, or all three registries. */
  function PullSecrets(env: TargetEnvironment): (r: seq<SecretRef>)
    ensures |r| == Rank(env) + 1
    ensures forall i | 0 <= i < |r| :: r[i] == RegistryAt(i)
  {
    match env
    case Production => [ProdRegistry]
    case Staging => [ProdRegistry, StagingRegistry]
    case Development => [ProdRegistry, StagingRegistry, DevRegistry]
  }

  /** A more permissive environment keeps the secrets of a stricter one and adds to them. */
  lemma PullSecretsNested(e1: TargetEnvironment, e2: TargetEnvironment)
    requires Rank(e1) <= Rank(e2)
    ensures PullSecrets(e1) == PullSecrets(e2)[..|PullSecrets(e1)|]
    ensures PullSecrets(e1) == PullSecrets(e2) <==> e1 == e2
  {
    var p1, p2 := PullSecrets(e1), PullSecrets(e2);
    assert forall i | 0 <= i < |p1| :: p1[i] == p2[i];
  }

  /** `adaptDeployment`: sets the image pull secrets for the environment and nothing else. */
  function AdaptDeployment(o: Object, env: TargetEnvironment): (r: Object)
    ensures r.pullSecrets == PullSecrets(env)
    ensures r.(pullSecrets := o.pullSecrets) == o
  {
    o.(pullSecrets := PullSecrets(env))
  }

  predicate IsVolume(k: Kind) {
    k == PersistentVolume || k == PersistentVolumeClaim
  }

  /** The storage-class override of `launchPersistentVolume(Claim)`. */
  function WithPlatformStorage(o: Object, platform: string): (r: Object)
    requires IsVolume(o.key.kind)
    ensures r.(storageClass := o.storageClass) == o
    ensures platform == AzurePlatform ==> r.storageClass == Some(AzureStorageClass)
    ensures platform != AzurePlatform ==> r == o
  {
    if platform == AzurePlatform then o.(storageClass := Some(AzureStorageClass)) else o
  }

  /** The object as it is sent to the cluster. */
  function Prepared(o: Object, env: TargetEnvironment, platform: string): (r: Object)
    ensures r.key == o.key && r.labels == o.labels && r.data == o.data && r.body == o.body
    ensures o.key.kind == Deployment ==> r == AdaptDeployment(o, env)
    ensures IsVolume(o.key.kind) ==> r == WithPlatformStorage(o, platform)
    ensures o.key.kind != Deployment && !IsVolume(o.key.kind) ==> r == o
  {
    match o.key.kind
    case Deployment => AdaptDeployment(o, env)
    case PersistentVolume => WithPlatformStorage(o, platform)
    case PersistentVolumeClaim => WithPlatformStorage(o, platform)
    case _ => o
  }

  // ---------------------------------------------------------------------------
  // Launching one component

  /** The types `launchComponent` handles; everything else falls to its default branch. */
  predicate IsSupported(k: Kind) {
    !k.Unsupported? && k != Gateway
  }

  /** The message a failed creation is wrapped in, for the types this file creates
      itself; the others go through the shared Kubernetes helpers. */
  function CreateMessage(k: Kind): Option<string> {
    match k
    case DaemonSet => Some("cannot create daemon set")
    case PodSecurityPolicy => Some("cannot create pod security policy")
    case Secret => Some("cannot create secret")
    case PersistentVolume => Some("cannot create persistent volume")
    case PersistentVolumeClaim => Some("cannot create persistent volume claim")
    case PodDisruptionBudget => Some("cannot create pod disruption budget")
    case StatefulSet => Some("cannot create stateful set")
    case Ingress => Some("cannot create ingress")
    case _ => None
  }

  /** The error of a rejected creation. */
  function CreateFailure(k: Kind, cause: Error): (e: Error)
    ensures CreateMessage(k).Some? ==> e == Wrap(cause, CreateMessage(k).value)
    ensures CreateMessage(k).None? ==> e == cause
  {
    match CreateMessage(k)
    case Some(msg) => Wrap(cause, msg)
    case None => cause
  }

  const NotSupported: Error := NewError(Unimplemented, "object not supported")

  /** What reading a component file gives: a read error, a decoded object, or
      content the decoder rejects. */
  datatype FileContent = Unreadable(err: Error) | Decoded(obj: Object) | Undecodable

  /** Everything a component launch depends on besides the cluster state; `files`
      gives the content of each file of the components directory by name. */
  datatype Context = Context(env: TargetEnvironment, platform: string,
                             files: string -> FileContent, api: Api)

  /** Whether and how launching the component in file `name` fails. */
  function ComponentError(name: string, ctx: Context): (err: Option<Error>)
    ensures ctx.files(name).Undecodable? ==> err == Some(NotSupported)
    ensures ctx.files(name).Unreadable? ==> err == Some(Wrap(ctx.files(name).err, "cannot read component file"))
    ensures ctx.files(name).Decoded? && !IsSupported(ctx.files(name).obj.key.kind) ==> err == Some(NotSupported)
    ensures var o := ctx.files(name);
      o.Decoded? && IsSupported(o.obj.key.kind) && ctx.api.Fails(Create(o.obj.key)) ==>
        err == Some(CreateFailure(o.obj.key.kind, ctx.api.failing[Create(o.obj.key)]))
    // a component launches exactly when it decodes to a supported kind the cluster accepts
    ensures var o := ctx.files(name);
      err.None? <==> o.Decoded? && IsSupported(o.obj.key.kind) && !ctx.api.Fails(Create(o.obj.key))
  {
    match ctx.files(name)
    case Unreadable(e) => Some(Wrap(e, "cannot read component file"))
    case Undecodable => Some(NotSupported)
    case Decoded(o) =>
      if !IsSupported(o.key.kind) then Some(NotSupported)
      else if ctx.api.Fails(Create(o.key)) then Some(CreateFailure(o.key.kind, ctx.api.failing[Create(o.key)]))
      else None
  }

  /** `launchComponent`: read, decode and create one component. A file the decoder
      rejects is reported like an unsupported object (see Findings). */
  function LaunchComponent(name: string, ctx: Context, s: State): (r: (State, Option<Error>))
    ensures r.1 == ComponentError(name, ctx)
    ensures r.1.Some? ==> r.0 == s
    ensures r.1.None? ==>
      && ctx.files(name).Decoded? && IsSupported(ctx.files(name).obj.key.kind)
      && r.0 == Put(s, Prepared(ctx.files(name).obj, ctx.env, ctx.platform))
  {
    var err := ComponentError(name, ctx);
    if err.Some? then (s, err)
    else (Put(s, Prepared(ctx.files(name).obj, ctx.env, ctx.platform)), None)
  }

  /** What the source does with one component file: it panics on content that
      does not decode, because it logs the type of a nil object. */
  datatype Step = Done(state: State, err: Option<Error>) | Panic

  function LaunchComponentAsWritten(name: string, ctx: Context, s: State): (r: Step)
    ensures r.Panic? <==> ctx.files(name).Undecodable?
    ensures r.Done? ==> (r.state, r.err) == LaunchComponent(name, ctx, s)
  {
    match ctx.files(name)
    case Undecodable => Panic
    case _ => var (s1, err) := LaunchComponent(name, ctx, s); Done(s1, err)
  }

  /** A directory holding one file that does not decode crashes the source's launch. */
  lemma UndecodableComponentPanics(ctx: Context, s: State)
    requires ctx.files("broken.yaml") == Undecodable
    ensures LaunchComponentAsWritten("broken.yaml", ctx, s) == Panic
    ensures LaunchComponent("broken.yaml", ctx, s) == (s, Some(NotSupported))
  {
  }

  // ---------------------------------------------------------------------------
  // Listing and launching the directory

  /** `ListComponents`: the `.yaml` file names, in listing order. */
  function ListComponents(files: seq<string>): (r: seq<string>)
    ensures |r| <= |files|
    ensures forall i | 0 <= i < |r| :: HasSuffix(r[i], YamlSuffix) && r[i] in files
  {
    if files == [] then []
    else
      var rest := ListComponents(files[1..]);
      if HasSuffix(files[0], YamlSuffix) then [files[0]] + rest else rest
  }

  /** Every `.yaml` name is listed as often as the directory holds it, and nothing else is. */
  lemma {:induction false} ListComponentsContents(files: seq<string>)
    ensures forall x :: multiset(ListComponents(files))[x] == if HasSuffix(x, YamlSuffix) then multiset(files)[x] else 0
  {
    if files != [] {
      ListComponentsContents(files[1..]);
      assert files == [files[0]] + files[1..];
    }
  }

  /** Filtering distributes over concatenation, so the order of the listing is kept. */
  lemma {:induction false} ListComponentsAppend(a: seq<string>, b: seq<string>)
    ensures ListComponents(a + b) == ListComponents(a) + ListComponents(b)
  {
    if a == [] {
      assert a + b == b;
    } else {
      assert (a + b)[0] == a[0] && (a + b)[1..] == a[1..] + b;
      ListComponentsAppend(a[1..], b);
    }
  }

  /** The component files whose launch fails. */
  function FailingComponents(files: seq<string>, ctx: Context): (f: set<string>)
    ensures forall x :: x in f <==> x in files && ComponentError(x, ctx).Some?
  {
    set x | x in files && ComponentError(x, ctx).Some?
  }

  /** The keys of the objects the component files `names` decode to. */
  function LaunchedKeys(names: seq<string>, ctx: Context): (ks: set<ObjKey>)
    ensures forall n | n in names && ctx.files(n).Decoded? :: ctx.files(n).obj.key in ks
  {
    set n | n in names && ctx.files(n).Decoded? :: ctx.files(n).obj.key
  }

  /** The cluster after the component files `names` have each launched, in order:
      every decoded one is stored as prepared for the environment and platform,
      replacing whatever had its key. */
  function StoreLaunched(names: seq<string>, ctx: Context, s: State): (r: State)
    decreases |names|
  {
    if names == [] then s
    else
      var o := ctx.files(names[0]);
      StoreLaunched(names[1..], ctx, if o.Decoded? then Put(s, Prepared(o.obj, ctx.env, ctx.platform)) else s)
  }

  /** Launching leaves the namespaces alone, adds exactly the launched keys, and
      keeps every other object as it was. */
  lemma {:induction false} StoreLaunchedEffect(names: seq<string>, ctx: Context, s: State)
    ensures var r := StoreLaunched(names, ctx, s);
      && r.namespaces == s.namespaces
      && r.objects.Keys == s.objects.Keys + LaunchedKeys(names, ctx)
      && forall k | k in s.objects && k !in LaunchedKeys(names, ctx) :: r.objects[k] == s.objects[k]
    decreases |names|
  {
    if names != [] {
      var o := ctx.files(names[0]);
      var s1 := if o.Decoded? then Put(s, Prepared(o.obj, ctx.env, ctx.platform)) else s;
      StoreLaunchedEffect(names[1..], ctx, s1);
      assert names == [names[0]] + names[1..];
      assert LaunchedKeys(names, ctx) == LaunchedKeys(names[1..], ctx) + (if o.Decoded? then {o.obj.key} else {});
    }
  }

  /** Launching `a` and then `b` is launching `a + b`. */
  lemma {:induction false} StoreLaunchedAppend(a: seq<string>, b: seq<string>, ctx: Context, s: State)
    ensures StoreLaunched(a + b, ctx, s) == StoreLaunched(b, ctx, StoreLaunched(a, ctx, s))
    decreases |a|
  {
    if a == [] {
      assert a + b == b;
    } else {
      var o := ctx.files(a[0]);
      assert (a + b)[1..] == a[1..] + b;
      StoreLaunchedAppend(a[1..], b, ctx, if o.Decoded? then Put(s, Prepared(o.obj, ctx.env, ctx.platform)) else s);
    }
  }

  /** The launch loop's result: the cluster, the first error, how many components
      were launched and which component files were attempted. */
  datatype Progress = Progress(state: State, err: Option<Error>, count: nat, tried: seq<string>)

  /** The loop of `Run` over the directory listing. */
  function LaunchFiles(files: seq<string>, ctx: Context, s: State): (p: Progress)
    // fail-fast over the `.yaml` files: attempted up to and including the first failure
    ensures p.tried == Attempted(ListComponents(files), FailingComponents(files, ctx))
    ensures p.err.None? <==> AllSucceed(ListComponents(files), FailingComponents(files, ctx))
    ensures p.err.None? ==> p.count == |ListComponents(files)|
    ensures p.err.Some? ==>
      && |p.tried| > 0 && p.count == |p.tried| - 1
      && p.err == ComponentError(p.tried[|p.tried| - 1], ctx)
    ensures p.state.namespaces == s.namespaces
  {
    if files == [] then Progress(s, None, 0, [])
    else
      LaunchFilesStep(files, ctx);
      if !HasSuffix(files[0], YamlSuffix) then LaunchFiles(files[1..], ctx, s)
      else
        var (s1, err) := LaunchComponent(files[0], ctx, s);
        if err.Some? then Progress(s, err, 0, [files[0]])
        else
          var rest := LaunchFiles(files[1..], ctx, s1);
          Progress(rest.state, rest.err, rest.count + 1, [files[0]] + rest.tried)
  }

  /** The cluster after the loop holds what the files launched before any failure
      stored; with no failure, every attempted file launched. */
  lemma {:induction false} LaunchFilesStores(files: seq<string>, ctx: Context, s: State)
    ensures StoresLaunched(LaunchFiles(files, ctx, s), ctx, s)
    decreases |files|
  {
    if files != [] {
      if !HasSuffix(files[0], YamlSuffix) {
        LaunchFilesStores(files[1..], ctx, s);
      } else if ComponentError(files[0], ctx).None? {
        var s1 := LaunchComponent(files[0], ctx, s).0;
        var rest := LaunchFiles(files[1..], ctx, s1);
        LaunchFilesStores(files[1..], ctx, s1);
        StoresLaunchedCons(files[0], rest, ctx, s);
        assert LaunchFiles(files, ctx, s) == Progress(rest.state, rest.err, rest.count + 1, [files[0]] + rest.tried);
      } else {
        assert [files[0]][..0] == [];
      }
    }
  }

  /** What `LaunchFilesStores` states of one result of the loop. */
  predicate StoresLaunched(p: Progress, ctx: Context, s: State) {
    && p.count <= |p.tried| && (p.err.None? ==> p.count == |p.tried|)
    && p.state == StoreLaunched(p.tried[..p.count], ctx, s)
  }

  /** A component that launches is stored before the rest of the loop runs. */
  lemma StoresLaunchedCons(name: string, rest: Progress, ctx: Context, s: State)
    requires ctx.files(name).Decoded?
    requires StoresLaunched(rest, ctx, Put(s, Prepared(ctx.files(name).obj, ctx.env, ctx.platform)))
    ensures StoresLaunched(Progress(rest.state, rest.err, rest.count + 1, [name] + rest.tried), ctx, s)
  {
    var launched := [name] + rest.tried[..rest.count];
    assert ([name] + rest.tried)[..rest.count + 1] == launched;
    assert launched[1..] == rest.tried[..rest.count];
  }

  /** How the fail-fast reference advances over the first file of the listing. */
  lemma LaunchFilesStep(files: seq<string>, ctx: Context)
    requires files != []
    ensures var lc, f := ListComponents(files), FailingComponents(files, ctx);
      var tail, ft := ListComponents(files[1..]), FailingComponents(files[1..], ctx);
      && (!HasSuffix(files[0], YamlSuffix) ==>
            lc == tail && Attempted(lc, f) == Attempted(tail, ft) && (AllSucceed(lc, f) <==> AllSucceed(tail, ft)))
      && (HasSuffix(files[0], YamlSuffix) && files[0] in f ==>
            lc == [files[0]] + tail && Attempted(lc, f) == [files[0]] && !AllSucceed(lc, f))
      && (HasSuffix(files[0], YamlSuffix) && files[0] !in f ==>
            && lc == [files[0]] + tail
            && Attempted(lc, f) == [files[0]] + Attempted(tail, ft)
            && (AllSucceed(lc, f) <==> AllSucceed(tail, ft)))
  {
    var f, ft := FailingComponents(files, ctx), FailingComponents(files[1..], ctx);
    var tail := ListComponents(files[1..]);
    assert files == [files[0]] + files[1..];
    AttemptedRestrict(tail, f, ft);
    if HasSuffix(files[0], YamlSuffix) {
      LaunchFilesStepListed(files, f, ft);
    }
  }

  lemma LaunchFilesStepListed(files: seq<string>, f: set<string>, ft: set<string>)
    requires files != [] && HasSuffix(files[0], YamlSuffix)
    requires Attempted(ListComponents(files[1..]), f) == Attempted(ListComponents(files[1..]), ft)
    requires AllSucceed(ListComponents(files[1..]), f) <==> AllSucceed(ListComponents(files[1..]), ft)
    ensures var lc, tail := ListComponents(files), ListComponents(files[1..]);
      && lc == [files[0]] + tail
      && (files[0] in f ==> Attempted(lc, f) == [files[0]] && !AllSucceed(lc, f))
      && (files[0] !in f ==>
            && Attempted(lc, f) == [files[0]] + Attempted(tail, ft)
            && (AllSucceed(lc, f) <==> AllSucceed(tail, ft)))
  {
    var lc, tail := ListComponents(files), ListComponents(files[1..]);
    assert lc == [files[0]] + tail;
    if files[0] !in f {
      AttemptedAfterSuccesses([files[0]], tail, f);
      assert AllSucceed(lc, f) <==> AllSucceed(tail, f) by {
        assert forall j | 0 <= j < |tail| :: lc[j + 1] == tail[j];
      }
    }
  }

  // ---------------------------------------------------------------------------
  // Namespaces

  const ListFailure: string := "cannot obtain the namespace list"

  /** `createNamespace`: list the namespaces and create `name` unless it is listed. */
  function CreateNamespaceIfAbsent(name: string, api: Api, s: State): (r: (State, Option<Error>))
    ensures r.0.objects == s.objects
    ensures api.Fails(ListNamespaces) ==> r == (s, Some(Wrap(api.failing[ListNamespaces], ListFailure)))
    // an existing namespace is left alone and is not an error
    ensures !api.Fails(ListNamespaces) && name in s.namespaces ==> r == (s, None)
    ensures r.1.None? <==> !api.Fails(ListNamespaces) && (name in s.namespaces || !api.Fails(CreateNamespace(name)))
    ensures r.1.None? ==> r.0.namespaces == s.namespaces + {name}
    ensures r.1.Some? ==> r.0 == s
  {
    if api.Fails(ListNamespaces) then (s, Some(Wrap(api.failing[ListNamespaces], ListFailure)))
    else if name in s.namespaces then (s, None)
    else if api.Fails(CreateNamespace(name)) then
      (s, Some(Wrap(api.failing[CreateNamespace(name)], "cannot create namespace")))
    else (s.(namespaces := s.namespaces + {name}), None)
  }

  /** Creating a namespace that a successful call has just ensured changes nothing. */
  lemma CreateNamespaceIdempotent(name: string, api: Api, s: State)
    requires CreateNamespaceIfAbsent(name, api, s).1.None?
    ensures var s1 := CreateNamespaceIfAbsent(name, api, s).0;
      CreateNamespaceIfAbsent(name, api, s1) == (s1, None)
  {
  }

  function Elements(names: seq<string>): (r: set<string>)
    ensures forall n :: n in r <==> n in names
  {
    set n | n in names
  }

  /** The cluster after the first `k` names have been ensured. */
  function NamespacesAfter(names: seq<string>, k: nat, s: State): (r: State)
    requires k <= |names|
    ensures r.objects == s.objects && r.namespaces == s.namespaces + Elements(names[..k])
  {
    s.(namespaces := s.namespaces + Elements(names[..k]))
  }

  /** The namespace loop of `Run`: returns the cluster, the first error and how
      many names were ensured before it. */
  function EnsureNamespaces(names: seq<string>, api: Api, s: State): (r: (State, Option<Error>, nat))
    ensures r.2 <= |names|
    ensures r.0 == NamespacesAfter(names, r.2, s)
    ensures r.1.None? <==> r.2 == |names|
    // the names before the failing one were ensured, in order
    ensures forall i | 0 <= i < r.2 :: CreateNamespaceIfAbsent(names[i], api, NamespacesAfter(names, i, s)).1.None?
    ensures r.1.Some? ==> r.1 == CreateNamespaceIfAbsent(names[r.2], api, NamespacesAfter(names, r.2, s)).1
    decreases |names|
  {
    if names == [] then (s, None, 0)
    else
      var (s1, err) := CreateNamespaceIfAbsent(names[0], api, s);
      NamespacesAfterStart(names, s);
      if err.Some? then (s, err, 0)
      else
        var rest := EnsureNamespaces(names[1..], api, s1);
        NamespacesAfterShift(names, s, rest.2);
        (rest.0, rest.1, rest.2 + 1)
  }

  lemma NamespacesAfterStart(names: seq<string>, s: State)
    ensures NamespacesAfter(names, 0, s) == s
  {
    assert names[..0] == [];
  }

  /** Ensuring the first name and then the first `k` of the others is ensuring the first `k + 1`. */
  lemma NamespacesAfterShift(names: seq<string>, s: State, k: nat)
    requires 0 < |names| && k < |names|
    ensures forall i | 0 < i <= k + 1 ::
      NamespacesAfter(names, i, s) == NamespacesAfter(names[1..], i - 1, s.(namespaces := s.namespaces + {names[0]}))
  {
    forall i | 0 < i <= k + 1
      ensures NamespacesAfter(names, i, s) == NamespacesAfter(names[1..], i - 1, s.(namespaces := s.namespaces + {names[0]}))
    {
      assert names[..i] == [names[0]] + names[1..][..i - 1];
      assert Elements(names[..i]) == {names[0]} + Elements(names[1..][..i - 1]);
    }
  }

  // ---------------------------------------------------------------------------
  // Run

  /** The components directory: its listing (or the error reading it) and the
      content of each file. The listing is taken in the order given; the source's
      `ioutil.ReadDir` returns the entries sorted by file name. */
  datatype Disk = Disk(listing: Result<seq<string>>, files: string -> FileContent)

  /** `Run`'s outcome, the cluster after it and the component files it attempted. */
  datatype Outcome = Outcome(outcome: RunOutcome, state: State, launched: seq<string>)

  function UnknownEnvironment(env: string): (e: Error)
    ensures e.kind == InvalidArgument && e.params == [env] && e.cause.None?
  {
    Error(InvalidArgument, "cannot determine target environment", [env], None)
  }

  /** The part of `Run` after the directory has been listed. */
  function LaunchListed(files: seq<string>, ctx: Context, s: State): (r: Outcome)
    ensures r.launched == Attempted(ListComponents(files), FailingComponents(files, ctx))
    ensures r.state.namespaces == s.namespaces
    ensures r.outcome.IsSuccess() <==> AllSucceed(ListComponents(files), FailingComponents(files, ctx))
    ensures !r.outcome.IsSuccess() ==>
      && r.outcome.IsSemanticFailure()
      && r.outcome.result.value.output == "cannot launch component"
      && r.outcome.result.value.error == ComponentError(r.launched[|r.launched| - 1], ctx)
    ensures r.outcome.IsSuccess() ==>
      r.outcome.result.value.output == NatToString(|ListComponents(files)|) + LaunchedSuffix
    // every file launched before the failing one, if any, is stored
    ensures r.outcome.IsSuccess() ==> r.state == StoreLaunched(r.launched, ctx, s)
    ensures !r.outcome.IsSuccess() ==> r.state == StoreLaunched(r.launched[..|r.launched| - 1], ctx, s)
  {
    var p := LaunchFiles(files, ctx, s);
    LaunchFilesStores(files, ctx, s);
    assert p.err.None? ==> p.tried[..p.count] == p.tried;
    var outcome := if p.err.Some? then Failed("cannot launch component", p.err)
                   else Succeeded(NatToString(p.count) + LaunchedSuffix);
    Outcome(outcome, p.state, p.tried)
  }

  /** The context a run launches its components in. */
  function RunContext(c: Command, envs: map<string, TargetEnvironment>, disk: Disk, api: Api): (ctx: Context)
    requires c.environment in envs
  {
    Context(envs[c.environment], c.platformType, disk.files, api)
  }

  /** `Run`. The environment table maps environment names to environments;
      `disk` is the components directory. */
  function Run(c: Command, envs: map<string, TargetEnvironment>, disk: Disk, api: Api, s: State): (r: Outcome)
    ensures api.Fails(Connect) ==> r == Outcome(Transport(api.failing[Connect]), s, [])
    // an unknown environment stops the command before any namespace or component
    ensures !api.Fails(Connect) && c.environment !in envs ==>
      r == Outcome(Transport(UnknownEnvironment(c.environment)), s, [])
    // a namespace failure is a transport error, reported as is
    ensures !api.Fails(Connect) && c.environment in envs && EnsureNamespaces(c.namespaces, api, s).1.Some? ==>
      && r.outcome == Transport(EnsureNamespaces(c.namespaces, api, s).1.value) && r.launched == []
      && r.state == EnsureNamespaces(c.namespaces, api, s).0
    // an unreadable components directory is a transport error, after the namespaces were added
    ensures && !api.Fails(Connect) && c.environment in envs
            && EnsureNamespaces(c.namespaces, api, s).1.None? && disk.listing.Err? ==>
      && r.outcome == Transport(Wrap(disk.listing.error, "cannot read components dir"))
      && r.launched == [] && r.state == s.(namespaces := s.namespaces + Elements(c.namespaces))
    ensures r.outcome.IsTransportError() || r.outcome.IsSuccess() || r.outcome.IsSemanticFailure()
    ensures r.outcome.IsTransportError() ==> r.launched == [] && r.state.objects == s.objects
    ensures !r.outcome.IsTransportError() ==>
      && disk.listing.Ok?
      && r.state.namespaces == s.namespaces + Elements(c.namespaces)
      && c.environment in envs
      && r.launched == Attempted(ListComponents(disk.listing.value),
           FailingComponents(disk.listing.value, RunContext(c, envs, disk, api)))
    // once the directory is listed, the run succeeds exactly when every component launches
    ensures !r.outcome.IsTransportError() ==>
      (r.outcome.IsSuccess() <==>
         AllSucceed(ListComponents(disk.listing.value), FailingComponents(disk.listing.value, RunContext(c, envs, disk, api))))
    ensures r.outcome.IsSuccess() ==>
      && r.outcome.result.value.output == NatToString(|ListComponents(disk.listing.value)|) + LaunchedSuffix
      && r.launched == ListComponents(disk.listing.value)
      && r.state == StoreLaunched(r.launched, RunContext(c, envs, disk, api), s.(namespaces := s.namespaces + Elements(c.namespaces)))
    // a failing component is reported with its own error, after the ones before it were stored
    ensures r.outcome.IsSemanticFailure() ==>
      && r.outcome.result.value.output == "cannot launch component"
      && r.outcome.result.value.error == ComponentError(r.launched[|r.launched| - 1], RunContext(c, envs, disk, api))
      && r.state == StoreLaunched(r.launched[..|r.launched| - 1], RunContext(c, envs, disk, api),
                                  s.(namespaces := s.namespaces + Elements(c.namespaces)))
  {
    if api.Fails(Connect) then Outcome(Transport(api.failing[Connect]), s, [])
    else if c.environment !in envs then Outcome(Transport(UnknownEnvironment(c.environment)), s, [])
    else
      var (s1, nsErr, _) := EnsureNamespaces(c.namespaces, api, s);
      if nsErr.Some? then Outcome(Transport(nsErr.value), s1, [])
      else
        assert c.namespaces[..|c.namespaces|] == c.namespaces;
        match disk.listing
        case Err(e) => Outcome(Transport(Wrap(e, "cannot read components dir")), s1, [])
        case Ok(files) =>
          LaunchListed(files, RunContext(c, envs, disk, api), s1)
  }

  /** The count in a success message reads back as the number of `.yaml` files. */
  lemma ReportsCount(files: seq<string>, ctx: Context, s: State)
    requires LaunchListed(files, ctx, s).outcome.IsSuccess()
    ensures var out := LaunchListed(files, ctx, s).outcome.result.value.output;
      && |out| > |LaunchedSuffix|
      && HasSuffix(out, LaunchedSuffix)
      && var digits := out[..|out| - |LaunchedSuffix|];
      (forall i | 0 <= i < |digits| :: '0' <= digits[i] <= '9')
      && ParseNat(digits) == |ListComponents(files)|
  {
    CountReadsBack(|ListComponents(files)|);
  }

  /** A success message's digits read back as the count it was built from. */
  lemma CountReadsBack(n: nat)
    ensures var out := NatToString(n) + LaunchedSuffix;
      && |out| > |LaunchedSuffix|
      && HasSuffix(out, LaunchedSuffix)
      && var digits := out[..|out| - |LaunchedSuffix|];
      (forall i | 0 <= i < |digits| :: '0' <= digits[i] <= '9')
      && ParseNat(digits) == n
  {
    var out := NatToString(n) + LaunchedSuffix;
    assert out[..|out| - |LaunchedSuffix|] == NatToString(n);
    ParseNatToString(n);
  }

  /** A command built by `New` carries no environment, so unless the table has an
      entry for the empty name its run stops with an invalid-argument error. */
  lemma NewNeedsEnvironment(kubeConfigPath: string, namespaces: seq<string>, dir: string, platform: string,
                            envs: map<string, TargetEnvironment>, disk: Disk, api: Api, s: State)
    requires "" !in envs && !api.Fails(Connect)
    ensures var r := Run(New(kubeConfigPath, namespaces, dir, platform), envs, disk, api, s);
      r.outcome.IsTransportError() && r.outcome.err.value.kind == InvalidArgument && r.state == s
  {
  }

  // ---------------------------------------------------------------------------
  // Renderings

  const StringPrefix: string := "SYNC LaunchComponents from "

  /** `String()`: the command name and the components directory. */
  function String(c: Command): (r: string)
    ensures |r| == |StringPrefix| + |c.componentsDir| && r[|StringPrefix|..] == c.componentsDir
  {
    StringPrefix + c.componentsDir
  }

  /** The component lines of `PrettyPrint`, each preceded by a newline. */
  function ComponentLines(components: seq<string>, indentation: nat): string
  {
    if components == [] then ""
    else
      var last := components[|components| - 1];
      ComponentLines(components[..|components| - 1], indentation) + "\n" + Indent(indentation + 4, last)
  }

  /** The lines `PrettyPrint` is meant to produce: the command, then one deeper-indented
      line per component. */
  function Lines(c: Command, components: seq<string>, indentation: nat): (r: seq<string>)
    ensures |r| == |components| + 1 && r[0] == Indent(indentation, String(c))
    ensures forall i | 0 <= i < |components| :: r[i + 1] == Indent(indentation + 4, components[i])
  {
    [Indent(indentation, String(c))] + seq(|components|, i requires 0 <= i < |components| => Indent(indentation + 4, components[i]))
  }

  /** `PrettyPrint(indentation)` over the directory listing `files`. */
  function PrettyPrint(c: Command, files: seq<string>, indentation: nat): (r: string)
    ensures r == JoinWith(Lines(c, ListComponents(files), indentation), "\n")
  {
    var components := ListComponents(files);
    PrettyPrintJoin(Indent(indentation, String(c)), components, indentation);
    Indent(indentation, String(c)) + ComponentLines(components, indentation)
  }

  lemma {:induction false} PrettyPrintJoin(head: string, cs: seq<string>, indentation: nat)
    ensures head + ComponentLines(cs, indentation)
         == JoinWith([head] + seq(|cs|, i requires 0 <= i < |cs| => Indent(indentation + 4, cs[i])), "\n")
    decreases |cs|
  {
    var ls := seq(|cs|, i requires 0 <= i < |cs| => Indent(indentation + 4, cs[i]));
    if cs == [] {
      assert [head] + ls == [head];
    } else {
      var init := cs[..|cs| - 1];
      var li := seq(|init|, i requires 0 <= i < |init| => Indent(indentation + 4, init[i]));
      PrettyPrintJoin(head, init, indentation);
      assert [head] + ls == ([head] + li) + [ls[|cs| - 1]];
      JoinWithSnoc([head] + li, ls[|cs| - 1], "\n");
    }
  }

  lemma {:induction false} JoinWithSnoc(parts: seq<string>, last: string, sep: string)
    requires |parts| >= 1
    ensures JoinWith(parts + [last], sep) == JoinWith(parts, sep) + sep + last
    decreases |parts|
  {
    if |parts| == 1 {
      assert parts + [last] == [parts[0], last];
    } else {
      assert (parts + [last])[1..] == parts[1..] + [last];
      JoinWithSnoc(parts[1..], last, sep);
    }
  }

  /** When no name holds a newline, splitting the rendering on newlines gives back
      exactly the command line and one line per `.yaml` component. */
  lemma PrettyPrintLines(c: Command, files: seq<string>, indentation: nat)
    requires '\n' !in c.componentsDir
    requires forall i | 0 <= i < |files| :: '\n' !in files[i]
    ensures Split(PrettyPrint(c, files, indentation), "\n") == Lines(c, ListComponents(files), indentation)
  {
    var components := ListComponents(files);
    var ls := Lines(c, components, indentation);
    forall k | 0 <= k < |ls| ensures '\n' !in ls[k] {
      if k == 0 {
        StringLacksNewline(c);
        IndentLacks(indentation, String(c), '\n');
      } else {
        IndentLacks(indentation + 4, components[k - 1], '\n');
      }
    }
    SplitJoin(ls, '\n');
  }

  lemma StringLacksNewline(c: Command)
    requires '\n' !in c.componentsDir
    ensures '\n' !in String(c)
  {
    assert '\n' !in StringPrefix;
  }

  lemma IndentLacks(n: nat, line: string, ch: char)
    requires ch != ' ' && ch !in line
    ensures ch !in Indent(n, line)
  {
    var r := Indent(n, line);
    forall i | 0 <= i < |r| ensures r[i] != ch {
      if i >= n {
        assert r[i] == line[i - n];
      }
    }
  }

  /** `UserString()`: names the directory and the environment. */
  function UserString(c: Command): (r: string)
    ensures OccursAt(r, c.componentsDir, |"Launching K8s components from "|)
    ensures HasSuffix(r, " for " + c.environment)
  {
    "Launching K8s components from " + c.componentsDir + " for " + c.environment
  }
}
