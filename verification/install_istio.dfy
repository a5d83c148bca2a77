/** The InstallIstio command: it prepares the `istio-system` namespace and the
    Istio CA secret, then installs Istio with istioctl, as the master of the mesh
    (with a letsencrypt certificate and a cluster-aware gateway) or as a remote
    cluster that points at the master's ingress gateway. */
module Istio {
  import opened Base
  import opened Cluster
  import opened Strings

  const IstioNamespace: string := "istio-system"
  const IstioSecretName: string := "cacerts"
  const DomainPlaceholder: string := ".IngressDomain"

  /** The certificate request the master asks letsencrypt for; every `.IngressDomain`
      is replaced by the public DNS host. */
  const IstioIngressCert: string :=
    "\n" +
    "apiVersion: certmanager.k8s.io/v1alpha1\n" +
    "kind: Certificate\n" +
    "metadata:\n" +
    "  name: ingress-cert\n" +
    "  namespace: istio-system\n" +
    "spec:\n" +
    "  secretName: ingress-cert\n" +
    "  issuerRef:\n" +
    "    name: letsencrypt\n" +
    "    kind: ClusterIssuer\n" +
    "  dnsNames:\n" +
    "  - '*..IngressDomain'\n" +
    "  - '*.master..IngressDomain'\n" +
    "  commonName: '*..IngressDomain'\n" +
    "  acme:\n" +
    "    config:\n" +
    "    - dns01:\n" +
    "        provider: azuredns\n" +
    "      domains:\n" +
    "      - '*..IngressDomain'\n" +
    "      - '*.master..IngressDomain'\n"

  datatype Command = Command(
    header: Header,
    kubeConfigPath: string,
    istioPath: string,
    clusterID: string,
    isAppCluster: bool,
    staticIpAddress: string,
    tempPath: string,
    dnsPublicHost: string)

  /** `NewInstallIstio`: nothing when the Kubernetes or Istio client cannot be built
      from the kubeconfig; otherwise a command with the AddClusterUser discriminant. */
  function New(kubeConfigPath: string, istioPath: string, clusterID: string, isAppCluster: bool,
               staticIpAddress: string, tempPath: string, dnsPublicHost: string,
               clientsBuilt: bool): (r: Option<Command>)
    ensures r.Some? <==> clientsBuilt
    ensures r.Some? ==> r.value.header == NewSyncHeader(AddClusterUser)
    ensures r.Some? ==> r.value == Command(r.value.header, kubeConfigPath, istioPath, clusterID,
      isAppCluster, staticIpAddress, tempPath, dnsPublicHost)
  {
    if !clientsBuilt then None
    else Some(Command(NewSyncHeader(AddClusterUser), kubeConfigPath, istioPath, clusterID,
      isAppCluster, staticIpAddress, tempPath, dnsPublicHost))
  }

  /** `NewInstallIstioFromJSON`: decode, then build the kubeconfig and the Istio client;
      `configErr` and `clientErr` are how those two attempts failed, if they did. */
  function FromJSON(decoded: Option<Command>, configErr: Option<Error>, clientErr: Option<Error>): (r: Result<Command>)
    ensures decoded.None? ==> r == Err(UnmarshalFailure)
    ensures r.Ok? <==> decoded.Some? && configErr.None? && clientErr.None?
    ensures decoded.Some? && configErr.Some? ==>
      r == Err(InternalFrom("impossible to get kubeconfig path", configErr.value))
    ensures decoded.Some? && configErr.None? && clientErr.Some? ==>
      r == Err(NewError(Internal, "impossible to instantiate istio client"))
    ensures r.Ok? ==> r.value.header.id == GenerateCommandId(decoded.value.header.name)
    ensures r.Ok? ==> r.value.(header := decoded.value.header) == decoded.value
  {
    match decoded
    case None => Err(UnmarshalFailure)
    case Some(c) =>
      if configErr.Some? then Err(InternalFrom("impossible to get kubeconfig path", configErr.value))
      else if clientErr.Some? then Err(NewError(Internal, "impossible to instantiate istio client"))
      else Ok(c.(header := IdentifyDecoded(c.header)))
  }

  // ---------------------------------------------------------------------------
  // Fail-fast sequences of external calls

  /** How a step's error is reported: unchanged, wrapped as an internal error, or
      replaced by an internal error that drops it. */
  datatype Wrapping = AsIs | InternalWrap(msg: string) | Replace(msg: string)

  function Report(w: Wrapping, e: Error): (r: Error)
    ensures w.AsIs? ==> r == e
    ensures w.InternalWrap? ==> r == InternalFrom(w.msg, e)
    ensures w.Replace? ==> r == NewError(Internal, w.msg)
  {
    match w
    case AsIs => e
    case InternalWrap(msg) => InternalFrom(msg, e)
    case Replace(msg) => Error(Internal, msg, [], None)
  }

  datatype Action = Action(call: Call, wrapping: Wrapping)

  function ActionCalls(plan: seq<Action>): (r: seq<Call>)
    ensures |r| == |plan| && forall i | 0 <= i < |plan| :: r[i] == plan[i].call
  {
    seq(|plan|, i requires 0 <= i < |plan| => plan[i].call)
  }

  /** Performs the calls in order and stops at the first failing one, reporting its error. */
  function RunActions(plan: seq<Action>, api: Api): (r: (Option<Error>, seq<Call>))
    ensures r.1 == Attempted(ActionCalls(plan), api.failing.Keys)
    ensures r.0.None? <==> AllSucceed(ActionCalls(plan), api.failing.Keys)
    // on failure, the last call attempted is the one that failed
    ensures r.0.Some? ==> 0 < |r.1| && r.1[|r.1| - 1] in api.failing
  {
    if plan == [] then (None, [])
    else
      assert ActionCalls(plan) == [plan[0].call] + ActionCalls(plan[1..]);
      AttemptedCons(plan[0].call, ActionCalls(plan[1..]), api.failing.Keys);
      if api.Fails(plan[0].call) then
        (Some(Report(plan[0].wrapping, api.failing[plan[0].call])), [plan[0].call])
      else
        var rest := RunActions(plan[1..], api);
        (rest.0, [plan[0].call] + rest.1)
  }

  /** When step `k` is the first to fail, the run reports its error after attempting
      exactly the steps up to it. */
  lemma {:induction false} RunActionsStopsAt(plan: seq<Action>, api: Api, k: nat)
    requires k < |plan| && api.Fails(plan[k].call)
    requires forall j | 0 <= j < k :: !api.Fails(plan[j].call)
    ensures RunActions(plan, api).0 == Some(Report(plan[k].wrapping, api.failing[plan[k].call]))
    ensures RunActions(plan, api).1 == ActionCalls(plan[..k + 1])
  {
    if k > 0 {
      RunActionsStopsAt(plan[1..], api, k - 1);
      assert plan[1..][..k] == plan[..k + 1][1..];
    }
  }

  /** A step's outcome: the cluster, the error (if any) and the calls attempted. */
  datatype Step = Step(state: State, err: Option<Error>, calls: seq<Call>)

  // ---------------------------------------------------------------------------
  // The CA secret

  /** The PEM encodings the certificate generation produces; the key generation
      and signing themselves are not modelled. */
  datatype Certificates = Certificates(rootCert: string, caCert: string, caKey: string)

  const CaCertsKey: ObjKey := ObjKey(Secret, IstioNamespace, IstioSecretName)

  /** The `cacerts` secret: the cluster CA, its key, the chain and the root. */
  function CaCertsSecret(certs: Certificates): (o: Object)
    ensures o.key == ObjKey(Secret, "istio-system", "cacerts")
    ensures o.data.Keys == {"ca-cert.pem", "ca-key.pem", "cert-chain.pem", "root-cert.pem"}
    // the chain is the cluster CA followed by the root that signed it
    ensures o.data["cert-chain.pem"] == o.data["ca-cert.pem"] + o.data["root-cert.pem"]
    ensures o.data["ca-cert.pem"] == certs.caCert && o.data["root-cert.pem"] == certs.rootCert
    ensures o.data["ca-key.pem"] == certs.caKey
  {
    NewObject(CaCertsKey, map[],
      map["ca-cert.pem" := certs.caCert, "ca-key.pem" := certs.caKey,
          "cert-chain.pem" := certs.caCert + certs.rootCert, "root-cert.pem" := certs.rootCert],
      None)
  }

  const SecretsPlan: seq<Action> := [
    Action(GenerateRootCA, InternalWrap("there was a problem generating the cluster CA certificates for Istio")),
    Action(GenerateClusterCA, InternalWrap("there was a problem generating the cluster root certificates for Istio")),
    Action(Connect, AsIs),
    Action(Create(CaCertsKey), InternalWrap("error creating istio cacerts secret"))]

  /** `createSecrets`: generate the two CAs, connect and store the secret. */
  function CreateSecrets(certs: Certificates, api: Api, s: State): (r: Step)
    ensures r.calls == Attempted(ActionCalls(SecretsPlan), api.failing.Keys)
    ensures r.err.None? <==> AllSucceed(ActionCalls(SecretsPlan), api.failing.Keys)
    ensures r.err.None? ==> r.state == Put(s, CaCertsSecret(certs))
    ensures r.err.Some? ==> r.state == s
  {
    var (err, calls) := RunActions(SecretsPlan, api);
    Step(if err.None? then Put(s, CaCertsSecret(certs)) else s, err, calls)
  }

  // ---------------------------------------------------------------------------
  // Remote (application) cluster

  /** A `--set` value: an installation setting and what it is set to. */
  datatype Setting = Setting(key: string, value: string)

  function Render(v: Setting): string {
    v.key + "=" + v.value
  }

  /** istioctl's `--set` flags: the flag before each rendered setting. */
  function SetFlags(values: seq<Setting>): (r: seq<string>)
    ensures |r| == 2 * |values|
    ensures forall i | 0 <= i < |values| :: r[2 * i] == "--set" && r[2 * i + 1] == Render(values[i])
  {
    if values == [] then [] else ["--set", Render(values[0])] + SetFlags(values[1..])
  }

  /** The value `key` is set to by a list of settings, if any sets it: the first
      setting with that key. */
  function Lookup(values: seq<Setting>, key: string): (v: Option<string>)
    ensures v.None? <==> forall i | 0 <= i < |values| :: values[i].key != key
    ensures v.Some? ==> Setting(key, v.value) in values
  {
    if values == [] then None
    else if values[0].key == key then Some(values[0].value)
    else Lookup(values[1..], key)
  }

  /** No key is set twice, so the order of the flags cannot change what is installed. */
  predicate DistinctSettingKeys(values: seq<Setting>) {
    forall i, j | 0 <= i < j < |values| :: values[i].key != values[j].key
  }

  /** With no key set twice, each setting is what its key reads back as. */
  lemma LookupAt(values: seq<Setting>, i: nat)
    requires DistinctSettingKeys(values) && i < |values|
    ensures Lookup(values, values[i].key) == Some(values[i].value)
  {
  }

  /** The istioctl binary shipped under the Istio path. */
  function IstioctlBinary(c: Command): string {
    c.istioPath + "/istioctl"
  }

  /** The settings a remote cluster is installed with: its pilot, policy and telemetry
      point at the master's gateway, its network is named after the cluster, and every
      other setting but self-signing is switched on. */
  function RemoteValues(gatewayIP: string, network: string): (r: seq<Setting>)
    ensures |r| == 12
    // self-signed certificates are off: the cluster uses the CA secret
    ensures r[2] == Setting("values.security.selfSigned", "false")
    // pilot, policy and telemetry are those of the master, reached through its gateway
    ensures r[6..9] == [Setting("values.global.remotePilotAddress", gatewayIP),
                        Setting("values.global.remotePolicyAddress", gatewayIP),
                        Setting("values.global.remoteTelemetryAddress", gatewayIP)]
    // the gateway's network and the mesh network are both named after the cluster
    ensures r[9..11] == [Setting("values.gateways.istio-ingressgateway.env.ISTIO_META_NETWORK", network),
                         Setting("values.global.network", network)]
    // every other setting is a switch turned on
    ensures forall k | 0 <= k < 12 && k != 2 && (k < 6 || k == 11) :: r[k].value == "true"
  {
    [Setting("values.global.mtls.enabled", "true"),
     Setting("values.gateways.enabled", "true"),
     Setting("values.security.selfSigned", "false"),
     Setting("values.global.controlPlaneSecurityEnabled", "true"),
     Setting("values.global.createRemoteSvcEndpoints", "true"),
     Setting("values.global.remotePilotCreateSvcEndpoint", "true"),
     Setting("values.global.remotePilotAddress", gatewayIP),
     Setting("values.global.remotePolicyAddress", gatewayIP),
     Setting("values.global.remoteTelemetryAddress", gatewayIP),
     Setting("values.gateways.istio-ingressgateway.env.ISTIO_META_NETWORK", network),
     Setting("values.global.network", network),
     Setting("autoInjection.enabled", "true")]
  }

  /** The settings the master is installed with: HTTPS ingress on the static IP. */
  function MasterValues(loadBalancerIP: string): (r: seq<Setting>)
    ensures |r| == 5
    ensures forall k | 0 <= k < 3 :: r[k].value == "true"
    // the ingress gateway is named "ingressgateway" and listens on the static IP
    ensures r[3] == Setting("values.global.k8sIngress.gatewayName", "ingressgateway")
    ensures r[4] == Setting("values.gateways.istio-ingressgateway.loadBalancerIP", loadBalancerIP)
  {
    [Setting("values.gateways.istio-ingressgateway.sds.enabled", "true"),
     Setting("values.global.k8sIngress.enabled", "true"),
     Setting("values.global.k8sIngress.enableHttps", "true"),
     Setting("values.global.k8sIngress.gatewayName", "ingressgateway"),
     Setting("values.gateways.istio-ingressgateway.loadBalancerIP", loadBalancerIP)]
  }

  /** Read by key, the master settings turn on SDS and HTTPS ingress and put the
      gateway named "ingressgateway" on the static IP; no key is set twice. */
  lemma MasterValuesByKey(loadBalancerIP: string)
    ensures var r := MasterValues(loadBalancerIP);
      && DistinctSettingKeys(r)
      && Lookup(r, "values.gateways.istio-ingressgateway.sds.enabled") == Some("true")
      && Lookup(r, "values.global.k8sIngress.enabled") == Some("true")
      && Lookup(r, "values.global.k8sIngress.enableHttps") == Some("true")
      && Lookup(r, "values.global.k8sIngress.gatewayName") == Some("ingressgateway")
      && Lookup(r, "values.gateways.istio-ingressgateway.loadBalancerIP") == Some(loadBalancerIP)
  {
    var r := MasterValues(loadBalancerIP);
    assert DistinctSettingKeys(r) by {
      forall i, j | 0 <= i < j < |r| ensures r[i].key != r[j].key {
        assert |r[i].key| != |r[j].key| || r[i].key[20] != r[j].key[20] || r[i].key[26] != r[j].key[26];
      }
    }
    LookupAt(r, 0);
    LookupAt(r, 1);
    LookupAt(r, 2);
    LookupAt(r, 3);
    LookupAt(r, 4);
  }

  /** No key of the remote install is set twice. */
  lemma RemoteKeysDistinct(gatewayIP: string, network: string)
    ensures DistinctSettingKeys(RemoteValues(gatewayIP, network))
  {
    var r := RemoteValues(gatewayIP, network);
    forall i, j | 0 <= i < j < |r| ensures r[i].key != r[j].key {
      assert |r[i].key| != |r[j].key| || r[i].key[7] != r[j].key[7] || r[i].key[15] != r[j].key[15]
        || r[i].key[21] != r[j].key[21];
    }
  }

  /** Read by key, the remote settings send pilot, policy and telemetry to the
      master's gateway IP. */
  lemma RemoteControlPlaneByKey(gatewayIP: string, network: string)
    ensures var r := RemoteValues(gatewayIP, network);
      && Lookup(r, "values.global.remotePilotAddress") == Some(gatewayIP)
      && Lookup(r, "values.global.remotePolicyAddress") == Some(gatewayIP)
      && Lookup(r, "values.global.remoteTelemetryAddress") == Some(gatewayIP)
  {
    var r := RemoteValues(gatewayIP, network);
    RemoteKeysDistinct(gatewayIP, network);
    LookupAt(r, 6);
    LookupAt(r, 7);
    LookupAt(r, 8);
  }

  /** Read by key, the remote settings name the mesh network and the gateway's network
      after the cluster. */
  lemma RemoteNetworkByKey(gatewayIP: string, network: string)
    ensures var r := RemoteValues(gatewayIP, network);
      && Lookup(r, "values.global.network") == Some(network)
      && Lookup(r, "values.gateways.istio-ingressgateway.env.ISTIO_META_NETWORK") == Some(network)
  {
    var r := RemoteValues(gatewayIP, network);
    RemoteKeysDistinct(gatewayIP, network);
    LookupAt(r, 9);
    LookupAt(r, 10);
  }

  /** Read by key, the remote settings turn self-signed certificates off and switch on
      mutual TLS, the gateways, control-plane security, the remote service endpoints and
      sidecar auto-injection. */
  lemma RemoteSwitchesByKey(gatewayIP: string, network: string)
    ensures var r := RemoteValues(gatewayIP, network);
      && Lookup(r, "values.global.mtls.enabled") == Some("true")
      && Lookup(r, "values.gateways.enabled") == Some("true")
      && Lookup(r, "values.global.controlPlaneSecurityEnabled") == Some("true")
      && Lookup(r, "values.global.createRemoteSvcEndpoints") == Some("true")
      && Lookup(r, "values.global.remotePilotCreateSvcEndpoint") == Some("true")
      && Lookup(r, "autoInjection.enabled") == Some("true")
      && Lookup(r, "values.security.selfSigned") == Some("false")
  {
    var r := RemoteValues(gatewayIP, network);
    RemoteKeysDistinct(gatewayIP, network);
    LookupAt(r, 0);
    LookupAt(r, 1);
    LookupAt(r, 2);
    LookupAt(r, 3);
    LookupAt(r, 4);
    LookupAt(r, 5);
    LookupAt(r, 11);
  }

  /** The argument list istioctl is run with: `manifest apply` on the kubeconfig, the
      `--set` values, and for the master the control-plane file last. */
  function Args(m: MeshInstall): (r: seq<string>)
    ensures |r| >= 3 && r[..3] == ["manifest", "apply", "--kubeconfig=" + m.kubeConfigPath]
    ensures m.RemoteInstall? ==> |r| == 27 && r[3..] == SetFlags(RemoteValues(m.gatewayIP, m.network))
    ensures m.MasterInstall? ==> |r| == 15 && r[3..13] == SetFlags(MasterValues(m.loadBalancerIP))
    ensures m.MasterInstall? ==> r[13..] == ["-f", m.configFile]
  {
    var head := ["manifest", "apply", "--kubeconfig=" + m.kubeConfigPath];
    match m
    case RemoteInstall(_, gatewayIP, network) => head + SetFlags(RemoteValues(gatewayIP, network))
    case MasterInstall(_, loadBalancerIP, configFile) => head + SetFlags(MasterValues(loadBalancerIP)) + ["-f", configFile]
  }

  /** The remote install of `c` pointing at `gatewayIP`, its network named after the cluster. */
  function RemoteMesh(c: Command, gatewayIP: string): (m: MeshInstall)
    ensures m.RemoteInstall? && m.gatewayIP == gatewayIP && m.network == c.clusterID
    ensures m.kubeConfigPath == c.kubeConfigPath
  {
    RemoteInstall(c.kubeConfigPath, gatewayIP, c.clusterID)
  }

  /** The master install of `c` on its static IP with the control-plane file. */
  function MasterMesh(c: Command, configFile: string): (m: MeshInstall)
    ensures m.MasterInstall? && m.loadBalancerIP == c.staticIpAddress && m.configFile == configFile
    ensures m.kubeConfigPath == c.kubeConfigPath
  {
    MasterInstall(c.kubeConfigPath, c.staticIpAddress, configFile)
  }

  const NoIngressIP: Error := NewError(Internal, "no available Istio ingress IP for master cluster")
  const NoPublicIP: Error := NewError(Internal, "there is no public IP for istio master gateway")

  const LookupPlan: seq<Action> := [
    Action(InClusterConfig, InternalWrap("impossible to get master cluster k8s configuration")),
    Action(NewLocalClient, InternalWrap("impossible to instantiate k8s client for master cluster")),
    Action(GetGatewayService, InternalWrap("impossible to find istio gateway service IP"))]

  /** `installInSlave`. `ingress` holds the IPs of the load-balancer ingress entries of the
      master's gateway service, as the lookup returned it. */
  function InstallInSlave(c: Command, ingress: seq<string>, api: Api): (r: (Option<Error>, seq<Call>))
    // the gateway service must have an ingress entry, and its first IP must be set
    ensures AllSucceed(ActionCalls(LookupPlan), api.failing.Keys) && ingress == [] ==> r == (Some(NoIngressIP), ActionCalls(LookupPlan))
    ensures AllSucceed(ActionCalls(LookupPlan), api.failing.Keys) && ingress != [] && ingress[0] == "" ==>
      r == (Some(NoPublicIP), ActionCalls(LookupPlan))
    // istioctl runs, after the lookup, exactly when the lookup finds a gateway IP
    ensures var found := AllSucceed(ActionCalls(LookupPlan), api.failing.Keys) && ingress != [] && ingress[0] != "";
      && (found ==> r.1 == ActionCalls(LookupPlan) + [Istioctl(IstioctlBinary(c), RemoteMesh(c, ingress[0]))])
      && (!found ==> r.1 == Attempted(ActionCalls(LookupPlan), api.failing.Keys))
    ensures r.0.None? <==>
      && AllSucceed(ActionCalls(LookupPlan), api.failing.Keys) && ingress != [] && ingress[0] != ""
      && !api.Fails(Istioctl(IstioctlBinary(c), RemoteMesh(c, ingress[0])))
  {
    var (lookupErr, calls) := RunActions(LookupPlan, api);
    LookupCallsNoIstioctl(api);
    if lookupErr.Some? then (lookupErr, calls)
    else if ingress == [] then (Some(NoIngressIP), calls)
    else if ingress[0] == "" then (Some(NoPublicIP), calls)
    else
      var install := Istioctl(IstioctlBinary(c), RemoteMesh(c, ingress[0]));
      (if api.Fails(install) then Some(api.failing[install]) else None, calls + [install])
  }

  /** The lookup neither installs the mesh nor creates the gateway. */
  lemma LookupCallsNoIstioctl(api: Api)
    ensures forall x | x in RunActions(LookupPlan, api).1 :: !x.Istioctl? && x != Create(GatewayKey)
  {
    AttemptedWithin(ActionCalls(LookupPlan), api.failing.Keys);
    assert ActionCalls(LookupPlan) == [InClusterConfig, NewLocalClient, GetGatewayService];
  }

  // ---------------------------------------------------------------------------
  // Master cluster

  /** The certificate request: the template with the public DNS host for every placeholder. */
  function CertificateRequest(dnsPublicHost: string): string {
    ReplaceAll(IstioIngressCert, DomainPlaceholder, dnsPublicHost)
  }

  /** The request is the template's text between placeholders, joined with the host,
      and no piece of that text holds a placeholder. */
  lemma CertificateRequestShape(dnsPublicHost: string)
    ensures var pieces := Split(IstioIngressCert, DomainPlaceholder);
      && JoinWith(pieces, DomainPlaceholder) == IstioIngressCert
      && CertificateRequest(dnsPublicHost) == JoinWith(pieces, dnsPublicHost)
      && forall k | 0 <= k < |pieces| :: !Contains(pieces[k], DomainPlaceholder)
  {
    JoinSplit(IstioIngressCert, DomainPlaceholder);
    ReplaceAllIsSplitJoin(IstioIngressCert, DomainPlaceholder, dnsPublicHost);
    SplitPiecesFree(IstioIngressCert, DomainPlaceholder);
  }

  /** The calls `installInMaster` makes when none fails: the certificate is requested and
      awaited, the control-plane file written, istioctl run and the gateway patched. */
  function MasterCalls(c: Command, configFile: string): seq<Call> {
    [CreateCertificate(c.dnsPublicHost), WaitCertificate, TempFile, WriteFile,
     Istioctl(IstioctlBinary(c), MasterMesh(c, configFile)), PatchGateway]
  }

  /** The steps of `installInMaster`; `configFile` is the name of the temporary file. */
  function MasterPlan(c: Command, configFile: string): (p: seq<Action>)
    ensures ActionCalls(p) == MasterCalls(c, configFile)
  {
    [Action(CreateCertificate(c.dnsPublicHost), AsIs),
     Action(WaitCertificate, AsIs),
     Action(TempFile, InternalWrap("failure when creating temporary configuration file")),
     Action(WriteFile, Replace("failed when writing configuration file")),
     Action(Istioctl(IstioctlBinary(c), MasterMesh(c, configFile)), AsIs),
     Action(PatchGateway, InternalWrap("impossible to patch istio ingress gateway"))]
  }

  /** `installInMaster` with a failed temporary file reported as an error (see Findings). */
  function InstallInMaster(c: Command, configFile: string, api: Api): (r: (Option<Error>, seq<Call>))
    ensures r.1 == Attempted(MasterCalls(c, configFile), api.failing.Keys)
    ensures r.0.None? <==> AllSucceed(MasterCalls(c, configFile), api.failing.Keys)
    // on failure, the last call attempted is the one that failed
    ensures r.0.Some? ==> 0 < |r.1| && r.1[|r.1| - 1] in api.failing
  {
    RunActions(MasterPlan(c, configFile), api)
  }

  /** The install stops at the temporary file exactly when the certificate is issued
      and the file cannot be created. */
  lemma MasterStopsAtTempFile(c: Command, configFile: string, api: Api)
    ensures var r := InstallInMaster(c, configFile, api);
      (r.0.Some? && r.1[|r.1| - 1] == TempFile)
      <==> !api.Fails(CreateCertificate(c.dnsPublicHost)) && !api.Fails(WaitCertificate) && api.Fails(TempFile)
  {
    var calls := MasterCalls(c, configFile);
    if !api.Fails(CreateCertificate(c.dnsPublicHost)) && !api.Fails(WaitCertificate) && api.Fails(TempFile) {
      AttemptedUpToFirstFailure(calls, api.failing.Keys, 2);
    }
  }

  datatype MasterOutcome = Finished(err: Option<Error>, calls: seq<Call>) | Panic

  /** `installInMaster` as written: it reads the temporary file's name before checking
      that the file was created, which dereferences a nil file; every other run is as
      in `InstallInMaster`. */
  function InstallInMasterAsWritten(c: Command, configFile: string, api: Api): (r: MasterOutcome)
    ensures r.Panic? <==>
      !api.Fails(CreateCertificate(c.dnsPublicHost)) && !api.Fails(WaitCertificate) && api.Fails(TempFile)
    ensures r.Finished? ==> (r.err, r.calls) == InstallInMaster(c, configFile, api)
  {
    MasterStopsAtTempFile(c, configFile, api);
    var (err, calls) := InstallInMaster(c, configFile, api);
    if err.Some? && calls[|calls| - 1] == TempFile then Panic else Finished(err, calls)
  }

  /** When the certificate is issued but no temporary file can be created, the source
      crashes where the model reports an internal error. */
  lemma TempFileFailurePanics(c: Command, configFile: string, api: Api)
    requires !api.Fails(CreateCertificate(c.dnsPublicHost)) && !api.Fails(WaitCertificate)
    requires api.Fails(TempFile)
    ensures InstallInMasterAsWritten(c, configFile, api) == Panic
    ensures InstallInMaster(c, configFile, api).0
         == Some(InternalFrom("failure when creating temporary configuration file", api.failing[TempFile]))
  {
    MasterTempFileError(c, configFile, api);
  }

  lemma MasterTempFileError(c: Command, configFile: string, api: Api)
    requires !api.Fails(CreateCertificate(c.dnsPublicHost)) && !api.Fails(WaitCertificate)
    requires api.Fails(TempFile)
    ensures InstallInMaster(c, configFile, api).0
         == Some(InternalFrom("failure when creating temporary configuration file", api.failing[TempFile]))
  {
    var plan := MasterPlan(c, configFile);
    assert plan[..3] == [Action(CreateCertificate(c.dnsPublicHost), AsIs), Action(WaitCertificate, AsIs),
                         Action(TempFile, InternalWrap("failure when creating temporary configuration file"))];
    RunActionsStopsAt(plan, api, 2);
  }

  const GatewayKey: ObjKey := ObjKey(Gateway, IstioNamespace, "cluster-aware-gateway")

  /** `installGateway`: the cluster-aware gateway; its server specification is not modelled. */
  function InstallGateway(api: Api, s: State): (r: (State, Option<Error>))
    ensures r.1.None? <==> !api.Fails(Create(GatewayKey))
    ensures r.1.None? ==> r.0 == Put(s, NewObject(GatewayKey, map[], map[], None))
    ensures r.1.Some? ==> r.0 == s && r.1.value == InternalFrom("error generating error", api.failing[Create(GatewayKey)])
  {
    var (s1, err) := CreateObject(NewObject(GatewayKey, map[], map[], None), api, s);
    (s1, if err.Some? then Some(InternalFrom("error generating error", err.value)) else None)
  }

  // ---------------------------------------------------------------------------
  // Run

  /** What the command needs besides the cluster: the generated certificates, the
      ingress IPs of the master's gateway service and the temporary file's name. */
  datatype Inputs = Inputs(certs: Certificates, ingress: seq<string>, configFile: string)

  /** The install proper, after the secrets: remote or master, and for the master
      the gateway, whose own error is dropped. */
  function Install(c: Command, inputs: Inputs, api: Api, s: State): (r: Step)
    ensures c.isAppCluster ==>
      (r.err, r.calls) == InstallInSlave(c, inputs.ingress, api) && r.state == s
    ensures !c.isAppCluster ==>
      && r.err == InstallInMaster(c, inputs.configFile, api).0
      && r.calls == InstallInMaster(c, inputs.configFile, api).1 + [Create(GatewayKey)]
      && r.state == InstallGateway(api, s).0
  {
    if c.isAppCluster then
      var (err, calls) := InstallInSlave(c, inputs.ingress, api);
      Step(s, err, calls)
    else
      var (err, calls) := InstallInMaster(c, inputs.configFile, api);
      var (s1, _) := InstallGateway(api, s);
      Step(s1, err, calls + [Create(GatewayKey)])
  }

  function InstallFailure(err: Error): (o: RunOutcome)
    ensures o.result == Some(CommandResult(false, "impossible to install istio", Some(err)))
    ensures o.err == Some(err)
  {
    RunOutcome(Some(CommandResult(false, "impossible to install istio", Some(err))), Some(err))
  }

  /** Everything after the namespace: the secrets, then the install. */
  function AfterNamespace(c: Command, inputs: Inputs, api: Api, s: State): (e: Execution)
    // a secrets failure stops the command before anything is installed
    ensures RunActions(SecretsPlan, api).0.Some? ==>
      && e.outcome == Transport(InternalFrom("impossible to create Istio secrets", RunActions(SecretsPlan, api).0.value))
      && e.calls == RunActions(SecretsPlan, api).1 && e.state == s
    // otherwise the install runs once the CA secret is stored
    ensures RunActions(SecretsPlan, api).0.None? ==>
      var install := Install(c, inputs, api, Put(s, CaCertsSecret(inputs.certs)));
      && e.calls == ActionCalls(SecretsPlan) + install.calls
      && e.state == install.state
      && e.outcome == (if install.err.Some? then InstallFailure(install.err.value)
                       else Succeeded("istio has been installed successfully"))
  {
    var secrets := CreateSecrets(inputs.certs, api, s);
    if secrets.err.Some? then
      Execution(Transport(InternalFrom("impossible to create Istio secrets", secrets.err.value)), s, secrets.calls)
    else
      var install := Install(c, inputs, api, secrets.state);
      var outcome := if install.err.Some? then InstallFailure(install.err.value)
                     else Succeeded("istio has been installed successfully");
      Execution(outcome, install.state, secrets.calls + install.calls)
  }

  /** `Run`. */
  function Run(c: Command, inputs: Inputs, api: Api, s: State): (e: Execution)
    ensures api.Fails(Connect) ==> e == Execution(Transport(api.failing[Connect]), s, [Connect])
    ensures !api.Fails(Connect) && api.Fails(CreateNamespace(IstioNamespace)) ==>
      && e.outcome == Transport(InternalFrom("impossible to create namespace for istio",
                                             api.failing[CreateNamespace(IstioNamespace)]))
      && e.calls == [Connect, CreateNamespace(IstioNamespace)] && e.state == s
    ensures !api.Fails(Connect) && !api.Fails(CreateNamespace(IstioNamespace)) ==>
      var rest := AfterNamespace(c, inputs, api, s.(namespaces := s.namespaces + {IstioNamespace}));
      && e.calls == [Connect, CreateNamespace(IstioNamespace)] + rest.calls
      && e.outcome == rest.outcome && e.state == rest.state
  {
    if api.Fails(Connect) then Execution(Transport(api.failing[Connect]), s, [Connect])
    else if api.Fails(CreateNamespace(IstioNamespace)) then
      Execution(Transport(InternalFrom("impossible to create namespace for istio", api.failing[CreateNamespace(IstioNamespace)])),
        s, [Connect, CreateNamespace(IstioNamespace)])
    else
      var before := [Connect, CreateNamespace(IstioNamespace)];
      var rest := AfterNamespace(c, inputs, api, s.(namespaces := s.namespaces + {IstioNamespace}));
      Execution(rest.outcome, rest.state, before + rest.calls)
  }

  /** Every run ends in one of three ways: success, a transport error, or an install
      failure reported both as a failed result and as the error. */
  lemma RunOutcomes(c: Command, inputs: Inputs, api: Api, s: State)
    ensures Outcome(Run(c, inputs, api, s).outcome)
  {
    if !api.Fails(Connect) && !api.Fails(CreateNamespace(IstioNamespace)) {
      AfterNamespaceOutcomes(c, inputs, api, s.(namespaces := s.namespaces + {IstioNamespace}));
    }
  }

  lemma AfterNamespaceOutcomes(c: Command, inputs: Inputs, api: Api, s: State)
    ensures Outcome(AfterNamespace(c, inputs, api, s).outcome)
  {
    var secrets := CreateSecrets(inputs.certs, api, s);
    if secrets.err.None? {
      var install := Install(c, inputs, api, secrets.state);
      if install.err.Some? {
        assert Outcome(InstallFailure(install.err.value));
      }
    }
  }

  predicate Outcome(o: RunOutcome) {
    && (o.IsSuccess() || o.IsTransportError() || (o.result.Some? && o.err.Some? && o == InstallFailure(o.err.value)))
    && (o.IsSuccess() ==> o.result.value.output == "istio has been installed successfully")
  }

  /** The secrets step neither installs the mesh nor creates the gateway. */
  lemma SecretsCallsNoIstioctl(api: Api)
    ensures forall x | x in RunActions(SecretsPlan, api).1 :: !x.Istioctl? && x != Create(GatewayKey)
  {
    AttemptedWithin(ActionCalls(SecretsPlan), api.failing.Keys);
    assert ActionCalls(SecretsPlan) == [GenerateRootCA, GenerateClusterCA, Connect, Create(CaCertsKey)];
  }

  /** A run whose secrets fail never reaches istioctl nor the gateway. */
  lemma SecretsFailureStopsInstall(c: Command, inputs: Inputs, api: Api, s: State)
    requires !AllSucceed(ActionCalls(SecretsPlan), api.failing.Keys)
    ensures forall x | x in Run(c, inputs, api, s).calls :: !x.Istioctl? && x != Create(GatewayKey)
  {
    SecretsCallsNoIstioctl(api);
    if !api.Fails(Connect) && !api.Fails(CreateNamespace(IstioNamespace)) {
      var rest := AfterNamespace(c, inputs, api, s.(namespaces := s.namespaces + {IstioNamespace}));
      assert rest.calls == RunActions(SecretsPlan, api).1;
    }
  }

  /** Only a master cluster gets the cluster-aware gateway. */
  lemma GatewayOnlyOnMaster(c: Command, inputs: Inputs, api: Api, s: State)
    requires c.isAppCluster
    ensures Create(GatewayKey) !in Run(c, inputs, api, s).calls
  {
    if !api.Fails(Connect) && !api.Fails(CreateNamespace(IstioNamespace)) {
      AfterNamespaceNoGateway(c, inputs, api, s.(namespaces := s.namespaces + {IstioNamespace}));
    }
  }

  lemma AfterNamespaceNoGateway(c: Command, inputs: Inputs, api: Api, s: State)
    requires c.isAppCluster
    ensures Create(GatewayKey) !in AfterNamespace(c, inputs, api, s).calls
  {
    var secrets := CreateSecrets(inputs.certs, api, s);
    SecretsCallsNoIstioctl(api);
    if secrets.err.None? {
      SlaveCallsNoGateway(c, inputs.ingress, api);
      assert Create(GatewayKey) !in Install(c, inputs, api, secrets.state).calls;
    }
  }

  /** Two oracles that agree on every call of a plan give the same run of it. */
  lemma {:induction false} RunActionsAgree(plan: seq<Action>, api: Api, api': Api)
    requires forall j | 0 <= j < |plan| :: api.Fails(plan[j].call) <==> api'.Fails(plan[j].call)
    requires forall j | 0 <= j < |plan| && api.Fails(plan[j].call) && api'.Fails(plan[j].call) ::
      api.failing[plan[j].call] == api'.failing[plan[j].call]
    ensures RunActions(plan, api) == RunActions(plan, api')
  {
    if plan != [] && !api.Fails(plan[0].call) {
      RunActionsAgree(plan[1..], api, api');
    }
  }

  lemma SlaveCallsNoGateway(c: Command, ingress: seq<string>, api: Api)
    ensures Create(GatewayKey) !in InstallInSlave(c, ingress, api).1
  {
    LookupCallsNoIstioctl(api);
  }

  /** A plan that does not make `call` runs the same whether or not `call` would fail. */
  lemma RunActionsIgnores(plan: seq<Action>, api: Api, call: Call)
    requires call !in ActionCalls(plan)
    ensures RunActions(plan, api) == RunActions(plan, Api(api.failing - {call}))
  {
    assert forall j | 0 <= j < |plan| :: plan[j].call == ActionCalls(plan)[j];
    RunActionsAgree(plan, api, Api(api.failing - {call}));
  }

  /** Whether the gateway could be created never changes `Run`'s outcome. */
  lemma GatewayErrorIgnored(c: Command, inputs: Inputs, api: Api, s: State)
    ensures Run(c, inputs, api, s).outcome == Run(c, inputs, Api(api.failing - {Create(GatewayKey)}), s).outcome
  {
    if !api.Fails(Connect) && !api.Fails(CreateNamespace(IstioNamespace)) {
      AfterNamespaceIgnoresGateway(c, inputs, api, s.(namespaces := s.namespaces + {IstioNamespace}));
    }
  }

  lemma AfterNamespaceIgnoresGateway(c: Command, inputs: Inputs, api: Api, s: State)
    ensures AfterNamespace(c, inputs, api, s).outcome
         == AfterNamespace(c, inputs, Api(api.failing - {Create(GatewayKey)}), s).outcome
  {
    SecretsIgnoreGateway(inputs.certs, api, s);
    var secrets := CreateSecrets(inputs.certs, api, s);
    if secrets.err.None? {
      InstallErrorIgnoresGateway(c, inputs, api, secrets.state);
    }
  }

  lemma SecretsIgnoreGateway(certs: Certificates, api: Api, s: State)
    ensures CreateSecrets(certs, api, s) == CreateSecrets(certs, Api(api.failing - {Create(GatewayKey)}), s)
  {
    assert ActionCalls(SecretsPlan) == [GenerateRootCA, GenerateClusterCA, Connect, Create(CaCertsKey)];
    RunActionsIgnores(SecretsPlan, api, Create(GatewayKey));
  }

  lemma InstallErrorIgnoresGateway(c: Command, inputs: Inputs, api: Api, s: State)
    ensures Install(c, inputs, api, s).err == Install(c, inputs, Api(api.failing - {Create(GatewayKey)}), s).err
  {
    if c.isAppCluster {
      SlaveIgnoresGateway(c, inputs.ingress, api);
    } else {
      MasterIgnoresGateway(c, inputs.configFile, api);
    }
  }

  lemma SlaveIgnoresGateway(c: Command, ingress: seq<string>, api: Api)
    ensures InstallInSlave(c, ingress, api) == InstallInSlave(c, ingress, Api(api.failing - {Create(GatewayKey)}))
  {
    var api' := Api(api.failing - {Create(GatewayKey)});
    assert ActionCalls(LookupPlan) == [InClusterConfig, NewLocalClient, GetGatewayService];
    RunActionsIgnores(LookupPlan, api, Create(GatewayKey));
    if ingress != [] && ingress[0] != "" {
      var install := Istioctl(IstioctlBinary(c), RemoteMesh(c, ingress[0]));
      assert api.Fails(install) <==> api'.Fails(install);
    }
  }

  lemma MasterIgnoresGateway(c: Command, configFile: string, api: Api)
    ensures InstallInMaster(c, configFile, api) == InstallInMaster(c, configFile, Api(api.failing - {Create(GatewayKey)}))
  {
    RunActionsIgnores(MasterPlan(c, configFile), api, Create(GatewayKey));
  }

  const Name: string := "SYNC InstallIstio"

  /** `PrettyPrint(indentation)`: the indented command name. */
  function PrettyPrint(indentation: nat): (r: string)
    ensures StripIndent(r) == (indentation, Name)
  {
    IndentRoundTrip(indentation, Name);
    Indent(indentation, Name)
  }
}
