/** The InstallVpnServerLB command: it creates the VPN server's service, as a load
    balancer on the cloud and bare-metal platforms and as the Minikube variant on
    Minikube. */
module VpnServer {
  import opened Base
  import opened Cluster
  import opened Strings

  /** The string forms of the platform enumeration's members. */
  const Azure: string := "AZURE"
  const BareMetal: string := "BAREMETAL"
  const Minikube: string := "MINIKUBE"

  datatype Command = Command(header: Header, kubeConfigPath: string, platformType: string)

  function New(kubeConfigPath: string, platformType: string): (c: Command)
    ensures c.header == NewSyncHeader(InstallZtPlanetLB)
    ensures c.kubeConfigPath == kubeConfigPath && c.platformType == platformType
  {
    Command(NewSyncHeader(InstallZtPlanetLB), kubeConfigPath, platformType)
  }

  /** `NewInstallVpnServerLBFromJSON`. */
  function FromJSON(decoded: Option<Command>): (r: Result<Command>)
    ensures r.Err? <==> decoded.None?
    ensures r.Err? ==> r.error == UnmarshalFailure
    ensures r.Ok? ==> r.value.header.id == GenerateCommandId(decoded.value.header.name)
    ensures r.Ok? ==> r.value.(header := decoded.value.header) == decoded.value
  {
    match decoded
    case None => Err(UnmarshalFailure)
    case Some(c) => Ok(c.(header := IdentifyDecoded(c.header)))
  }

  /** The two service definitions; they are declared in a file that is not part of this model. */
  datatype Services = Services(loadBalancer: Object, minikube: Object)

  /** Which installer a platform gets. */
  datatype Installer = LoadBalancer | MinikubeService | NoInstaller

  function Dispatch(platform: string): (i: Installer)
    ensures i == LoadBalancer <==> platform == Azure || platform == BareMetal
    ensures i == MinikubeService <==> platform == Minikube
  {
    if platform == Azure || platform == BareMetal then LoadBalancer
    else if platform == Minikube then MinikubeService
    else NoInstaller
  }

  /** `InstallLoadBalancer` and `InstallMinikube`: create the service; a rejection is
      a semantic failure, never a transport error. */
  function Install(svc: Object, successMsg: string, api: Api, s: State): (e: Execution)
    ensures e.calls == [Create(svc.key)]
    ensures e.outcome.IsSuccess() <==> !api.Fails(Create(svc.key))
    ensures e.outcome.IsSuccess() ==> e.outcome.result.value.output == successMsg && e.state == Put(s, svc)
    ensures !e.outcome.IsSuccess() ==>
      && e.outcome == Failed("cannot install service", Some(api.failing[Create(svc.key)]))
      && e.state == s
  {
    var (s1, err) := CreateObject(svc, api, s);
    var outcome := if err.Some? then Failed("cannot install service", err) else Succeeded(successMsg);
    Execution(outcome, s1, [Create(svc.key)])
  }

  /** After connecting, `e` is the creation of `svc`: it succeeds exactly when the
      creation is accepted, storing the service, and otherwise reports the rejection
      as its cause and leaves the cluster alone. */
  predicate Installs(e: Execution, svc: Object, api: Api, s: State) {
    && e.calls == [Connect, Create(svc.key)]
    && (e.outcome.IsSuccess() <==> !api.Fails(Create(svc.key)))
    && (e.outcome.IsSuccess() ==> e.state == Put(s, svc))
    && (!e.outcome.IsSuccess() ==>
          && e.outcome == Failed("cannot install service", Some(api.failing[Create(svc.key)]))
          && e.state == s)
  }

  /** `Run`: connect, then dispatch on the platform. */
  function Run(c: Command, services: Services, api: Api, s: State): (e: Execution)
    ensures api.Fails(Connect) ==> e == Execution(Transport(api.failing[Connect]), s, [Connect])
    // only a connection failure is a transport error
    ensures e.outcome.IsTransportError() <==> api.Fails(Connect)
    ensures !api.Fails(Connect) ==> e.outcome.IsSuccess() || e.outcome.IsSemanticFailure()
    ensures !api.Fails(Connect) && Dispatch(c.platformType) == LoadBalancer ==>
      Installs(e, services.loadBalancer, api, s)
    ensures !api.Fails(Connect) && Dispatch(c.platformType) == MinikubeService ==>
      Installs(e, services.minikube, api, s)
    // an unknown platform creates nothing
    ensures !api.Fails(Connect) && Dispatch(c.platformType) == NoInstaller ==>
      e == Execution(Failed("unsupported platform type", None), s, [Connect])
    ensures e.outcome.IsSuccess() && Dispatch(c.platformType) == LoadBalancer ==>
      e.outcome.result.value.output == "VPN Server installed on " + c.platformType
    ensures e.outcome.IsSuccess() && Dispatch(c.platformType) == MinikubeService ==>
      e.outcome.result.value.output == "VPN Server installed on Minikube"
  {
    if api.Fails(Connect) then Execution(Transport(api.failing[Connect]), s, [Connect])
    else
      match Dispatch(c.platformType)
      case LoadBalancer =>
        var e := Install(services.loadBalancer, "VPN Server installed on " + c.platformType, api, s);
        e.(calls := [Connect] + e.calls)
      case MinikubeService =>
        var e := Install(services.minikube, "VPN Server installed on Minikube", api, s);
        e.(calls := [Connect] + e.calls)
      case NoInstaller => Execution(Failed("unsupported platform type", None), s, [Connect])
  }

  /** Azure and bare metal are installed identically but for the success message. */
  lemma AzureLikeBareMetal(c: Command, services: Services, api: Api, s: State)
    requires c.platformType == Azure
    ensures var e1, e2 := Run(c, services, api, s), Run(c.(platformType := BareMetal), services, api, s);
      && e1.state == e2.state && e1.calls == e2.calls
      && e1.outcome.IsSuccess() == e2.outcome.IsSuccess()
  {
  }

  const StringPrefix: string := "SYNC InstallVpnServerLB on "

  /** `String()`: names the platform. */
  function String(c: Command): (r: string)
    ensures |r| == |StringPrefix| + |c.platformType| && r[|StringPrefix|..] == c.platformType
  {
    StringPrefix + c.platformType
  }

  /** `PrettyPrint(indentation)`. */
  function PrettyPrint(c: Command, indentation: nat): (r: string)
    ensures StripIndent(r) == (indentation, String(c))
  {
    IndentRoundTrip(indentation, String(c));
    Indent(indentation, String(c))
  }
}
