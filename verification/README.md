# Nalej installer commands, modelled in Dafny

The Nalej installer turns an install request into a workflow of commands. Every
command offers `Run(workflowID)`, and that call ends in one of three ways:

- a **transport error**: no result and an error, because the effect could not even be attempted;
- a **failed result**: `Success = false` with a message and an optional cause;
- a **successful result**, with its output.

This project models the commands that install the platform's core on a
Kubernetes cluster, together with the checks and rendering rules around them:

- `LaunchComponents` launches the component files of a directory;
- `CreateManagementConfig` writes the management cluster's config map and secrets;
- `CreateRegistrySecrets` publishes registry credentials;
- `InstallVpnServerLB` creates the VPN server's service for each platform;
- `InstallIstio` covers the namespace, the CA secret, the remote or master mesh install and the gateway;
- the CLI's parameter check and working-directory check;
- the `Try` fallback combinator, as its tests exercise it, with the paths no test reaches stated as assumptions;
- the RKE cluster template's rule for node entries.

The cluster is an immutable `Cluster.State` holding a set of namespaces and a map
from (kind, namespace, name) to objects. Every external call is a `Cluster.Call`,
including connecting, creating, listing namespaces, running `istioctl` and creating
a temporary file. Whether a call fails, and with which error, comes from an oracle,
`Cluster.Api(failing)`: a call fails exactly when it is a key of `failing`. Each
command's `Run` is a pure function of the command's fields, the oracle and the
prior state. It returns the outcome (`Base.RunOutcome`), the new state and the
external calls it attempted, in order.

The fail-fast rule all these commands share has one independent reference,
`Cluster.Attempted(plan, failing)`: the plan up to and including its first
failing step. The calls of `ManagementConfig.Run`, of Istio's secret steps
(`Istio.RunActions`, `Istio.CreateSecrets`) and master install (`Istio.InstallInMaster`),
and the component files `Launch.Run` attempts are proved equal to this reference
applied to their own plan. That is how "later steps are not attempted" is stated
there. The other runs state their call lists clause by clause.

Modules, one per file: `Base` (errors, results, command headers), `Strings`
(indentation, split/join/replace-all, decimal numbers), `Cluster` (state, calls,
oracle, fail-fast reference), `Launch`, `ManagementConfig`, `RegistrySecrets`,
`VpnServer`, `Istio`, `Cli`, `Fallback` (the Try command) and `Rke`.

## Model

| member | source | states |
|---|---|---|
| Cluster.Attempted | internal/pkg/workflow/commands/sync/k8s/create_management_config.go:139-159 | The fail-fast reference: the calls made are a prefix of the plan, every call before the last succeeded, a shorter prefix ends in a failing call, and an all-succeeding plan is made in full. |
| Cluster.CreateInOrder | internal/pkg/workflow/commands/sync/k8s/create_management_config.go:144-159 | Creating objects one after another stops at the first rejected creation, reports success exactly when every creation in the plan succeeds, and leaves the namespaces alone. |
| Cluster.CreateInOrderReportsCause | internal/pkg/workflow/commands/sync/k8s/create_management_config.go:144-159 | A failure names the last creation attempted: the error is that creation's rejection wrapped in its own message. |
| Cluster.CreateInOrderEffect | internal/pkg/workflow/commands/sync/k8s/create_management_config.go:144-159 | The objects added are exactly those whose creation was attempted and accepted; nothing else in the cluster changes. |
| Cluster.CreateInOrderStoresAll | internal/pkg/workflow/commands/sync/k8s/create_management_config.go:144-159 | When every creation succeeds and the keys are distinct, every object ends up in the cluster exactly as built. |
| Cluster.EnsureNamespaceExists | internal/pkg/workflow/commands/sync/k8s/create_management_config.go:139-142 | Ensuring a namespace either adds it and nothing else, or fails with the oracle's error and leaves the cluster unchanged. |
| Strings.IndentRoundTrip | internal/pkg/workflow/commands/sync/k8s/create_management_config.go:168-170 | `indentation` spaces in front of a line that does not start with a space can be stripped off again, giving back the count and the line. |
| Strings.ReplaceAllIsSplitJoin | internal/pkg/workflow/commands/sync/istio/install_istio.go:523 | Replacing every occurrence of a pattern is the same as splitting on the pattern and joining the pieces with the replacement. |
| Strings.JoinSplit | internal/pkg/workflow/commands/sync/istio/install_istio.go:523 | Joining the pieces of a split with the separator gives back the original text. |
| Strings.SplitPiecesFree | internal/pkg/workflow/commands/sync/istio/install_istio.go:523 | No piece of a split contains the separator. |
| Strings.SplitJoin | internal/pkg/workflow/commands/sync/k8s/launch.go:358-366 | Splitting on a one-character separator gives back pieces that were joined with it, provided no piece held the separator. |
| Strings.ParseNatToString | internal/pkg/workflow/commands/sync/k8s/launch.go:118 | The decimal rendering of a count reads back as the same count. |
| Launch.New | internal/pkg/workflow/commands/sync/k8s/launch.go:60-70 | The constructor keeps every field it is given and leaves the target environment empty. |
| Launch.FromJSON | internal/pkg/workflow/commands/sync/k8s/launch.go:73-81 | Decoding fails only when the JSON does not decode; otherwise the decoded command is kept and its identifier is derived from its name. |
| Launch.PullSecrets | internal/pkg/workflow/commands/sync/k8s/launch.go:45-47 | Production gets only the production registry, staging gets production and staging, and development gets all three, in that order. |
| Launch.PullSecretsNested | internal/pkg/workflow/commands/sync/k8s/launch.go:45-47 | A more permissive environment's secrets extend a stricter one's, and two environments get the same secrets only when they are the same environment. |
| Launch.AdaptDeployment | internal/pkg/workflow/commands/sync/k8s/launch.go:139-150 | A deployment gets its environment's pull secrets, and every other field is unchanged. |
| Launch.WithPlatformStorage | internal/pkg/workflow/commands/sync/k8s/launch.go:284-319 | On AZURE a volume or volume claim gets the storage class "managed-premium"; on any other platform it is left as it was. Only the storage class can change. |
| Launch.Prepared | internal/pkg/workflow/commands/sync/k8s/launch.go:172-208 | A deployment is adapted to the environment, a volume to the platform, and every other kind is sent as decoded. |
| Launch.CreateFailure | internal/pkg/workflow/commands/sync/k8s/launch.go:214-352 | A rejected creation is wrapped in its kind's message when the launch helper adds one, and otherwise passed on unchanged. |
| Launch.ComponentError | internal/pkg/workflow/commands/sync/k8s/launch.go:153-211 | An unreadable file fails with the read error wrapped in "cannot read component file". Content that does not decode, or decodes to an unsupported kind, fails as an unsupported object. A rejected creation fails with that kind's creation error. A component launches exactly when it decodes to a supported kind whose creation is accepted. |
| Launch.LaunchComponent | internal/pkg/workflow/commands/sync/k8s/launch.go:153-211 | A component launch either fails and leaves the cluster untouched, or the file held a supported object and the prepared object is now in the cluster. |
| Launch.LaunchComponentAsWritten | internal/pkg/workflow/commands/sync/k8s/launch.go:165-170 | As written, the launch crashes exactly on content the decoder rejects, and on every other file behaves as the corrected launch does. |
| Launch.UndecodableComponentPanics | internal/pkg/workflow/commands/sync/k8s/launch.go:205-207 | A file that does not decode crashes the launch as written, while the corrected launch reports it as an unsupported object and leaves the cluster alone. |
| Launch.ListComponents | internal/pkg/workflow/commands/sync/k8s/launch.go:124-136 | Every listed name ends in ".yaml" and comes from the directory. |
| Launch.ListComponentsContents | internal/pkg/workflow/commands/sync/k8s/launch.go:124-136 | Every ".yaml" name is listed as often as the directory holds it, and no other name is listed. |
| Launch.ListComponentsAppend | internal/pkg/workflow/commands/sync/k8s/launch.go:124-136 | The listing keeps the directory's order: listing two parts of a directory back to back is listing the whole. |
| Launch.LaunchFiles | internal/pkg/workflow/commands/sync/k8s/launch.go:107-117 | Only ".yaml" files are launched, in listing order, up to and including the first failure. With no failure, the count is the number of ".yaml" files. Otherwise the error is that of the last launched file. Namespaces are untouched. |
| Launch.LaunchFilesStores | internal/pkg/workflow/commands/sync/k8s/launch.go:107-117 | The cluster after the loop is every file launched before the failing one, if any, stored in order. With no failure, the count is the number of files attempted. |
| Launch.StoreLaunchedEffect | internal/pkg/workflow/commands/sync/k8s/launch.go:107-117 | Storing launched files leaves the namespaces alone, adds exactly the keys of the decoded files, and keeps every other object as it was. |
| Launch.StoreLaunchedAppend | internal/pkg/workflow/commands/sync/k8s/launch.go:107-117 | Storing one list of launched files and then another is storing the two back to back. |
| Launch.LaunchListed | internal/pkg/workflow/commands/sync/k8s/launch.go:107-119 | Once the directory is listed, the run succeeds exactly when every ".yaml" file launches. A failure is the failed result "cannot launch component" carrying the last launched file's error, and keeps what the files before it stored. Success stores every listed file and reports their count. |
| Launch.CreateNamespaceIfAbsent | internal/pkg/workflow/commands/sync/k8s/launch.go:250-281 | A failed listing is reported wrapped. A listed name succeeds without a create. Otherwise the name is created. A success leaves exactly one more namespace, a failure leaves the cluster as it was, and objects never change. |
| Launch.CreateNamespaceIdempotent | internal/pkg/workflow/commands/sync/k8s/launch.go:257-280 | Ensuring a namespace that has just been ensured changes nothing. |
| Launch.EnsureNamespaces | internal/pkg/workflow/commands/sync/k8s/launch.go:96-101 | Namespaces are ensured in list order. Every one before the stopping point succeeded. The error is that of the namespace where the loop stopped. Only the completed namespaces have been added. |
| Launch.Run | internal/pkg/workflow/commands/sync/k8s/launch.go:84-120 | Listed below, one bullet per clause. |
| Launch.ReportsCount | internal/pkg/workflow/commands/sync/k8s/launch.go:118-119 | The success message starts with decimal digits that read back as the number of ".yaml" files. |
| Launch.NewNeedsEnvironment | internal/pkg/workflow/commands/sync/k8s/launch.go:91-94 | A command built by the constructor has no environment, so its run stops with an invalid-argument error unless the table has an entry for the empty name. |
| Launch.String | internal/pkg/workflow/commands/sync/k8s/launch.go:354-356 | The rendering ends with the components directory, after a fixed prefix. |
| Launch.Lines | internal/pkg/workflow/commands/sync/k8s/launch.go:358-366 | The intended lines are the indented command line, then each component indented four spaces deeper. |
| Launch.PrettyPrint | internal/pkg/workflow/commands/sync/k8s/launch.go:358-366 | The rendering is those lines joined by newlines, over the ".yaml" listing of the directory. |
| Launch.PrettyPrintLines | internal/pkg/workflow/commands/sync/k8s/launch.go:358-366 | When no name holds a newline, splitting the rendering on newlines gives back exactly the command line and one line per component. |
| Launch.UserString | internal/pkg/workflow/commands/sync/k8s/launch.go:368-370 | The rendering names the components directory and ends with the environment. |
| ManagementConfig.New | internal/pkg/workflow/commands/sync/k8s/create_management_config.go:30-44 | The constructor keeps every field and carries the CreateManagementConfig discriminant. |
| ManagementConfig.ConfigMapObject | internal/pkg/workflow/commands/sync/k8s/create_management_config.go:56-70 | The config map is "management-config" in "nalej", labelled cluster=management, with data exactly public_host and public_port holding the command's fields. |
| ManagementConfig.DockerSecretObject | internal/pkg/workflow/commands/sync/k8s/create_management_config.go:82-98 | The secret is "docker-credentials" in "nalej", opaque, labelled cluster=management, with data exactly username and password holding the docker credentials. |
| ManagementConfig.AuthxSecretObject | internal/pkg/workflow/commands/sync/k8s/create_management_config.go:108-123 | The secret is "authx-secret" in "nalej", opaque, labelled for the management cluster and the authx component, with the token as its only data. |
| ManagementConfig.Creations | internal/pkg/workflow/commands/sync/k8s/create_management_config.go:144-159 | The three objects come in the order config map, docker secret, authx secret, with distinct keys, each with the message a rejection of it is wrapped in. |
| ManagementConfig.InstallObjectsReportsCause | internal/pkg/workflow/commands/sync/k8s/create_management_config.go:139-159 | A rejected namespace fails with "cannot create namespace" and its cause, and changes nothing. A rejected object is the last call, and the run fails with "cannot create management config" wrapping the rejection in that object's message. |
| ManagementConfig.Install | internal/pkg/workflow/commands/sync/k8s/create_management_config.go:139-161 | After connecting, the namespace and the three objects are attempted in order up to the first failure. Success means all succeeded. A rejected namespace fails with "cannot create namespace" and its cause. A rejected object fails with "cannot create management config", wrapping the rejection in "cannot create configmap", "cannot create docker secret" or "cannot create authx secret". |
| ManagementConfig.Run | internal/pkg/workflow/commands/sync/k8s/create_management_config.go:133-162 | A connect failure is the only transport error, and then nothing is created. Steps follow the fail-fast reference over connect, namespace, config map, docker secret, authx secret. A rejected namespace fails with "cannot create namespace" and its cause, leaving the cluster unchanged. A rejected object is the last call and fails with "cannot create management config", wrapping the rejection in that object's own message. Success means every step succeeded, with the documented message. |
| ManagementConfig.RunCreatesExactly | internal/pkg/workflow/commands/sync/k8s/create_management_config.go:133-162 | A run adds exactly the objects whose creation it attempted successfully and nothing else. |
| ManagementConfig.RunStoresObjects | internal/pkg/workflow/commands/sync/k8s/create_management_config.go:133-162 | After a successful run, "nalej" exists and all three objects are stored exactly as built. |
| ManagementConfig.String | internal/pkg/workflow/commands/sync/k8s/create_management_config.go:164-166 | The rendering starts with "SYNC CreateManagementConfig publicHost: ", embeds the public host right after it and ends with the public port. |
| ManagementConfig.PrettyPrint | internal/pkg/workflow/commands/sync/k8s/create_management_config.go:168-170 | Stripping the leading spaces gives back the indentation and the `String()` line. |
| ManagementConfig.UserString | internal/pkg/workflow/commands/sync/k8s/create_management_config.go:172-174 | The rendering ends with host:port. |
| RegistrySecrets.New | internal/pkg/workflow/commands/sync/k8s/create_registry_secrets.go:45-60 | The constructor keeps every field and carries the CreateManagementConfig discriminant. |
| RegistrySecrets.NewSharesManagementConfigHeader | internal/pkg/workflow/commands/sync/k8s/create_registry_secrets.go:51 | A freshly built command's header is identical to a CreateManagementConfig command's. |
| RegistrySecrets.FromJSON | internal/pkg/workflow/commands/sync/k8s/create_registry_secrets.go:62-70 | Decoding fails only on undecodable JSON; the identifier is derived from the decoded name. |
| RegistrySecrets.EnvironmentSecret | internal/pkg/workflow/commands/sync/k8s/create_registry_secrets.go:74-92 | The secret is "credentials-" + the credentials name in "nalej", opaque, with data exactly credentials_name, username, password and url holding the fields. |
| RegistrySecrets.DockerSecretsErrorAsWritten | internal/pkg/workflow/commands/sync/k8s/create_registry_secrets.go:100-115 | As written, the inner run's error is returned, or for a failed result its optional cause, so a failure without a cause gives no error. |
| RegistrySecrets.FailureWithoutErrorPasses | internal/pkg/workflow/commands/sync/k8s/create_registry_secrets.go:110-112 | A failed inner result without a cause yields no error as written, but is rejected by the corrected fold. |
| RegistrySecrets.DockerSecrets | internal/pkg/workflow/commands/sync/k8s/create_registry_secrets.go:100-115 | The inner run passes exactly when it had no transport error and its result succeeded; a rejection carries the cause the source returns. |
| RegistrySecrets.DockerSecretsAgree | internal/pkg/workflow/commands/sync/k8s/create_registry_secrets.go:100-115 | The source and the corrected fold agree except on a failed inner result that has no cause. |
| RegistrySecrets.AfterEnvironmentSecret | internal/pkg/workflow/commands/sync/k8s/create_registry_secrets.go:123-133 | The cluster once "nalej" exists and the environment secret is stored: that secret is put under its key exactly when the management cluster or the public registry asks for it, and otherwise no object changes. |
| RegistrySecrets.Run | internal/pkg/workflow/commands/sync/k8s/create_registry_secrets.go:117-141 | Listed below, one bullet per clause. |
| RegistrySecrets.RunStoresSecret | internal/pkg/workflow/commands/sync/k8s/create_registry_secrets.go:123-133 | After a successful run, "nalej" exists and the docker registry secret the inner run created is stored. The environment secret is stored when it was wanted, unless the docker secret has the same key. The keys are the old keys plus the docker secret's and, when wanted, the environment secret's. Every other object is unchanged. |
| RegistrySecrets.String | internal/pkg/workflow/commands/sync/k8s/create_registry_secrets.go:143-145 | The rendering names the credentials right after its prefix and ends with " environment". |
| RegistrySecrets.PrettyPrint | internal/pkg/workflow/commands/sync/k8s/create_registry_secrets.go:147-149 | Stripping the leading spaces gives back the indentation and the `String()` line. |
| RegistrySecrets.UserString | internal/pkg/workflow/commands/sync/k8s/create_registry_secrets.go:151-153 | The rendering names the credentials after its fixed prefix. |
| VpnServer.New | internal/pkg/workflow/commands/sync/k8s/ingress/installvpnserver.go:24-32 | The constructor keeps its fields and carries the InstallZtPlanetLB discriminant. |
| VpnServer.FromJSON | internal/pkg/workflow/commands/sync/k8s/ingress/installvpnserver.go:34-42 | Decoding fails only on undecodable JSON; the identifier is derived from the decoded name. |
| VpnServer.Dispatch | internal/pkg/workflow/commands/sync/k8s/ingress/installvpnserver.go:50-58 | AZURE and BAREMETAL go to the load-balancer installer, MINIKUBE to the Minikube one, and any other string to neither. Both directions are stated. |
| VpnServer.Install | internal/pkg/workflow/commands/sync/k8s/ingress/installvpnserver.go:64-84 | Creating the service either succeeds with the message and stores the service, or fails with "cannot install service" and the rejection's cause, never as a transport error, and leaves the cluster unchanged. |
| VpnServer.Run | internal/pkg/workflow/commands/sync/k8s/ingress/installvpnserver.go:44-62 | Listed below, one bullet per clause. |
| VpnServer.AzureLikeBareMetal | internal/pkg/workflow/commands/sync/k8s/ingress/installvpnserver.go:51-55 | AZURE and BAREMETAL make the same calls, leave the same cluster and succeed alike. |
| VpnServer.String | internal/pkg/workflow/commands/sync/k8s/ingress/installvpnserver.go:86-88 | The rendering ends with the platform type after a fixed prefix. |
| VpnServer.PrettyPrint | internal/pkg/workflow/commands/sync/k8s/ingress/installvpnserver.go:90-92 | Stripping the leading spaces gives back the indentation and the `String()` line. |
| Istio.New | internal/pkg/workflow/commands/sync/istio/install_istio.go:151-180 | The constructor yields a command exactly when both clients can be built. The command keeps every field and carries the AddClusterUser discriminant. |
| Istio.FromJSON | internal/pkg/workflow/commands/sync/istio/install_istio.go:183-206 | Decoding succeeds only when the JSON decodes and both the kubeconfig and the client can be built. Each failure yields its own internal error. |
| Istio.RunActions | internal/pkg/workflow/commands/sync/istio/install_istio.go:318-374 | A fixed sequence of steps is attempted up to its first failure. It reports no error exactly when every step succeeds; otherwise the last call made is a failing one. |
| Istio.RunActionsStopsAt | internal/pkg/workflow/commands/sync/istio/install_istio.go:518-584 | When step k is the first failing one, the steps up to k are made and the error is step k's, wrapped as that step wraps it. |
| Istio.CaCertsSecret | internal/pkg/workflow/commands/sync/istio/install_istio.go:335-358 | The secret is "cacerts" in "istio-system" with exactly four entries, and the certificate chain is the CA certificate followed by the root certificate. |
| Istio.CreateSecrets | internal/pkg/workflow/commands/sync/istio/install_istio.go:318-374 | Root CA, cluster CA, connect and create are attempted up to the first failure. On success the secret is stored; on failure the cluster is unchanged. |
| Istio.SetFlags | internal/pkg/workflow/commands/sync/istio/install_istio.go:627-642 | Each setting becomes a "--set" flag followed by its key=value, in order. |
| Istio.RemoteValues | internal/pkg/workflow/commands/sync/istio/install_istio.go:631-642 | The remote install sets twelve values. `values.security.selfSigned` is "false". The remote pilot, policy and telemetry addresses are the gateway IP. The gateway's `ISTIO_META_NETWORK` and `values.global.network` are the cluster identifier. The other six are switched on. |
| Istio.MasterValues | internal/pkg/workflow/commands/sync/istio/install_istio.go:554-558 | The master install switches three values on, sets `values.global.k8sIngress.gatewayName` to "ingressgateway", and sets the ingress gateway's `loadBalancerIP` to the static address. |
| Istio.Lookup | internal/pkg/workflow/commands/sync/istio/install_istio.go:631-642 | Reading a key gives nothing exactly when no setting has that key, and otherwise a value that some setting gives the key. |
| Istio.LookupAt | internal/pkg/workflow/commands/sync/istio/install_istio.go:631-642 | When no key is set twice, every setting is what its key reads back as. |
| Istio.MasterValuesByKey | internal/pkg/workflow/commands/sync/istio/install_istio.go:554-558 | Read by key, the master settings turn SDS, ingress and HTTPS ingress on, name the gateway "ingressgateway" and give it the static IP. No key is set twice. |
| Istio.RemoteKeysDistinct | internal/pkg/workflow/commands/sync/istio/install_istio.go:631-642 | No key of the remote install is set twice, so the order of the flags does not matter. |
| Istio.RemoteControlPlaneByKey | internal/pkg/workflow/commands/sync/istio/install_istio.go:637-639 | Read by key, the remote pilot, policy and telemetry addresses are the master's gateway IP. |
| Istio.RemoteNetworkByKey | internal/pkg/workflow/commands/sync/istio/install_istio.go:640-641 | Read by key, the mesh network and the gateway's network are the cluster identifier. |
| Istio.RemoteSwitchesByKey | internal/pkg/workflow/commands/sync/istio/install_istio.go:631-642 | Read by key, self-signing is off, and mutual TLS, the gateways, control-plane security, both remote service-endpoint settings and auto-injection are on. |
| Istio.Args | internal/pkg/workflow/commands/sync/istio/install_istio.go:550-642 | Both argument lists start with "manifest apply --kubeconfig=…". The remote one is the twelve remote settings; the master one is its five settings, then "-f" and the control-plane file. |
| Istio.RemoteMesh | internal/pkg/workflow/commands/sync/istio/install_istio.go:627-642 | The remote install points at the master's gateway IP, uses the cluster identifier as its network, and uses the command's kubeconfig. |
| Istio.MasterMesh | internal/pkg/workflow/commands/sync/istio/install_istio.go:550-560 | The master install uses the static IP address, the control-plane file and the command's kubeconfig. |
| Istio.InstallInSlave | internal/pkg/workflow/commands/sync/istio/install_istio.go:588-655 | The three lookups are attempted up to the first failure. No ingress entry, or an empty first IP, fails with its own error before istioctl. Otherwise istioctl runs once with the remote settings for the first IP. It succeeds exactly when every step does. |
| Istio.LookupCallsNoIstioctl | internal/pkg/workflow/commands/sync/istio/install_istio.go:596-613 | The lookups never run istioctl and never create the gateway. |
| Istio.CertificateRequestShape | internal/pkg/workflow/commands/sync/istio/install_istio.go:523 | The certificate request is the template's text between ".IngressDomain" placeholders joined with the public DNS host. Those pieces rebuild the template and contain no placeholder. |
| Istio.MasterPlan | internal/pkg/workflow/commands/sync/istio/install_istio.go:518-584 | The master install's calls are create certificate, wait for it, create a temporary file, write it, run istioctl with the master settings, patch the gateway. |
| Istio.InstallInMaster | internal/pkg/workflow/commands/sync/istio/install_istio.go:518-584 | Those calls are made up to the first failure. It succeeds exactly when all do; otherwise the last call made failed. |
| Istio.MasterStopsAtTempFile | internal/pkg/workflow/commands/sync/istio/install_istio.go:526-542 | The master install stops at the temporary file exactly when the certificate steps succeed and creating the file fails. |
| Istio.InstallInMasterAsWritten | internal/pkg/workflow/commands/sync/istio/install_istio.go:538-542 | As written, the master install crashes exactly when the temporary file cannot be created after the certificate steps succeed. Otherwise it behaves as the corrected install. |
| Istio.TempFileFailurePanics | internal/pkg/workflow/commands/sync/istio/install_istio.go:538-542 | For that input the source crashes, while the corrected install reports "failure when creating temporary configuration file" with the cause. |
| Istio.MasterTempFileError | internal/pkg/workflow/commands/sync/istio/install_istio.go:538-542 | The corrected install's error for a failing temporary file. |
| Istio.InstallGateway | internal/pkg/workflow/commands/sync/istio/install_istio.go:658-692 | The gateway is stored exactly when its creation succeeds. A rejection is wrapped in "error generating error" and leaves the cluster unchanged. |
| Istio.Install | internal/pkg/workflow/commands/sync/istio/install_istio.go:226-235 | An application cluster runs only the remote install and keeps the cluster. The master cluster runs the master install and then always the gateway creation, whose error is dropped. |
| Istio.InstallFailure | internal/pkg/workflow/commands/sync/istio/install_istio.go:237-239 | An install failure returns both a failed result "impossible to install istio" carrying the error and the same error. |
| Istio.AfterNamespace | internal/pkg/workflow/commands/sync/istio/install_istio.go:220-245 | A secrets failure is a transport error "impossible to create Istio secrets" that leaves the cluster unchanged and makes no later call. Otherwise the secret is stored, the install runs on that cluster, the cluster is the one the install leaves, and the outcome is the install failure or the success message. |
| Istio.Run | internal/pkg/workflow/commands/sync/istio/install_istio.go:209-246 | Listed below, one bullet per clause. |
| Istio.RunOutcomes | internal/pkg/workflow/commands/sync/istio/install_istio.go:209-246 | Every run ends in one of three shapes. It is a success with "istio has been installed successfully", or a transport error, or an install failure that carries its error twice. |
| Istio.SecretsFailureStopsInstall | internal/pkg/workflow/commands/sync/istio/install_istio.go:220-224 | When a secrets step fails, the run never runs istioctl and never creates the gateway. |
| Istio.GatewayOnlyOnMaster | internal/pkg/workflow/commands/sync/istio/install_istio.go:226-235 | An application cluster's run never creates the gateway. |
| Istio.GatewayErrorIgnored | internal/pkg/workflow/commands/sync/istio/install_istio.go:234-237 | Whether the gateway creation fails has no effect on the run's outcome. |
| Istio.RunActionsIgnores | internal/pkg/workflow/commands/sync/istio/install_istio.go:226-235 | A sequence of steps is unaffected by the outcome of a call it does not make. |
| Istio.PrettyPrint | internal/pkg/workflow/commands/sync/istio/install_istio.go:696-702 | Stripping the leading spaces gives back the indentation and "SYNC InstallIstio". |
| Cli.ValidateInstallParameters | cmd/installer-cli/commands/cli.go:138-158 | Parameters pass exactly when the mode's requirements hold: username, key and nodes for a Kubernetes install, otherwise a kubeconfig. Credentials are checked before nodes. Each failure is an invalid argument with its own message. |
| Cli.ValidationIgnoresOtherMode | cmd/installer-cli/commands/cli.go:139-150 | Each mode ignores the other mode's flags. |
| Cli.DefaultsValidation | cmd/installer-cli/commands/cli.go:138-150 | The flag defaults pass for an existing cluster but not for a Kubernetes install, which lacks a username. |
| Cli.GetPaths | cmd/installer-cli/commands/cli.go:106-136 | Listed below, one bullet per clause. |
| Cli.GetPathsIdempotent | cmd/installer-cli/commands/cli.go:106-136 | Once the directories are in place, a second check changes nothing and cannot fail. |
| Fallback.NewTry | internal/pkg/workflow/commands/try_test.go:19 | A Try is synchronous and keeps its description, primary and fallback. |
| Fallback.Run | internal/pkg/workflow/commands/try_test.go:16-57 | A Try's outcome is that of the last command it executed. Every command executed before it failed. At least one command runs. |
| Fallback.PrimarySucceeds | internal/pkg/workflow/commands/try_test.go:16-24 | A succeeding primary's outcome is the Try's, and the fallback never runs. |
| Fallback.PrimaryFails | internal/pkg/workflow/commands/try_test.go:26-35 | A failing primary is followed by the fallback, whose outcome is returned verbatim. |
| Fallback.CategoryIrrelevant | internal/pkg/workflow/commands/try_test.go:38-58 | Making either child sync or async does not change what the Try returns. |
| Fallback.SyncPrimarySucceeds | internal/pkg/workflow/commands/try_test.go:16-24 | Two loggers give "cmd1". |
| Fallback.SyncPrimaryFails | internal/pkg/workflow/commands/try_test.go:26-35 | A failing command followed by a logger gives "cmd2". |
| Fallback.AsyncPrimarySucceeds | internal/pkg/workflow/commands/try_test.go:39-47 | An async sleep followed by a logger gives "Slept for 0". |
| Fallback.AsyncPrimaryFails | internal/pkg/workflow/commands/try_test.go:49-57 | An async failure followed by a sleep gives "Slept for 0". |
| Fallback.FromJSON | internal/pkg/workflow/commands/try_test.go:61-71 | A Try with both nested commands decodes to a Try holding them. |
| Fallback.FromJsonHasBothChildren | internal/pkg/workflow/commands/try_test.go:61-71 | The test's document yields a Try whose primary and fallback are both the decoded logger. |
| Rke.EntriesFrom | internal/pkg/workflow/commands/sync/rke/template.go:25-34 | One entry per node, in order, each rendered for its position. |
| Rke.Render | internal/pkg/workflow/commands/sync/rke/template.go:19-54 | One entry per target node, in order, with that address and the shared user. The first three nodes get etcd, controlplane and worker with "management"; the rest get worker with "compute". The key path and cluster name are copied. |
| Rke.RenderAppend | internal/pkg/workflow/commands/sync/rke/template.go:25-34 | Adding a node appends its entry and leaves the existing entries as they were. |
| Rke.ManagementCount | internal/pkg/workflow/commands/sync/rke/template.go:28-33 | A cluster of n nodes has min(n, 3) management nodes, and all others are compute nodes. |
| Rke.LabelsPartition | internal/pkg/workflow/commands/sync/rke/template.go:28-33 | When every entry is management or compute, the two counts add up to the number of entries. |
| Rke.ParseTemplate | internal/pkg/workflow/commands/sync/rke/template.go:68-80 | Rendering fails exactly when parsing or executing fails. A failure gives empty text and an internal error naming its stage, with the engine's error as cause. |
| Rke.StagesDistinct | internal/pkg/workflow/commands/sync/rke/template.go:70-78 | A parse failure and an execution failure can never give the same error, whatever their causes. |

The contracts of the four command runs have too many clauses for one table
cell. Their clauses are:

**Launch.Run**
- A connect failure is reported as is, with no change.
- An unknown environment is an invalid-argument transport error, and nothing is created.
- A namespace failure is a transport error, and no file is launched.
- A transport error creates no object.
- A components directory that cannot be read is a transport error wrapping the read error in "cannot read components dir". The namespaces have been added, and nothing is launched.
- Otherwise the namespaces were all added and the launched files follow the fail-fast reference over the ".yaml" listing.
- Once the directory is listed, the run succeeds exactly when every ".yaml" file launches.
- Success launches every listed file, stores each prepared object in order, and reports their count.
- A failing component gives the failed result "cannot launch component" carrying that file's own error. The cluster then holds what the files before it stored.

**RegistrySecrets.Run**
- A connect failure is the only transport error.
- A namespace failure stops the run.
- The environment secret is attempted exactly when the cluster is the management cluster or the registry is "nalej-public-registry", and everything before it succeeded.
- A rejected environment secret fails with "cannot create environment secret", whose cause wraps the rejection in "cannot create environment registry-credentials secret". Only the namespace has been added.
- The docker-secret command runs exactly when every earlier step succeeded.
- Success means it ran and passed. The run then reports the source's success message, and the cluster is the namespace, the environment secret when wanted, and the docker registry secret the inner run created.
- A rejected docker-secret command fails with "cannot create docker registry secret" and the cause the fold names. The cluster keeps the namespace and the environment secret.

**VpnServer.Run**
- A connect failure is the only transport error, reported before any dispatch.
- Each supported platform makes exactly the connect and its service's creation.
- That run succeeds exactly when the creation is accepted, and then the service is stored.
- A rejected creation fails with "cannot install service" and the rejection as cause, and leaves the cluster unchanged.
- An unknown platform fails with "unsupported platform type" and no cause, and creates nothing.
- The load-balancer message names the platform.

**Istio.Run**
- A connect failure returns its error.
- A namespace failure is "impossible to create namespace for istio", no later call is made, and the cluster is unchanged.
- Otherwise the namespace is added and the run continues with the secrets and the install. Its outcome, calls and final cluster are those of that continuation.

**Cli.GetPaths**
- The components directory is checked before the binary directory. Each missing one is a not-found error naming the path.
- A missing temp directory is created, and only that creation can fail.
- On success the paths are returned unchanged and all three directories exist.

## Left out

- Logging, the Kubernetes and Istio client calls and the istioctl process. They become `Cluster.Call`s whose outcome comes from the oracle.
- Istio.CreateSecrets: the source connects a second time inside the secret step. That connect and `Run`'s own connect are the same `Call` and share one oracle entry, so the model cannot make the second one fail on its own.
- Key and certificate generation (RSA, x509, PEM). The certificates are an input of the model, and generating them is an oracle step that can fail.
- Waiting for the certificate and for the gateway IP. Tickers, timeouts and goroutines are represented only by whether they end in an error.
- The authx secret's random UUID is an input (`token`).
- The istioctl runs' own command results: the model only records whether the exec failed.
- Istio.InstallInSlave: assumes the istioctl exec returns a result together with any error. The source logs the result's output (install_istio.go:648) before it checks the error, so an exec that fails with no result would crash there. The exec command is not part of this model.
- The master install's control-plane file and the gateway patch (`IstioMasterConfig`, `IstioIngressPatch`) are constants whose contents are not modelled; only writing the file and applying the patch are steps.
- The gateway object's server specification: only its key is modelled.
- The certificate request and the istioctl invocations are recorded as structured calls (`CreateCertificate(host)`, `Istioctl(binary, install)`). `Istio.CertificateRequest` and `Istio.Args` give their textual form.
- Cluster.CreateObject: the oracle decides each creation from the call alone, whatever the cluster already holds. The API server rejects a `Create` of a name that already exists. So two component files that decode to the same kind, namespace and name both launch in the model, and the second overwrites the first. The source fails on the second with "cannot launch component". The model makes no claim about which object such a pair leaves stored.
- RegistrySecrets.Run: the inner CreateDockerSecret command is defined in a file that is not part of this model. It is represented by its outcome and by the secret it stores when it passes. An inner run that is rejected is taken to store nothing.
- YAML decoding of component files. A file's content is given as unreadable, decoded to an object, or not decodable.
- The decoded Kubernetes objects are reduced to key, labels, data, secret type, pull secrets and storage class.
- The JSON decoding of every command. `FromJSON` takes what the decoder produced, and the "unmarshal error" is one fixed error value.
- `WithParams` payloads beyond the offending string: the unsupported object attached to "object not supported" is dropped.
- Launch.ListComponents: a directory that cannot be read makes the source's `ListComponents` stop the process (`log.Fatal`). The model lists a given directory listing and leaves that failure out.
- The environment table (environment names to environments) and the registry names are defined in a file that is not part of this model, so they are inputs and symbolic values.
- Path resolution in the CLI (home expansion, the components-path extension) and Cobra flag wiring. The resolved paths are inputs to `Cli.GetPaths`.
- Cli.GetPaths: creating the temp directory is modelled as adding that one path. The parent directories `MkdirAll` also creates are not tracked.
- Go's `html/template` engine (parsing, escaping, the rendered text's layout) and `ValidateYAML`. `Rke.ParseTemplate` takes the engine's outcome as input, and `Rke.Render` models the node entries the template encodes.
- The Try command's implementation is not part of this model. Its behaviour comes from its tests, and other commands are represented by the outcome their run gives.
- Fallback.FromJSON: no test decodes a Try with a missing or undecodable nested command. That such a document fails with the unmarshal error is an assumption of the model.
- Fallback.Fails: the tests' failing commands do not show whether they fail by a transport error or by an unsuccessful result. That both kinds count as a failed primary is an assumption of the model.
- Fallback.PrimaryFails: every test's fallback succeeds. That a failing fallback's outcome is returned unchanged is an assumption of the model.
- The workflow parser, executor and progress store: their implementations are not part of this model.
- Istio `UserString` ("Installing Istio") and VPN `UserString` ("Installing VPN Server loadbalancer"): constant strings with nothing to state.
- Indentation is a natural number. Go's `strings.Repeat` panics on a negative count, and no caller passes one.

## Findings

| source | as written | input that shows it | evidently intended | confidence | as-written member | corrected member |
|---|---|---|---|---|---|---|
| internal/pkg/workflow/commands/sync/k8s/launch.go:165-170,205-207 | A decode error is only printed. The nil object then falls to the default branch, where `reflect.TypeOf(nil).String()` dereferences a nil type. | A ".yaml" component file whose content the decoder rejects. | Report the file as an error ("object not supported") and stop the loop, as for any other failing component. | not executed; high | Launch.LaunchComponentAsWritten (shown by Launch.UndecodableComponentPanics) | Launch.LaunchComponent (used by Launch.LaunchFiles and Launch.Run) |
| internal/pkg/workflow/commands/sync/istio/install_istio.go:538-542 | `file.Name()` is called before the error of `ioutil.TempFile` is checked, so a failed creation dereferences a nil file. | The certificate is created and ready, and the temp directory cannot hold a new file. | Check the error first and return "failure when creating temporary configuration file". | not executed; high | Istio.InstallInMasterAsWritten (shown by Istio.TempFileFailurePanics) | Istio.InstallInMaster (with Istio.MasterStopsAtTempFile; used by Istio.Install) |
| internal/pkg/workflow/commands/sync/k8s/create_registry_secrets.go:110-112 | For an unsuccessful inner result the function returns `result.Error`, which is nil when the result carries no cause, so the caller treats the failure as success. | An inner CreateDockerSecret run that returns `Success = false` with no error. | Any unsuccessful inner result makes `createDockerSecrets` fail. | not executed; low: it needs an inner failure without a cause, and assumes the result's error field is the error interface | RegistrySecrets.DockerSecretsErrorAsWritten (shown by RegistrySecrets.FailureWithoutErrorPasses) | RegistrySecrets.DockerSecrets (with RegistrySecrets.DockerSecretsAgree; used by RegistrySecrets.Run) |
