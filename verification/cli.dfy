/** The installer CLI's checks before an install: the parameters that must be
    present in each install mode, and the directories the install works with. */
module Cli {
  import opened Base

  /** The flags the parameter check reads. */
  datatype InstallParams = InstallParams(
    installK8s: bool,
    kubeConfigPath: string,
    username: string,
    privateKeyPath: string,
    nodes: string)

  /** The flags' default values. */
  const Defaults: InstallParams := InstallParams(false, "~/.kube/config", "", "~/.ssh/id_rsa", "")

  const MissingCredentials: Error := NewError(InvalidArgument, "username and privateKeyPath expected on kubernetes install mode")
  const MissingNodes: Error := NewError(InvalidArgument, "nodes expected on kubernetes install mode")
  const MissingKubeConfig: Error := NewError(InvalidArgument, "kubeConfig path expected")

  /** What an install mode needs: the SSH credentials and the nodes when Kubernetes is
      installed by the installer, and otherwise a kubeconfig. */
  predicate Complete(p: InstallParams) {
    if p.installK8s then p.username != "" && p.privateKeyPath != "" && p.nodes != ""
    else p.kubeConfigPath != ""
  }

  /** `ValidateInstallParameters`. */
  function ValidateInstallParameters(p: InstallParams): (r: Option<Error>)
    ensures r.None? <==> Complete(p)
    ensures r.Some? ==> r.value.kind == InvalidArgument
    // the credentials are checked before the nodes
    ensures p.installK8s && (p.username == "" || p.privateKeyPath == "") ==> r == Some(MissingCredentials)
    ensures p.installK8s && p.username != "" && p.privateKeyPath != "" && p.nodes == "" ==> r == Some(MissingNodes)
    ensures !p.installK8s && p.kubeConfigPath == "" ==> r == Some(MissingKubeConfig)
  {
    if p.installK8s then
      if p.username == "" || p.privateKeyPath == "" then Some(MissingCredentials)
      else if p.nodes == "" then Some(MissingNodes)
      else None
    else if p.kubeConfigPath == "" then Some(MissingKubeConfig)
    else None
  }

  /** Each mode ignores the flags of the other one. */
  lemma ValidationIgnoresOtherMode(p: InstallParams, kubeConfigPath: string, username: string,
                                   privateKeyPath: string, nodes: string)
    ensures !p.installK8s ==>
      ValidateInstallParameters(p) == ValidateInstallParameters(p.(username := username, privateKeyPath := privateKeyPath, nodes := nodes))
    ensures p.installK8s ==>
      ValidateInstallParameters(p) == ValidateInstallParameters(p.(kubeConfigPath := kubeConfigPath))
  {
  }

  /** The defaults pass with an existing cluster but not for a Kubernetes install,
      which has no default username. */
  lemma DefaultsValidation()
    ensures ValidateInstallParameters(Defaults).None?
    ensures ValidateInstallParameters(Defaults.(installK8s := true)) == Some(MissingCredentials)
  {
  }

  /** The three working directories. */
  datatype Paths = Paths(componentsPath: string, binaryPath: string, tempPath: string)

  /** A not-found error that names the missing path. */
  function MissingDirectory(msg: string, path: string): (e: Error)
    ensures e.kind == NotFound && e.msg == msg && e.params == [path] && e.cause.None?
  {
    Error(NotFound, msg, [path], None)
  }

  /** `GetPaths`. `resolved` holds the directories after path resolution, which is not
      modelled; `existing` the paths that exist; `mkdirErr` how creating the temp
      directory fails, if it does. On success it returns the paths and the directories
      that exist afterwards. */
  function GetPaths(resolved: Paths, existing: set<string>, mkdirErr: Option<Error>): (r: Result<(Paths, set<string>)>)
    // the components directory is checked first, then the binary one
    ensures resolved.componentsPath !in existing ==>
      r == Err(MissingDirectory("components directory does not exist", resolved.componentsPath))
    ensures resolved.componentsPath in existing && resolved.binaryPath !in existing ==>
      r == Err(MissingDirectory("binary directory does not exists", resolved.binaryPath))
    // a missing temp directory is created, and only its creation can fail
    ensures r.Ok? <==>
      && resolved.componentsPath in existing && resolved.binaryPath in existing
      && (resolved.tempPath in existing || mkdirErr.None?)
    ensures r.Err? && resolved.componentsPath in existing && resolved.binaryPath in existing ==>
      r.error == Wrap(mkdirErr.value, "cannot create temp directory")
    ensures r.Ok? ==> r.value.0 == resolved && r.value.1 == existing + {resolved.tempPath}
    ensures r.Ok? ==> {r.value.0.componentsPath, r.value.0.binaryPath, r.value.0.tempPath} <= r.value.1
  {
    if resolved.componentsPath !in existing then
      Err(MissingDirectory("components directory does not exist", resolved.componentsPath))
    else if resolved.binaryPath !in existing then
      Err(MissingDirectory("binary directory does not exists", resolved.binaryPath))
    else if resolved.tempPath !in existing && mkdirErr.Some? then
      Err(Wrap(mkdirErr.value, "cannot create temp directory"))
    else
      Ok((resolved, existing + {resolved.tempPath}))
  }

  /** Once the directories are in place, checking them again changes nothing and
      cannot fail. */
  lemma GetPathsIdempotent(resolved: Paths, existing: set<string>, mkdirErr: Option<Error>, again: Option<Error>)
    requires GetPaths(resolved, existing, mkdirErr).Ok?
    ensures var after := GetPaths(resolved, existing, mkdirErr).value.1;
      GetPaths(resolved, after, again) == Ok((resolved, after))
  {
  }
}
