/**
 The install-config document of one cluster and how install.py fills it in
 (`get_cloud_info` with `CloudData`, `AWSData`, `GCPData`, `AzureData`), how a
 cluster is named (`generate_cluster_name`), where its directory goes
 (`get_cluster_dir`) and which clusters count as running (`get_running_clusters`).

 The YAML template is a record here; the picker's answers, the environment, the
 home directory, the files that can be read, the user name and the uuid are inputs.
 */
module CloudConfig {
  import opened Wrappers
  import opened Strings

  /** The `platform` of a machine pool: `{}` or `{'aws': {'type': t}}`. */
  datatype PoolPlatform = NoOverride | AwsType(instanceType: string)

  datatype MachinePool = MachinePool(hyperthreading: string, name: string, platform: PoolPlatform, replicas: nat)

  datatype Networking = Networking(clusterNetworkCidr: string, hostPrefix: nat, machineCIDR: string,
                                   networkType: string, serviceNetwork: seq<string>)

  /** The top-level `platform` block. */
  datatype CloudPlatform =
    | PlatformPlaceholder                // the template's literal `PLATFORM`
    | AwsPlatform(region: string)
    | GcpPlatform(projectID: string, region: string)
    | AzurePlatform(baseDomainResourceGroupName: string, region: string)

  datatype InstallConfig = InstallConfig(
    apiVersion: string,
    baseDomain: string,
    compute: seq<MachinePool>,
    controlPlane: MachinePool,
    metadataName: string,
    networking: Networking,
    platform: CloudPlatform,
    publish: string,
    pullSecret: string,
    sshKey: string)

  /** `INSTALL_CONFIG` as `yaml.safe_load` reads it. */
  const Template := InstallConfig(
    "v1",
    "BASEDOMAIN",
    [MachinePool("Enabled", "worker", NoOverride, 3)],
    MachinePool("Enabled", "master", NoOverride, 3),
    "CLUSTERNAME",
    Networking("10.128.0.0/14", 23, "10.0.0.0/16", "OpenShiftSDN", ["172.30.0.0/16"]),
    PlatformPlaceholder,
    "External",
    "PULLSECRET",
    "SSHKEY")

  datatype Error =
    | UnknownCloud(cloud: string)       // KeyError from CLOUDS
    | MissingFile(path: string)         // open() raised
    | UnknownProfile(profile: string)   // KeyError (or the explicit raise) on a base-domain table
    | UnknownSize(size: string)         // KeyError from AWS_INSTANCES
    | DirectoryExists(path: string)     // os.mkdir raised FileExistsError
    | MissingParent(path: string)       // os.mkdir raised FileNotFoundError

  // ---------------------------------------------------------------------------
  // Fixed tables

  const AwsBaseDomains: map<string, string> := map[
    "default" := "devcluster.openshift.com",
    "long-lived" := "llc.devcluster.openshift.com",
    "openshift-dev" := "devcluster.openshift.com"]

  const AwsSmall := "m5.large"
  const AwsMedium := "m5.2xlarge"
  const AwsLarge := "m5.8xlarge"

  const AwsInstances: map<string, PoolPlatform> := map[
    "default" := NoOverride,
    "small" := AwsType(AwsSmall),
    "medium" := AwsType(AwsMedium),
    "large" := AwsType(AwsLarge)]

  const AwsPlatformBlock := AwsPlatform("us-east-2")

  const GcpPlatformBlock := GcpPlatform("openshift-gce-devel", "us-central1")

  /** `GCP_PROFILES`, profile to its `base_domain`. */
  const GcpProfiles: map<string, string> := map["openshift-gce-devel" := "gcp.devcluster.openshift.com"]

  const AzurePlatformBlock := AzurePlatform("os4-common", "centralus")

  const AzureBaseDomains: map<string, string> := map[
    "OpenShift Architects" := "architects.azure.devcluster.openshift.com"]

  const Clouds: set<string> := {"aws", "azure", "gcp"}

  const PullSecretPath := "./pullsecret"

  function SshKeyPath(home: string): string {
    home + "/.ssh/openshift-dev.pub"
  }

  function PlatformOf(cloud: string): CloudPlatform
    requires cloud in Clouds
  {
    if cloud == "aws" then AwsPlatformBlock
    else if cloud == "gcp" then GcpPlatformBlock
    else AzurePlatformBlock
  }

  /** The AWS size table: `default` overrides nothing, the three named sizes pick
      their instance type, and no other size is known. */
  lemma AwsSizeTable()
    ensures AwsInstances.Keys == {"default", "small", "medium", "large"}
    ensures AwsInstances["default"] == NoOverride
    ensures AwsInstances["small"] == AwsType("m5.large")
    ensures AwsInstances["medium"] == AwsType("m5.2xlarge")
    ensures AwsInstances["large"] == AwsType("m5.8xlarge")
  {
  }

  // ---------------------------------------------------------------------------
  // Secret material

  /** `pullsecret.replace('\n', '').replace(' ', '')` */
  function NormalizePullSecret(text: string): (r: string)
    ensures '\n' !in r && ' ' !in r
  {
    RemoveChar(RemoveChar(text, '\n'), ' ')
  }

  /** The normalised pull secret is the input with newlines and spaces deleted and
      every other character kept in order: normalising is a homomorphism of
      concatenation that keeps each other single character. */
  lemma {:induction false} PullSecretKeepsOrder(a: string, b: string)
    ensures NormalizePullSecret(a + b) == NormalizePullSecret(a) + NormalizePullSecret(b)
    ensures forall c: char :: NormalizePullSecret([c]) == if c == '\n' || c == ' ' then [] else [c]
  {
    RemoveCharConcat(a, b, '\n');
    RemoveCharConcat(RemoveChar(a, '\n'), RemoveChar(b, '\n'), ' ');
  }

  /** Normalising a normalised secret changes nothing. */
  lemma {:induction false} PullSecretIdempotent(text: string)
    ensures NormalizePullSecret(NormalizePullSecret(text)) == NormalizePullSecret(text)
  {
    var r := NormalizePullSecret(text);
    RemoveCharAbsent(r, '\n');
    RemoveCharAbsent(r, ' ');
  }

  // ---------------------------------------------------------------------------
  // The whole of get_cloud_info, as a value

  /** The command-line arguments `get_cloud_info` reads; "" stands for an absent flag. */
  datatype CloudArgs = CloudArgs(cloud: string, profile: string, masterSize: string, workerSize: string)

  /** What the user would answer at each picker prompt. */
  datatype Picks = Picks(cloud: string, profile: string, masterSize: string, workerSize: string)

  /** The process environment, the home directory and the files that can be opened. */
  datatype Host = Host(environ: map<string, string>, home: string, files: map<string, string>)

  datatype CloudInfo = CloudInfo(cloud: string, config: InstallConfig, envs: map<string, string>)

  /** `x = args.x; if not x: x = pick(...)` */
  function Chosen(given: string, picked: string): string {
    if given != "" then given else picked
  }

  /** `CloudData.__init__`: the template with the platform block, the normalised pull
      secret and the stripped SSH key. */
  function BaseConfig(platform: CloudPlatform, host: Host): Result<InstallConfig, Error> {
    if PullSecretPath !in host.files then Err(MissingFile(PullSecretPath))
    else if SshKeyPath(host.home) !in host.files then Err(MissingFile(SshKeyPath(host.home)))
    else Ok(Template.(platform := platform,
                      pullSecret := NormalizePullSecret(host.files[PullSecretPath]),
                      sshKey := Strip(host.files[SshKeyPath(host.home)])))
  }

  /** `AWSData.__init__` after the base: profile to base domain and `AWS_PROFILE`,
      master and worker size to their instance blocks. */
  function AwsSetup(base: InstallConfig, environ: map<string, string>, profile: string, master: string, worker: string)
    : Result<(InstallConfig, map<string, string>), Error>
    requires |base.compute| == 1
  {
    if profile !in AwsBaseDomains then Err(UnknownProfile(profile))
    else if master !in AwsInstances then Err(UnknownSize(master))
    else if worker !in AwsInstances then Err(UnknownSize(worker))
    else Ok((base.(baseDomain := AwsBaseDomains[profile],
                   controlPlane := base.controlPlane.(platform := AwsInstances[master]),
                   compute := base.compute[0 := base.compute[0].(platform := AwsInstances[worker])]),
             environ["AWS_PROFILE" := profile]))
  }

  /** `get_cloud_info`: choose the cloud, build its data, return both. */
  function CloudSetup(args: CloudArgs, picks: Picks, host: Host): Result<CloudInfo, Error> {
    var cloud := Chosen(args.cloud, picks.cloud);
    if cloud !in Clouds then Err(UnknownCloud(cloud))
    else
      var base :- BaseConfig(PlatformOf(cloud), host);
      var profile := Chosen(args.profile, picks.profile);
      if cloud == "aws" then
        var (config, envs) :- AwsSetup(base, host.environ, profile,
                                      Chosen(args.masterSize, picks.masterSize), Chosen(args.workerSize, picks.workerSize));
        Ok(CloudInfo(cloud, config, envs))
      else if cloud == "gcp" then
        if profile !in GcpProfiles then Err(UnknownProfile(profile))
        else Ok(CloudInfo(cloud, base.(baseDomain := GcpProfiles[profile]), host.environ))
      else
        if profile !in AzureBaseDomains then Err(UnknownProfile(profile))
        else Ok(CloudInfo(cloud, base.(baseDomain := AzureBaseDomains[profile]), host.environ))
  }

  /** Every successful setup fills the cloud-specific fields: a real platform block of
      the chosen cloud and a base domain taken from that cloud's own table; the secrets are
      the normalised file contents; everything else is the template's. */
  lemma SetupPopulates(args: CloudArgs, picks: Picks, host: Host)
    requires CloudSetup(args, picks, host).Ok?
    ensures var info := CloudSetup(args, picks, host).value;
      && info.cloud in Clouds
      && info.config.platform == PlatformOf(info.cloud)
      && (info.cloud == "aws" ==> info.config.baseDomain in AwsBaseDomains.Values)
      && (info.cloud == "gcp" ==> info.config.baseDomain in GcpProfiles.Values)
      && (info.cloud == "azure" ==> info.config.baseDomain in AzureBaseDomains.Values)
      && PullSecretPath in host.files && SshKeyPath(host.home) in host.files
      && info.config.pullSecret == NormalizePullSecret(host.files[PullSecretPath])
      && info.config.sshKey == Strip(host.files[SshKeyPath(host.home)])
      && info.config.metadataName == Template.metadataName
      && info.config.networking == Template.networking
      && |info.config.compute| == 1
  {
    var cloud := Chosen(args.cloud, picks.cloud);
    var profile := Chosen(args.profile, picks.profile);
    if cloud == "aws" {
      assert AwsBaseDomains[profile] in AwsBaseDomains.Values;
    } else if cloud == "gcp" {
      assert GcpProfiles[profile] in GcpProfiles.Values;
    } else {
      assert AzureBaseDomains[profile] in AzureBaseDomains.Values;
    }
  }

  /** The whole document and environment of a successful setup. The base is the
      template with the cloud's platform block, the normalised pull secret and the
      stripped SSH key. GCP and Azure only set the base domain of their single profile
      and keep the inherited environment; AWS also sets both pool platforms from the
      size table and adds `AWS_PROFILE`. */
  lemma SetupRecord(args: CloudArgs, picks: Picks, host: Host)
    requires CloudSetup(args, picks, host).Ok?
    ensures var info := CloudSetup(args, picks, host).value;
      var cloud := Chosen(args.cloud, picks.cloud);
      var profile := Chosen(args.profile, picks.profile);
      var master := Chosen(args.masterSize, picks.masterSize);
      var worker := Chosen(args.workerSize, picks.workerSize);
      && info.cloud == cloud && cloud in Clouds
      && PullSecretPath in host.files && SshKeyPath(host.home) in host.files
      && var base := Template.(platform := PlatformOf(cloud),
                               pullSecret := NormalizePullSecret(host.files[PullSecretPath]),
                               sshKey := Strip(host.files[SshKeyPath(host.home)]));
      && (cloud == "gcp" ==>
            && profile == "openshift-gce-devel"
            && info.config == base.(baseDomain := "gcp.devcluster.openshift.com")
            && info.envs == host.environ)
      && (cloud == "azure" ==>
            && profile == "OpenShift Architects"
            && info.config == base.(baseDomain := "architects.azure.devcluster.openshift.com")
            && info.envs == host.environ)
      && (cloud == "aws" ==>
            && profile in AwsBaseDomains && master in AwsInstances && worker in AwsInstances
            && info.config == base.(baseDomain := AwsBaseDomains[profile],
                                    controlPlane := Template.controlPlane.(platform := AwsInstances[master]),
                                    compute := [Template.compute[0].(platform := AwsInstances[worker])])
            && info.envs == host.environ["AWS_PROFILE" := profile])
  {
  }

  /** AWS: the base domain comes from the profile's row, `AWS_PROFILE` is added to the
      inherited environment, and each pool's platform is its size's row, so `default`
      leaves the pool platform empty and `small` sets type `m5.large`. */
  lemma AwsSetupFromTables(args: CloudArgs, picks: Picks, host: Host)
    requires Chosen(args.cloud, picks.cloud) == "aws"
    requires CloudSetup(args, picks, host).Ok?
    ensures var info := CloudSetup(args, picks, host).value;
      var profile := Chosen(args.profile, picks.profile);
      var master := Chosen(args.masterSize, picks.masterSize);
      var worker := Chosen(args.workerSize, picks.workerSize);
      && profile in AwsBaseDomains && master in AwsInstances && worker in AwsInstances
      && info.config.baseDomain == AwsBaseDomains[profile]
      && info.config.controlPlane.platform == AwsInstances[master]
      && info.config.compute[0].platform == AwsInstances[worker]
      && info.envs == host.environ["AWS_PROFILE" := profile]
  {
  }

  /** AWS refuses what its tables do not list, profile first, then master size, then
      worker size; the other clouds refuse a profile missing from their table. */
  lemma SetupRejectsUnknown(args: CloudArgs, picks: Picks, host: Host)
    requires BaseConfig(AwsPlatformBlock, host).Ok?
    ensures var profile := Chosen(args.profile, picks.profile);
      var cloud := Chosen(args.cloud, picks.cloud);
      && (cloud !in Clouds ==> CloudSetup(args, picks, host) == Err(UnknownCloud(cloud)))
      && (cloud == "aws" && profile !in AwsBaseDomains ==> CloudSetup(args, picks, host) == Err(UnknownProfile(profile)))
      && (cloud == "aws" && profile in AwsBaseDomains && Chosen(args.masterSize, picks.masterSize) !in AwsInstances ==>
            CloudSetup(args, picks, host) == Err(UnknownSize(Chosen(args.masterSize, picks.masterSize))))
      && (cloud == "aws" && profile in AwsBaseDomains && Chosen(args.masterSize, picks.masterSize) in AwsInstances &&
          Chosen(args.workerSize, picks.workerSize) !in AwsInstances ==>
            CloudSetup(args, picks, host) == Err(UnknownSize(Chosen(args.workerSize, picks.workerSize))))
      && (cloud == "gcp" && profile !in GcpProfiles ==> CloudSetup(args, picks, host) == Err(UnknownProfile(profile)))
      && (cloud == "azure" && profile !in AzureBaseDomains ==> CloudSetup(args, picks, host) == Err(UnknownProfile(profile)))
  {
  }

  /** A known cloud whose pull secret cannot be read fails on that file; one whose
      pull secret can be read but whose SSH key cannot fails on the key file. */
  lemma SetupMissingFiles(args: CloudArgs, picks: Picks, host: Host)
    ensures var cloud := Chosen(args.cloud, picks.cloud);
      && (cloud in Clouds && PullSecretPath !in host.files ==>
            CloudSetup(args, picks, host) == Err(MissingFile(PullSecretPath)))
      && (cloud in Clouds && PullSecretPath in host.files && SshKeyPath(host.home) !in host.files ==>
            CloudSetup(args, picks, host) == Err(MissingFile(SshKeyPath(host.home))))
  {
  }

  // ---------------------------------------------------------------------------
  // Naming

  /** `str(uuid4())[:8]`: Python slicing takes at most the first eight characters. */
  function Take8(uid: string): (r: string)
    ensures |r| == if |uid| < 8 then |uid| else 8
    ensures r == uid[..|r|]
  {
    if |uid| <= 8 then uid else uid[..8]
  }

  /** `generate_cluster_name`: `--name` when given, else `user-cloud-uid8`. */
  function GenerateClusterName(cloud: string, name: string, user: string, uid: string): (r: string)
    ensures name != "" ==> r == name
  {
    if name != "" then name
    else user + "-" + cloud + "-" + Take8(uid)
  }

  /** A generated name splits back at its dashes: the user before the first, the
      uuid's first eight characters after the last, when neither holds a dash. */
  lemma GeneratedNameParts(cloud: string, user: string, uid: string)
    requires '-' !in user && '-' !in Take8(uid)
    ensures UpTo(GenerateClusterName(cloud, "", user, uid), '-') == user
    ensures AfterLast(GenerateClusterName(cloud, "", user, uid), '-') == Take8(uid)
  {
    var r := GenerateClusterName(cloud, "", user, uid);
    assert r == user + ['-'] + (cloud + "-" + Take8(uid));
    UpToPrefix(user, '-', cloud + "-" + Take8(uid));
    assert r == (user + "-" + cloud + "-") + Take8(uid);
    AfterLastSuffix(user + "-" + cloud + "-", '-', Take8(uid));
  }

  // ---------------------------------------------------------------------------
  // Running clusters

  /** `get_running_clusters`: the first `/`-component of each match of the glob for metadata.json one level down. */
  function GetRunningClusters(matches: seq<string>): (dirs: seq<string>)
    ensures |dirs| == |matches|
    ensures forall i :: 0 <= i < |dirs| ==> '/' !in dirs[i] && StartsWith(matches[i], dirs[i])
    ensures forall i :: 0 <= i < |dirs| ==>
      |dirs[i]| <= |matches[i]| && (|dirs[i]| == |matches[i]| || matches[i][|dirs[i]|] == '/')
  {
    seq(|matches|, i requires 0 <= i < |matches| => UpTo(matches[i], '/'))
  }

  /** The marker of each cluster directory `d` is found as `d/metadata.json`, and the
      running clusters are those directories again, in glob order. */
  lemma RunningClustersRoundTrip(dirs: seq<string>)
    requires forall i :: 0 <= i < |dirs| ==> '/' !in dirs[i]
    ensures GetRunningClusters(seq(|dirs|, i requires 0 <= i < |dirs| => dirs[i] + "/metadata.json")) == dirs
  {
    var matches := seq(|dirs|, i requires 0 <= i < |dirs| => dirs[i] + "/metadata.json");
    forall i | 0 <= i < |dirs| ensures GetRunningClusters(matches)[i] == dirs[i] {
      assert matches[i] == dirs[i] + ['/'] + "metadata.json";
      UpToPrefix(dirs[i], '/', "metadata.json");
    }
  }

  // ---------------------------------------------------------------------------
  // The object

  class CloudData {
    var installConfig: InstallConfig
    var envs: map<string, string>

    /** `CloudData.__init__` once both secret files have been read. */
    constructor (platform: CloudPlatform, environ: map<string, string>, pullSecretText: string, sshKeyText: string)
      ensures installConfig == Template.(platform := platform,
                                         pullSecret := NormalizePullSecret(pullSecretText),
                                         sshKey := Strip(sshKeyText))
      ensures envs == environ
    {
      installConfig := Template.(platform := platform);
      envs := environ;
      new;
      SetPullSecret(pullSecretText);
      SetSshKey(sshKeyText);
    }

    method SetClusterName(name: string)
      modifies this
      ensures installConfig == old(installConfig).(metadataName := name)
      ensures envs == old(envs)
    {
      installConfig := installConfig.(metadataName := name);
    }

    method SetPullSecret(text: string)
      modifies this
      ensures installConfig == old(installConfig).(pullSecret := NormalizePullSecret(text))
      ensures envs == old(envs)
    {
      var pullSecret := RemoveChar(text, '\n');
      pullSecret := RemoveChar(pullSecret, ' ');
      installConfig := installConfig.(pullSecret := pullSecret);
    }

    method SetSshKey(text: string)
      modifies this
      ensures installConfig == old(installConfig).(sshKey := Strip(text))
      ensures envs == old(envs)
    {
      installConfig := installConfig.(sshKey := Strip(text));
    }
  }

  /** The body of `AWSData.__init__` after the base initialiser, run on `d`. */
  method InitAws(d: CloudData, profile: string, master: string, worker: string) returns (r: Result<(), Error>)
    requires |d.installConfig.compute| == 1
    modifies d
    ensures match AwsSetup(old(d.installConfig), old(d.envs), profile, master, worker)
      case Ok((config, envs)) => r.Ok? && d.installConfig == config && d.envs == envs
      case Err(e) => r == Err(e)
  {
    d.envs := d.envs["AWS_PROFILE" := profile];
    if profile !in AwsBaseDomains {
      return Err(UnknownProfile(profile));
    }
    d.installConfig := d.installConfig.(baseDomain := AwsBaseDomains[profile]);
    if master !in AwsInstances {
      return Err(UnknownSize(master));
    }
    d.installConfig := d.installConfig.(controlPlane := d.installConfig.controlPlane.(platform := AwsInstances[master]));
    if worker !in AwsInstances {
      return Err(UnknownSize(worker));
    }
    var compute := d.installConfig.compute;
    d.installConfig := d.installConfig.(compute := compute[0 := compute[0].(platform := AwsInstances[worker])]);
    return Ok(());
  }

  /** `get_cloud_info`: look the cloud up, run the base initialiser, then the
      cloud's own steps. */
  method GetCloudInfo(args: CloudArgs, picks: Picks, host: Host) returns (r: Result<(string, CloudData), Error>)
    ensures match CloudSetup(args, picks, host)
      case Ok(info) => r.Ok? && r.value.0 == info.cloud && fresh(r.value.1)
                       && r.value.1.installConfig == info.config && r.value.1.envs == info.envs
      case Err(e) => r == Err(e)
  {
    var cloud := Chosen(args.cloud, picks.cloud);
    if cloud !in Clouds {
      return Err(UnknownCloud(cloud));
    }
    if PullSecretPath !in host.files {
      return Err(MissingFile(PullSecretPath));
    }
    if SshKeyPath(host.home) !in host.files {
      return Err(MissingFile(SshKeyPath(host.home)));
    }
    var d := new CloudData(PlatformOf(cloud), host.environ, host.files[PullSecretPath], host.files[SshKeyPath(host.home)]);
    var profile := Chosen(args.profile, picks.profile);
    if cloud == "aws" {
      var ok :- InitAws(d, profile, Chosen(args.masterSize, picks.masterSize), Chosen(args.workerSize, picks.workerSize));
    } else if cloud == "gcp" {
      if profile !in GcpProfiles {
        return Err(UnknownProfile(profile));
      }
      d.installConfig := d.installConfig.(baseDomain := GcpProfiles[profile]);
    } else {
      if profile !in AzureBaseDomains {
        return Err(UnknownProfile(profile));
      }
      d.installConfig := d.installConfig.(baseDomain := AzureBaseDomains[profile]);
    }
    return Ok((cloud, d));
  }

  /** The directory `os.mkdir` creates `path` in: everything before its last `/`, or
      the working directory `.` for a path without one. */
  function ParentDir(path: string): (p: string)
    ensures '/' in path ==> path == p + "/" + AfterLast(path, '/')
    ensures '/' !in path ==> p == "."
  {
    var name := AfterLast(path, '/');
    if |name| == |path| then "." else path[..|path| - |name| - 1]
  }

  /** The parent of a name joined onto a directory is that directory. */
  lemma ParentDirOfJoin(d: string, n: string)
    requires '/' !in n && d != [] && d[|d| - 1] != '/'
    ensures ParentDir(PathJoin(d, n)) == d
  {
    var path := PathJoin(d, n);
    if n != [] {
      assert n[0] != '/';
    }
    assert path == (d + "/") + n;
    AfterLastSuffix(d + "/", '/', n);
    assert path[..|path| - |n| - 1] == d;
  }

  /** What `get_cluster_dir` hands back: the directory, the environment for the
      installer, and the document written to `install-config.yaml` in it. */
  datatype ClusterDir = ClusterDir(path: string, envs: map<string, string>, written: InstallConfig)

  /** `get_cluster_dir`: set up the cloud, name the cluster, make its directory under
      `cwd` and write the config there. `existing` is the set of directories that
      exist; the working directory always does. `os.mkdir` refuses a path that exists,
      and a name with a `/` whose parent directory does not exist. */
  method GetClusterDir(args: CloudArgs, name: string, picks: Picks, host: Host, cwd: string,
                       user: string, uid: string, existing: set<string>)
    returns (r: Result<ClusterDir, Error>)
    ensures match CloudSetup(args, picks, host)
      case Err(e) => r == Err(e)
      case Ok(info) =>
        var clusterName := GenerateClusterName(info.cloud, name, user, uid);
        var path := PathJoin(cwd, clusterName);
        if path in existing then r == Err(DirectoryExists(path))
        else if '/' in clusterName && ParentDir(path) !in existing then r == Err(MissingParent(path))
        else r == Ok(ClusterDir(path, info.envs, info.config.(metadataName := clusterName)))
  {
    var info :- GetCloudInfo(args, picks, host);
    var (cloud, cloudData) := info;
    var clusterName := GenerateClusterName(cloud, name, user, uid);
    var path := PathJoin(cwd, clusterName);
    cloudData.SetClusterName(clusterName);
    if path in existing {
      return Err(DirectoryExists(path));
    }
    if '/' in clusterName && ParentDir(path) !in existing {
      return Err(MissingParent(path));
    }
    return Ok(ClusterDir(path, cloudData.envs, cloudData.installConfig));
  }
}
