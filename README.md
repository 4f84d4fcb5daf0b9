# OpenShift cluster installer: a Dafny model

This project models the logic of two Python scripts that install and destroy
OpenShift clusters with `openshift-install`:

- `install.py` drives a single cluster. It builds the `install-config.yaml`
  document for AWS, GCP or Azure (`get_cloud_info` with `CloudData` and its three
  per-cloud subclasses). It names the cluster (`generate_cluster_name`), and it
  places the cluster directory (`get_cluster_dir`). It lists the running clusters
  (`get_running_clusters`). It keeps a catalogue of installer builds (class
  `Versions`), merged from the nightly feeds, the release feeds, the local `.bins`
  cache and the binary on PATH. It then picks one build and downloads it when the
  build is not local.
- `install-all.py` drives a fleet. It fills every cluster read from
  `clusters.yaml` with defaults (`set_cluster_defaults`). Unnamed clusters are
  numbered from a per-cloud counter. Each cluster then becomes the argument
  vector of one single-cluster run (`get_cluster_arg`, `get_args`).

Modules:

- `Wrappers` (wrappers.dfy) holds `Option` and `Result`.
- `Strings` (strings.dfy) models the Python string operations the scripts rely on:
  - `split()[-1]`, `strip()`, `replace()`;
  - `split("/")[0]` and `split("/")[-1]`;
  - `os.path.join`, `%d` formatting and the ordering that `list.sort()` uses on
    `str`.
- `CloudConfig` (cloud_config.dfy) covers:
  - the install-config template and the cloud tables;
  - `get_cloud_info`, as a function `CloudSetup` and as the method `GetCloudInfo`
    over the class `CloudData`;
  - naming, `get_cluster_dir` and the running-cluster listing.
- `VersionCatalogue` (versions.dfy) covers:
  - feed parsing;
  - the four sources of the catalogue and their merge;
  - `cached_versions`, `latest_version` and the selection in `get_version`;
  - `download_version`;
  - the class `Versions`, whose state is the cache directory, the files in it and
    `install_path`.
- `Fleet` (install_all.dfy) covers:
  - the cluster dicts, with their insertion order;
  - `set_cluster_defaults` and `get_all_clusters`, as functions and as methods of
    the class `Driver`, which holds `per_cloud` and the user name;
  - `get_cluster_arg` and `get_args`.

Every operation that fails with an exception in Python returns `Err` here. The
error value names the cause: a `KeyError` on a table, an unreadable file, an
unreachable URL, a non-zero exit code, or an `IndexError` on an empty list.

The outside world is given as input. This covers:

- the network: the lines each reachable feed returns, and the archive URLs that
  download;
- the files that can be opened;
- the process environment and the home directory;
- the listing of `.bins`;
- the result of probing PATH and running `openshift-install version`;
- the answers the interactive picker would give;
- the user name and the uuid.

Where the code and its documentation disagree, the model follows the code:

- An unreachable feed aborts the whole listing, because `urlopen` raises and
  nothing catches it. It does not skip that feed.
- A machine with no `openshift-install` on PATH cannot list versions at all,
  because `which` returns `None` and `subprocess.run` then raises. The binary on
  PATH is therefore not an optional source.
- The destroy keys are `name` and `versions`. A defaulted cluster holds `version`,
  so a destroy run never passes `--version` (`Fleet.DestroyDropsVersion`).
- `latest_version` sorts identifiers as strings, not as version numbers
  (`VersionCatalogue.LatestIsNotNumeric`).

## Model

| member | source | states |
|---|---|---|
| Strings.Word | install.py:235 | the first word of a string is a prefix of it with no whitespace, followed by whitespace or the end |
| Strings.Fields | install.py:235 | `split()` yields non-empty, space-free fields, and yields none exactly when the string is all whitespace |
| Strings.LastField | install.py:235 | `split()[-1]` of a non-blank string is a non-empty field with no whitespace |
| Strings.WordOfSpaced | install.py:235 | a first word that ends before the join point is unaffected by what follows |
| Strings.WordOfUnspaced | install.py:235 | a space-free word followed by whitespace or the end is the first word |
| Strings.FieldsAppend | install.py:235 | splitting distributes over concatenation at a whitespace boundary |
| Strings.FieldsOfSpace | install.py:235 | an all-whitespace string has no fields |
| Strings.LastFieldOf | install.py:293 | the last field of `pre + v + trailing whitespace` is `v` when `v` is a space-free word |
| Strings.TrimStart | install.py:73 | the result is no longer than the input and does not start with whitespace |
| Strings.TrimEnd | install.py:73 | the result is no longer than the input and does not end with whitespace |
| Strings.TrimStartCuts | install.py:73 | trimming the front removes exactly a prefix of whitespace |
| Strings.TrimEndCuts | install.py:73 | trimming the back removes exactly a suffix of whitespace |
| Strings.Strip | install.py:73 | `strip()` yields a string that starts and ends with a non-space character, or is empty |
| Strings.TrimStartPadded | install.py:73 | leading whitespace in front of a non-space start is removed and nothing else |
| Strings.TrimEndPadded | install.py:73 | trailing whitespace after a non-space end is removed and nothing else |
| Strings.TrimStartAllSpace | install.py:73 | an all-whitespace string trims to empty |
| Strings.StripPadded | install.py:73 | `strip()` of whitespace, then a core that is empty or has non-space ends, then whitespace, gives back the core |
| Strings.RemoveChar | install.py:67 | `replace(c, '')` leaves no `c`, keeps every other character and never grows the string |
| Strings.RemoveCharConcat | install.py:67 | removing a character distributes over concatenation |
| Strings.RemoveCharAbsent | install.py:67 | removing an absent character changes nothing |
| Strings.UpTo | install.py:363 | `split(sep)[0]` is the longest prefix without `sep`, followed by `sep` or the end |
| Strings.AfterLast | install.py:268 | `split(sep)[-1]` is the longest suffix without `sep`, preceded by `sep` or the start |
| Strings.UpToPrefix | install.py:363 | `split(sep)[0]` of `d + sep + rest` is `d` when `d` holds no `sep` |
| Strings.AfterLastSuffix | install.py:268 | `split(sep)[-1]` of a string ending in `sep` followed by `n` is `n` |
| Strings.PathJoin | install.py:216 | `os.path.join` returns an absolute second part as it is, and otherwise puts the first part, then one `/` unless the first part is empty or already ends in `/`, then the second part |
| Strings.FileNameOfJoin | install.py:268 | the last `/`-component of `join(d, n)` is `n` when `n` has no `/` |
| Strings.JoinAbsolute | install.py:209 | joining onto an absolute directory gives an absolute path |
| Strings.DigitChar | install-all.py:24 | a digit below ten becomes a character between `0` and `9` |
| Strings.NatToString | install-all.py:24 | `%d` of a natural number is a non-empty string of decimal digits, with two or more digits exactly from ten on |
| Strings.NatToStringInjective | install-all.py:24 | different counters print differently |
| Strings.LexLessIrreflexive | install.py:321 | Python's string order is irreflexive |
| Strings.LexLessTransitive | install.py:321 | Python's string order is transitive |
| Strings.LexLessTotal | install.py:321 | Python's string order is total on distinct strings |
| Strings.LexLessAsymmetric | install.py:321 | Python's string order is asymmetric |
| CloudConfig.AwsSizeTable | install.py:99-113 | the AWS sizes are exactly default, small, medium and large, and they map to no override, m5.large, m5.2xlarge and m5.8xlarge |
| CloudConfig.NormalizePullSecret | install.py:67 | the normalised pull secret holds no newline and no space |
| CloudConfig.PullSecretKeepsOrder | install.py:67 | normalising deletes exactly the newlines and spaces and keeps every other character in order |
| CloudConfig.PullSecretIdempotent | install.py:67 | normalising twice is normalising once |
| CloudConfig.SetupPopulates | install.py:48-191 | a successful `get_cloud_info` has a known cloud and that cloud's platform block, a base domain from that cloud's own table, and the normalised pull secret and stripped SSH key from their files; the template's name and networking are kept |
| CloudConfig.SetupRecord | install.py:48-191 | the whole result: the template with the platform block and both secrets; GCP and Azure set only the base domain of their one profile and keep the inherited environment; AWS sets the profile's base domain, both pool platforms from the size table and `AWS_PROFILE` |
| CloudConfig.AwsSetupFromTables | install.py:121-142 | on AWS the base domain is the profile's row, `AWS_PROFILE` is set to the profile, and the master and worker pools get their sizes' rows |
| CloudConfig.SetupRejectsUnknown | install.py:128-190 | an unknown cloud, an unknown AWS profile, an unknown master size, then an unknown worker size, and an unknown GCP or Azure profile each fail with the matching error |
| CloudConfig.SetupMissingFiles | install.py:55-74 | a known cloud whose pull secret cannot be read fails on that file; with the pull secret readable, a missing SSH key fails on the key file |
| CloudConfig.Take8 | install.py:197 | `uid[:8]` is the first `min(8, len)` characters |
| CloudConfig.GenerateClusterName | install.py:193-200 | a given `--name` is used as it is |
| CloudConfig.GeneratedNameParts | install.py:196-199 | a generated name splits back into the user before its first dash and the eight uuid characters after its last dash |
| CloudConfig.GetRunningClusters | install.py:361-364 | one directory per `*/metadata.json` match, each the part of the match before its first `/`, with no `/` in it |
| CloudConfig.RunningClustersRoundTrip | install.py:361-364 | the directories whose markers were globbed are returned, in glob order |
| CloudConfig.CloudData.constructor | install.py:50-59 | the config is the template with the platform, the normalised pull secret and the stripped SSH key; the environment is the inherited one |
| CloudConfig.CloudData.SetClusterName | install.py:61-62 | only `metadata.name` changes |
| CloudConfig.CloudData.SetPullSecret | install.py:64-68 | only `pullSecret` changes, to the normalised text |
| CloudConfig.CloudData.SetSshKey | install.py:70-74 | only `sshKey` changes, to the stripped text |
| CloudConfig.InitAws | install.py:124-142 | the AWS steps update the object exactly as `AwsSetup` describes and fail with its error |
| CloudConfig.GetCloudInfo | install.py:182-191 | returns a fresh object whose config and environment are those of `CloudSetup`, or its error |
| CloudConfig.ParentDir | install.py:80 | a path with a `/` is its parent, a `/` and its last component; a path without one lies in `.` |
| CloudConfig.ParentDirOfJoin | install.py:80 | the parent of a plain name joined onto a directory is that directory |
| CloudConfig.GetClusterDir | install.py:347-354 | the directory is `cwd/name`, the written config carries the cluster name, the environment is the cloud's; a setup error, an existing directory, or a name with a `/` whose parent directory is missing fails |
| VersionCatalogue.NameLineHasField | install.py:233-235 | a line that starts with `Name` has a last field |
| VersionCatalogue.FeedVersionSpec | install.py:231-241 | a feed announces nothing exactly when no line starts with `Name`; otherwise it announces the last field of the first such line |
| VersionCatalogue.ReadFeed | install.py:231-241 | the line loop stops at the first `Name` line and returns the version that `FeedVersion` names |
| VersionCatalogue.ChannelEntriesRemote | install.py:235-259 | every feed entry is keyed with its channel's prefix (`nightly-` or `v`) and is not cached |
| VersionCatalogue.ChannelOkIffReachable | install.py:227-249 | a channel listing succeeds exactly when every one of its feed URLs is reachable |
| VersionCatalogue.ChannelKeysGrow | install.py:226-241 | reading more feeds only adds entries |
| VersionCatalogue.ChannelListsFeed | install.py:226-261 | every feed that names a version contributes that version under the channel's prefix |
| VersionCatalogue.ChannelErrorPersists | install.py:230-249 | the first unreachable feed's error is the listing's result |
| VersionCatalogue.LatestChannelVersions | install.py:225-261 | the nightly loop over 4.3 and 4.4 and the release loop over 4.1 to 4.3 compute `ChannelVersions` of their minors |
| VersionCatalogue.PathVersion | install.py:290-299 | the PATH source has one entry, cached, whose url is the path found, and only when the binary exists and exits 0 |
| VersionCatalogue.PathVersionOf | install.py:293 | the output `openshift-install <v>` gives identifier `<v>` |
| VersionCatalogue.CachedEntries | install.py:263-274 | identifier `v` is in the cache catalogue exactly when file `openshift-install-v` is in `.bins`; its url is that file's path and it is cached |
| VersionCatalogue.CachedEntriesSnoc | install.py:267-273 | one more globbed file adds its stripped name, or nothing when it lacks the prefix |
| VersionCatalogue.WithFile | install.py:220 | the cache listing after writing a file holds exactly the old files and that file |
| VersionCatalogue.Merge | install.py:301-308 | the merged keys are the union, and each entry comes from the last source that has its key |
| VersionCatalogue.ListedCachedMeansLocal | install.py:301-308 | a merged entry is cached exactly when it names a cache file or the PATH binary; an unshadowed cache file supplies its own path |
| VersionCatalogue.CachedVersions | install.py:310-316 | exactly the cached entries, with their values |
| VersionCatalogue.LatestUnique | install.py:318-322 | the greatest identifier is unique |
| VersionCatalogue.LatestExists | install.py:318-322 | a non-empty set of identifiers has a greatest one |
| VersionCatalogue.Latest | install.py:318-322 | the chosen identifier is the greatest in the set |
| VersionCatalogue.LatestVersion | install.py:318-322 | an empty table fails with `IndexError`; otherwise the result is the greatest key in string order |
| VersionCatalogue.LatestIsNotNumeric | install.py:321 | `v4.9.0` sorts after `v4.10.0` |
| VersionCatalogue.SelectVersion | install.py:326-330 | the chosen version is `--version`, else the latest cached one when asked for, else the picker's choice |
| VersionCatalogue.DownloadTarget | install.py:212-223 | a url starting with `/` is returned as it is; any other success fetched a known archive into `.bins/openshift-install-<version>` |
| VersionCatalogue.ResolveAgainIsLocal | install.py:212-333 | after a download, resolving the same version again finds it in the cache: the same path, no new file |
| VersionCatalogue.Versions.constructor | install.py:203-210 | the cache directory is `<cwd>/.bins`, an absolute path |
| VersionCatalogue.Versions.GetCachedVersions | install.py:263-274 | the glob loop builds `CachedEntries` of the cache listing |
| VersionCatalogue.Versions.ListVersions | install.py:301-308 | the four updates produce `ListedVersions` |
| VersionCatalogue.Versions.DownloadVersion | install.py:212-223 | the result is `DownloadTarget`; the cache gains the file exactly when a download happened |
| VersionCatalogue.Versions.GetVersion | install.py:324-333 | the result, the error and the new cache listing are those of `Resolve`; `install_path` takes the resulting path, as `__init__` assigns it |
| Fleet.AddIfMissingSpec | install-all.py:23-33 | adding a missing key appends it to the key order, keeps every other value and keeps the dict well formed |
| Fleet.MissingKeysMembers | install-all.py:26-33 | the keys that get added are exactly the tested keys that were missing |
| Fleet.MissingKeysIgnores | install-all.py:26-33 | setting a key that is not tested does not change which tested keys are missing |
| Fleet.FillKeysSpec | install-all.py:26-33 | testing distinct keys in order appends the missing ones in order, keeps old values and gives each added key its default |
| Fleet.FillKeysValid | install-all.py:26-33 | filling keeps a dict well formed |
| Fleet.FillSpec | install-all.py:26-33 | `version`, `master-size`, `worker-size` and `profile` are present afterwards, with `v4.3.0` or `default` when they were missing |
| Fleet.FillValid | install-all.py:26-33 | the fill keeps a dict well formed |
| Fleet.DefaultsComplete | install-all.py:21-34 | after defaulting, name, cloud and every defaulted key are present; old keys keep place and value; nothing else is added |
| Fleet.WithDefaultsValid | install-all.py:21-34 | defaulting keeps a dict well formed |
| Fleet.DefaultsNaming | install-all.py:22-25 | an unnamed cluster is named `summit-<cloud><n>` from its cloud's counter, which alone moves by one; a named one keeps its name and moves no counter |
| Fleet.DefaultsFailure | install-all.py:22-24 | defaulting fails exactly when `cloud` is missing, or the cluster is unnamed and its cloud has no counter |
| Fleet.NamedUpTo | install-all.py:40-42 | a successful naming run has one cluster per input |
| Fleet.DefaultUpTo | install-all.py:40-42 | a successful run over the first `k` clusters has `k` outputs |
| Fleet.DefaultAll | install-all.py:36-43 | a successful run has one cluster per loaded cluster |
| Fleet.DefaultUpToStep | install-all.py:40-42 | one more cluster succeeds exactly when the run so far and that cluster's defaulting succeed, and then it is appended |
| Fleet.DefaultUpToStops | install-all.py:40-42 | the first cluster that fails to default makes every longer run fail with its error |
| Fleet.DefaultUpToValid | install-all.py:36-43 | well-formed clusters stay well formed through a run |
| Fleet.UnnamedBeforeGrows | install-all.py:24-25 | the count of unnamed clusters of a cloud never decreases along the file |
| Fleet.NamedUpToCounters | install-all.py:25 | after `k` clusters each counter has advanced by the number of unnamed clusters of its cloud among them |
| Fleet.NamedUpToKeeps | install-all.py:40-42 | a longer run names the earlier clusters as a shorter one does |
| Fleet.NamedUpToStep | install-all.py:40-42 | a run of `k+1` is the run of `k` and then the next cluster named with the counters that run left |
| Fleet.NamedName | install-all.py:24 | an unnamed cluster is named after its cloud's counter |
| Fleet.NamedUpToNameAt | install-all.py:24-42 | the `i`th unnamed cluster of a cloud is numbered from its starting counter plus the unnamed clusters of that cloud before it |
| Fleet.NamedUpToClouds | install-all.py:13-25 | a run counts the same clouds after as before |
| Fleet.DefaultAllCounters | install-all.py:13-43 | after a whole file the same clouds are counted, and each counter has moved by exactly its cloud's unnamed clusters |
| Fleet.DefaultAllNameAt | install-all.py:24-43 | in the defaulted file the unnamed cluster at `i` is `summit-<cloud><start + unnamed before i>` |
| Fleet.UnnamedNamesDistinct | install-all.py:24-25 | two unnamed clusters of one cloud get different names |
| Fleet.KeptKeys | install-all.py:48-52 | never more emitted keys than dict keys |
| Fleet.KeptKeysMembers | install-all.py:48-52 | a key is emitted exactly when it is in the dict and is in the action's key list |
| Fleet.KeptKeysWithin | install-all.py:48-53 | only keys of the dict are emitted |
| Fleet.KeptKeysStep | install-all.py:48-56 | the next dict key is emitted after the others exactly when it is kept |
| Fleet.FlagsSnoc | install-all.py:56 | the next kept key's flag follows the earlier flags |
| Fleet.DestroyFlagNotVersion | install-all.py:19-56 | neither destroy key gives a flag that starts with `--version=` |
| Fleet.FlagRoundTrip | install-all.py:54-56 | each flag parses back to its key and to the value meant, with `user-` before a name |
| Fleet.DestroyDropsVersion | install-all.py:19-57 | a destroy argument vector never carries `--version` |
| Fleet.GetClusterArg | install-all.py:45-57 | the vector is the action, then one `--key=value` flag per kept key in dict order |
| Fleet.ClusterArgs | install-all.py:67-71 | one vector per cluster, in order, each the cluster's argument vector |
| Fleet.FillByTests | install-all.py:26-33 | the fill is the four `if key not in cluster` tests run one after another |
| Fleet.FillMissing | install-all.py:26-33 | the four tests compute `Fill` |
| Fleet.Driver.constructor | install-all.py:9-17 | the counters start at zero for aws, gcp and azure |
| Fleet.Driver.SetClusterDefaults | install-all.py:21-34 | the result and the new counters are those of `WithDefaults`; a failure leaves the counters unchanged |
| Fleet.Driver.GetAllClusters | install-all.py:36-43 | success exactly when `DefaultAll` succeeds, with its clusters and counters; on failure the counters are those left by the clusters before the failing one |
| Fleet.Driver.GetArgs | install-all.py:60-71 | an unknown action fails with no counter moved; otherwise success exactly when defaulting succeeds, with one argument vector per defaulted cluster |

## Left out

- Network and archive I/O: `urlopen`, `urlretrieve`, `tarfile` and writing and `chmod` of the binary. Feeds and downloadable archives are the `Network` input; a download is modelled only by its resulting path and the new cache file.
- Subprocesses: `openshift-install version`, `create cluster` and `destroy cluster`. The version probe is the `PathProbe` input. `Versions.install` and `Versions.destroy` only run the installer in a directory, so they are not part of this model.
- `which` and `os.access`: the search of PATH is folded into `PathProbe`.
- File system access: `os.getcwd`, `os.chdir`, `os.makedirs`, `glob.glob`, `shutil.rmtree` and `open`. Their results are inputs (the cwd, the `.bins` listing, the glob matches, the files that can be read). A directory that already exists is a set.
- `yaml.safe_load` and `yaml.dump`: the template is a record and `write_install_config` is modelled by its written record. Loaded YAML values are strings.
- `get_credentials`: the `configparser` read of `~/.aws/credentials` only feeds the picker, whose answer is an input.
- `pick`, `getpass.getuser`, `uuid.uuid4` and `os.environ`: these are parameters.
- Python dict aliasing: `set_cluster_defaults` mutates the dict it is given and returns it. Dicts are values here, so the model returns the new dict. `get_all_clusters` writes each result back into its array, as the source writes `clusters[i]`.
- `install_cluster`, `cluster_to_destroy`, `destroy_cluster`, `SingleInstaller` and argparse: these are command-line wiring. Absent flags are `""`.
- `do_args`, the `multiprocessing` pool and the create and destroy entry points of install-all.py: these only fan the argument vectors out to concurrent runs.
- Fleet.Driver.GetArgs: requires every loaded cluster to be well formed (distinct keys, each with a value), which any dict from `yaml.safe_load` is.
- CloudConfig.GetClusterDir: paths are not normalised, so a name with `.`, `..`, a repeated `/` or a trailing `/` is treated as the literal string; a parent that is a file rather than a directory is not modelled.
- CloudConfig.GenerateClusterName: its own contract states only the given-name case; the generated form is stated by `GeneratedNameParts`.
- VersionCatalogue.DownloadTarget: a version containing `/` is treated as a failed write of the cache file, which is what the nonexistent sub-directory would cause.
