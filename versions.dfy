/**
 The catalogue of `openshift-install` builds and the choice of one of them (class
 `Versions` of install.py). The catalogue maps a version identifier to where the
 binary comes from and whether it is already on local disk; it is merged from the
 nightly feeds, the release feeds, the local cache directory `.bins` and the binary
 found on PATH, in that order, each later source overwriting the earlier ones.

 The network is an input: the response lines of every reachable feed URL and the
 set of archive URLs that can be fetched and hold an `openshift-install` member.
 Probing PATH and running `openshift-install version` is an input too.
 */
module VersionCatalogue {
  import opened Wrappers
  import opened Strings

  /** One catalogue row: `{'url': url, 'cached': cached}`. */
  datatype Entry = Entry(url: string, cached: bool)

  type Catalogue = map<string, Entry>

  /** The exceptions the Python code lets escape, one per cause. */
  datatype Error =
    | FeedUnreachable(url: string)        // urlopen raised
    | NotOnPath                           // which() gave None and subprocess.run([None, ...]) raised
    | VersionCommandFailed(exitCode: int) // `openshift-install version` exited non-zero (check=True)
    | MalformedVersionOutput              // IndexError from split()[-1] on the first output line
    | NoCachedVersion                     // IndexError from versions[-1] on an empty list
    | UnknownVersion(version: string)     // KeyError from versions[version]
    | DownloadFailed(url: string)         // urlretrieve or tarfile.extractfile raised
    | CacheWriteFailed(path: string)      // open(file_name, 'wb') raised

  /** What the network returns: the lines of each reachable feed and the archive URLs
      that download and contain an `openshift-install` entry. */
  datatype Network = Network(feeds: map<string, seq<string>>, archives: set<string>)

  /** The outcome of looking for `openshift-install` on PATH and running its `version` command. */
  datatype PathProbe = NotFound | Found(path: string, exitCode: int, stdout: string)

  datatype Channel = Nightly | Release

  const MirrorBase := "https://mirror.openshift.com/pub/openshift-v4/clients/"
  const CachePrefix := "openshift-install-"

  /** The minor versions each channel asks for: `range(3, 5)` and `range(1, 4)`. */
  function Minors(ch: Channel): seq<nat> {
    match ch
    case Nightly => [3, 4]
    case Release => [1, 2, 3]
  }

  function Major(minor: nat): string {
    "4." + NatToString(minor)
  }

  function FeedUrl(ch: Channel, minor: nat): string {
    MirrorBase + (if ch == Nightly then "ocp-dev-preview" else "ocp")
    + "/latest-" + Major(minor) + "/release.txt"
  }

  /** The download URL of a version; both channels build it under `ocp/`. */
  function ArchiveUrl(minor: nat, version: string): string {
    MirrorBase + "ocp/latest-" + Major(minor) + "/openshift-install-linux-" + version + ".tar.gz"
  }

  function KeyPrefix(ch: Channel): string {
    if ch == Nightly then "nightly-" else "v"
  }

  /** The name `download_version` gives the cached binary of `version`. */
  function CacheFileName(version: string): string {
    CachePrefix + version
  }

  // ---------------------------------------------------------------------------
  // Feed parsing (get_latest_nightly_versions / get_latest_release_versions)

  predicate IsNameLine(line: string) {
    StartsWith(line, "Name")
  }

  lemma NameLineHasField(line: string)
    requires IsNameLine(line)
    ensures !AllSpace(line)
  {
    assert line[0] == 'N';
  }

  predicate IsFirstNameLine(lines: seq<string>, i: int) {
    && 0 <= i < |lines|
    && IsNameLine(lines[i])
    && forall j :: 0 <= j < i ==> !IsNameLine(lines[j])
  }

  /** The version a feed announces: the last whitespace-separated field of its first
      line that starts with `Name`; none when no line does. */
  function FeedVersion(lines: seq<string>): Option<string> {
    if lines == [] then None
    else if IsNameLine(lines[0]) then
      NameLineHasField(lines[0]);
      Some(LastField(lines[0]))
    else FeedVersion(lines[1..])
  }

  /** A feed announces nothing exactly when none of its lines starts with `Name`;
      otherwise it announces the last field of the first such line, which is not
      blank. */
  lemma {:induction false} FeedVersionSpec(lines: seq<string>)
    ensures FeedVersion(lines).None? <==> forall i :: 0 <= i < |lines| ==> !IsNameLine(lines[i])
    ensures FeedVersion(lines).Some? ==>
      exists i :: IsFirstNameLine(lines, i) && !AllSpace(lines[i]) && FeedVersion(lines).value == LastField(lines[i])
  {
    if lines == [] {
    } else if IsNameLine(lines[0]) {
      NameLineHasField(lines[0]);
      assert IsFirstNameLine(lines, 0);
    } else {
      FeedVersionSpec(lines[1..]);
      var v := FeedVersion(lines[1..]);
      assert forall i :: 1 <= i < |lines| ==> lines[i] == lines[1..][i - 1];
      if v.Some? {
        var i :| IsFirstNameLine(lines[1..], i) && !AllSpace(lines[1..][i]) && v.value == LastField(lines[1..][i]);
        assert IsFirstNameLine(lines, i + 1);
      }
    }
  }

  /** The line loop of one feed: stop at the first `Name` line and keep its last field. */
  method ReadFeed(lines: seq<string>) returns (v: Option<string>)
    ensures v == FeedVersion(lines)
  {
    var i := 0;
    v := None;
    while i < |lines|
      invariant 0 <= i <= |lines|
      invariant FeedVersion(lines[i..]) == FeedVersion(lines)
    {
      var line := lines[i];
      if !IsNameLine(line) {
        assert lines[i..][1..] == lines[i + 1..];
        i := i + 1;
        continue;
      }
      NameLineHasField(line);
      v := Some(LastField(line));
      return;
    }
  }

  /** Reading one more feed into a channel's entries. */
  function AddFeed(ch: Channel, net: Network, m: Catalogue, minor: nat): Result<Catalogue, Error> {
    var feed := FeedUrl(ch, minor);
    if feed !in net.feeds then Err(FeedUnreachable(feed))
    else
      match FeedVersion(net.feeds[feed])
      case None => Ok(m)
      case Some(v) => Ok(m[KeyPrefix(ch) + v := Entry(ArchiveUrl(minor, v), false)])
  }

  /** The entries of one channel after its feeds for the first `k` of `minors` were
      read in order; the first unreachable feed aborts the whole listing. */
  function ChannelUpTo(ch: Channel, net: Network, minors: seq<nat>, k: nat): Result<Catalogue, Error>
    requires k <= |minors|
  {
    if k == 0 then Ok(map[])
    else
      match ChannelUpTo(ch, net, minors, k - 1)
      case Err(e) => Err(e)
      case Ok(m) => AddFeed(ch, net, m, minors[k - 1])
  }

  /** The entries of one channel after all its feeds were read. */
  function ChannelVersions(ch: Channel, net: Network, minors: seq<nat>): Result<Catalogue, Error> {
    ChannelUpTo(ch, net, minors, |minors|)
  }

  /** Every entry a feed contributes is remote: keyed with the channel's prefix and not cached. */
  lemma {:induction false} ChannelEntriesRemote(ch: Channel, net: Network, minors: seq<nat>, k: nat)
    requires k <= |minors| && ChannelUpTo(ch, net, minors, k).Ok?
    ensures forall key :: key in ChannelUpTo(ch, net, minors, k).value ==>
              StartsWith(key, KeyPrefix(ch)) && !ChannelUpTo(ch, net, minors, k).value[key].cached
  {
    if k > 0 {
      ChannelEntriesRemote(ch, net, minors, k - 1);
    }
  }

  /** A channel listing succeeds exactly when each of its feeds is reachable. */
  lemma {:induction false} ChannelOkIffReachable(ch: Channel, net: Network, minors: seq<nat>, k: nat)
    requires k <= |minors|
    ensures ChannelUpTo(ch, net, minors, k).Ok? <==> forall i :: 0 <= i < k ==> FeedUrl(ch, minors[i]) in net.feeds
  {
    if k > 0 {
      ChannelOkIffReachable(ch, net, minors, k - 1);
      assert ChannelUpTo(ch, net, minors, k).Ok? <==>
        ChannelUpTo(ch, net, minors, k - 1).Ok? && FeedUrl(ch, minors[k - 1]) in net.feeds;
    }
  }

  /** Entries are only ever added: a successful listing keeps what a shorter one
      listed. */
  lemma {:induction false} ChannelKeysGrow(ch: Channel, net: Network, minors: seq<nat>, k: nat, n: nat)
    requires k <= n <= |minors|
    requires ChannelUpTo(ch, net, minors, n).Ok?
    ensures ChannelUpTo(ch, net, minors, k).Ok?
    ensures ChannelUpTo(ch, net, minors, k).value.Keys <= ChannelUpTo(ch, net, minors, n).value.Keys
    decreases n
  {
    if k < n {
      ChannelKeysGrow(ch, net, minors, k, n - 1);
    }
  }

  /** In a successful listing every feed that names a version contributes that
      version under the channel's prefix. */
  lemma ChannelListsFeed(ch: Channel, net: Network, minors: seq<nat>, i: nat)
    requires ChannelVersions(ch, net, minors).Ok?
    requires i < |minors|
    ensures FeedUrl(ch, minors[i]) in net.feeds
    ensures FeedVersion(net.feeds[FeedUrl(ch, minors[i])]).Some? ==>
              KeyPrefix(ch) + FeedVersion(net.feeds[FeedUrl(ch, minors[i])]).value in ChannelVersions(ch, net, minors).value
  {
    ChannelKeysGrow(ch, net, minors, i + 1, |minors|);
  }

  /** Once the feeds read so far fail, the whole listing fails with that error. */
  lemma {:induction false} ChannelErrorPersists(ch: Channel, net: Network, minors: seq<nat>, k: nat, n: nat)
    requires k <= n <= |minors|
    requires ChannelUpTo(ch, net, minors, k).Err?
    ensures ChannelUpTo(ch, net, minors, n) == ChannelUpTo(ch, net, minors, k)
    decreases n
  {
    if k < n {
      ChannelErrorPersists(ch, net, minors, k, n - 1);
    }
  }

  /** `get_latest_nightly_versions` (Nightly) and `get_latest_release_versions` (Release). */
  method LatestChannelVersions(ch: Channel, net: Network) returns (r: Result<Catalogue, Error>)
    ensures r == ChannelVersions(ch, net, Minors(ch))
  {
    var minors := Minors(ch);
    var versions: Catalogue := map[];
    for k := 0 to |minors|
      invariant ChannelUpTo(ch, net, minors, k) == Ok(versions)
    {
      var minor := minors[k];
      assert ChannelUpTo(ch, net, minors, k + 1) == AddFeed(ch, net, versions, minor);
      var feed := FeedUrl(ch, minor);
      if feed !in net.feeds {
        ChannelErrorPersists(ch, net, minors, k + 1, |minors|);
        return Err(FeedUnreachable(feed));
      }
      var v := ReadFeed(net.feeds[feed]);
      if v.Some? {
        versions := versions[KeyPrefix(ch) + v.value := Entry(ArchiveUrl(minor, v.value), false)];
      }
    }
    return Ok(versions);
  }

  // ---------------------------------------------------------------------------
  // The binary on PATH (get_path_version)

  /** The on-PATH source: its version is the last field of the first line that
      `openshift-install version` prints, its url the path found. */
  function PathVersion(probe: PathProbe): (r: Result<Catalogue, Error>)
    ensures r.Ok? ==> probe.Found? && probe.exitCode == 0 && |r.value| == 1
    ensures r.Ok? ==> forall k :: k in r.value ==> r.value[k] == Entry(probe.path, true)
  {
    match probe
    case NotFound => Err(NotOnPath)
    case Found(path, code, out) =>
      if code != 0 then Err(VersionCommandFailed(code))
      else
        var first := UpTo(out, '\n');
        if AllSpace(first) then Err(MalformedVersionOutput)
        else Ok(map[LastField(first) := Entry(path, true)])
  }

  /** What `openshift-install version` prints first, `openshift-install <v>`, gives the identifier `<v>`. */
  lemma PathVersionOf(path: string, v: string, rest: string)
    requires v != [] && NoSpace(v)
    ensures PathVersion(Found(path, 0, "openshift-install " + v + "\n" + rest)) == Ok(map[v := Entry(path, true)])
  {
    var line := "openshift-install " + v;
    assert IsSpace('\n');
    assert '\n' !in line by {
      forall i | 0 <= i < |line| ensures line[i] != '\n' {
        if i >= 18 { assert line[i] == v[i - 18]; }
      }
    }
    assert "openshift-install " + v + "\n" + rest == line + ['\n'] + rest;
    UpToPrefix(line, '\n', rest);
    LastFieldOf("openshift-install ", v, "");
    assert line == "openshift-install " + v + "";
  }

  // ---------------------------------------------------------------------------
  // The local cache (get_cached_versions) and the merge (list_versions)

  /** The cache directory read back as catalogue entries: file `openshift-install-<v>`
      in `bdir` is identifier `<v>`, its full path is the url and it is cached. */
  function CachedEntries(bdir: string, names: seq<string>): (r: Catalogue)
    ensures forall v :: v in r <==> CacheFileName(v) in names
    ensures forall v :: v in r ==> r[v] == Entry(PathJoin(bdir, CacheFileName(v)), true)
  {
    var ids := set n | n in names && StartsWith(n, CachePrefix) :: n[|CachePrefix|..];
    assert forall v :: CacheFileName(v) in names ==> CacheFileName(v)[|CachePrefix|..] == v;
    assert forall n :: StartsWith(n, CachePrefix) ==> n == CacheFileName(n[|CachePrefix|..]);
    map v | v in ids :: Entry(PathJoin(bdir, CacheFileName(v)), true)
  }

  /** The listing read one more file name further, as the glob loop does. */
  lemma CachedEntriesSnoc(bdir: string, names: seq<string>, n: string)
    ensures CachedEntries(bdir, names + [n]) ==
      if StartsWith(n, CachePrefix) then CachedEntries(bdir, names)[n[|CachePrefix|..] := Entry(PathJoin(bdir, n), true)]
      else CachedEntries(bdir, names)
  {
    if StartsWith(n, CachePrefix) {
      assert n == CacheFileName(n[|CachePrefix|..]);
    } else {
      assert forall v :: CacheFileName(v) != n;
    }
  }

  /** The listing after one more file is written to it. */
  function WithFile(names: seq<string>, n: string): (r: seq<string>)
    ensures n in r && forall m :: m in r <==> m in names || m == n
  {
    if n in names then names else names + [n]
  }

  /** The four successive `dict.update` calls: a key takes its entry from the last
      source that has it; every key of every source is present. */
  function Merge(nightly: Catalogue, release: Catalogue, cached: Catalogue, onPath: Catalogue): (r: Catalogue)
    ensures r.Keys == nightly.Keys + release.Keys + cached.Keys + onPath.Keys
    ensures forall k :: k in onPath ==> r[k] == onPath[k]
    ensures forall k :: k in cached && k !in onPath ==> r[k] == cached[k]
    ensures forall k :: k in release && k !in cached && k !in onPath ==> r[k] == release[k]
    ensures forall k :: k in nightly && k !in release && k !in cached && k !in onPath ==> r[k] == nightly[k]
  {
    var versions: Catalogue := map[];
    var versions := versions + nightly;
    var versions := versions + release;
    var versions := versions + cached;
    versions + onPath
  }

  /** `list_versions` given the cache listing, the network and the PATH probe. */
  function ListedVersions(bdir: string, names: seq<string>, net: Network, probe: PathProbe): Result<Catalogue, Error> {
    var nightly :- ChannelVersions(Nightly, net, Minors(Nightly));
    var release :- ChannelVersions(Release, net, Minors(Release));
    var onPath :- PathVersion(probe);
    Ok(Merge(nightly, release, CachedEntries(bdir, names), onPath))
  }

  /** Local sources win: in the merged catalogue an entry is cached exactly when its
      identifier names a file of the cache directory or the binary on PATH, and a cache
      file that is not shadowed by the PATH binary supplies its own path as the url. */
  lemma ListedCachedMeansLocal(bdir: string, names: seq<string>, net: Network, probe: PathProbe)
    requires ListedVersions(bdir, names, net, probe).Ok?
    ensures var m := ListedVersions(bdir, names, net, probe).value;
      forall k :: k in m ==> (m[k].cached <==> CacheFileName(k) in names || k in PathVersion(probe).value)
    ensures var m := ListedVersions(bdir, names, net, probe).value;
      forall k :: CacheFileName(k) in names && k !in PathVersion(probe).value ==>
        k in m && m[k] == Entry(PathJoin(bdir, CacheFileName(k)), true)
  {
    ChannelEntriesRemote(Nightly, net, Minors(Nightly), |Minors(Nightly)|);
    ChannelEntriesRemote(Release, net, Minors(Release), |Minors(Release)|);
  }

  // ---------------------------------------------------------------------------
  // Selection (cached_versions, latest_version, get_version)

  /** `cached_versions`: exactly the cached entries, values unchanged. */
  method CachedVersions(versions: Catalogue) returns (out: Catalogue)
    ensures forall k :: k in out <==> k in versions && versions[k].cached
    ensures forall k :: k in out ==> out[k] == versions[k]
  {
    out := map[];
    var todo := versions.Keys;
    while todo != {}
      invariant todo <= versions.Keys
      invariant forall k :: k in out <==> k in versions && k !in todo && versions[k].cached
      invariant forall k :: k in out ==> out[k] == versions[k]
      decreases |todo|
    {
      var version :| version in todo;
      todo := todo - {version};
      if !versions[version].cached {
        continue;
      }
      out := out[version := versions[version]];
    }
  }

  /** `k` is what sorting `keys` and taking the last element gives. */
  ghost predicate IsLatest(k: string, keys: set<string>) {
    k in keys && forall j :: j in keys ==> j == k || LexLess(j, k)
  }

  lemma LatestUnique(keys: set<string>, a: string, b: string)
    requires IsLatest(a, keys) && IsLatest(b, keys)
    ensures a == b
  {
    if a != b {
      LexLessAsymmetric(a, b);
    }
  }

  lemma {:induction false} LatestExists(keys: set<string>)
    requires keys != {}
    ensures exists k :: IsLatest(k, keys)
    decreases |keys|
  {
    var x :| x in keys;
    var rest := keys - {x};
    if rest == {} {
      assert keys == {x};
      assert IsLatest(x, keys);
    } else {
      LatestExists(rest);
      var m :| IsLatest(m, rest);
      if LexLess(m, x) {
        forall j | j in keys ensures j == x || LexLess(j, x) {
          if j != x && j != m { LexLessTransitive(j, m, x); }
        }
        assert IsLatest(x, keys);
      } else {
        if x != m { LexLessTotal(x, m); }
        assert IsLatest(m, keys);
      }
    }
  }

  /** The lexicographically greatest of a non-empty set of identifiers. */
  ghost function Latest(keys: set<string>): (k: string)
    requires keys != {}
    ensures IsLatest(k, keys)
  {
    LatestExists(keys);
    var k :| IsLatest(k, keys);
    k
  }

  /** `latest_version`: the greatest key in Python's string order; an empty table
      raises IndexError. */
  method LatestVersion(versionDict: Catalogue) returns (r: Result<string, Error>)
    ensures r.Err? <==> versionDict == map[]
    ensures r.Err? ==> r.error == NoCachedVersion
    ensures r.Ok? ==> IsLatest(r.value, versionDict.Keys)
  {
    var todo := versionDict.Keys;
    if todo == {} {
      assert versionDict == map[];
      return Err(NoCachedVersion);
    }
    var best :| best in todo;
    todo := todo - {best};
    while todo != {}
      invariant todo <= versionDict.Keys && best in versionDict.Keys && best !in todo
      invariant forall j :: j in versionDict && j !in todo ==> j == best || LexLess(j, best)
      decreases |todo|
    {
      var k :| k in todo;
      if LexLess(best, k) {
        forall j | j in versionDict && j !in todo && j != best ensures LexLess(j, k) {
          LexLessTransitive(j, best, k);
        }
        best := k;
      } else {
        LexLessTotal(best, k);
      }
      todo := todo - {k};
    }
    return Ok(best);
  }

  /** Python's string order is not version order: `v4.10.0` sorts before `v4.9.0`,
      so the latest cached version of these two is `v4.9.0`. */
  lemma LatestIsNotNumeric()
    ensures IsLatest("v4.9.0", {"v4.9.0", "v4.10.0"})
  {
    var a, b := "v4.10.0", "v4.9.0";
    assert a[1..] == "4.10.0" && b[1..] == "4.9.0";
    assert a[1..][1..] == ".10.0" && b[1..][1..] == ".9.0";
    assert a[1..][1..][1..] == "10.0" && b[1..][1..][1..] == "9.0";
    assert LexLess("10.0", "9.0");
  }

  /** The identifier `get_version` settles on before looking it up: `--version` when
      given; else, when asked for the latest cached one, the greatest cached
      identifier (IndexError when none is cached); an identifier still empty falls
      to the picker, whose choice is `picked`. */
  ghost function Selected(versions: Catalogue, requested: string, latestCached: bool, picked: string): Result<string, Error> {
    var version :-
      if requested == "" && latestCached then
        var cachedKeys := set k | k in versions && versions[k].cached;
        if cachedKeys == {} then Err(NoCachedVersion) else Ok(Latest(cachedKeys))
      else Ok(requested);
    Ok(if version == "" then picked else version)
  }

  /** The version `get_version` settles on: the requested one, else the latest
      cached one when asked for, else the picker's choice. */
  method SelectVersion(versions: Catalogue, requested: string, latestCached: bool, picked: string)
    returns (r: Result<string, Error>)
    ensures r == Selected(versions, requested, latestCached, picked)
  {
    var version := requested;
    if version == "" && latestCached {
      var cached := CachedVersions(versions);
      assert cached.Keys == set k | k in versions && versions[k].cached;
      version :- LatestVersion(cached);
      LatestUnique(cached.Keys, version, Latest(cached.Keys));
    }
    if version == "" {
      version := picked;
    }
    return Ok(version);
  }

  /** `download_version`'s result: a url that starts with `/` is already a local
      binary; otherwise the archive is fetched and its binary written to the cache. */
  function DownloadTarget(bdir: string, version: string, url: string, archives: set<string>): (r: Result<string, Error>)
    ensures StartsWith(url, "/") ==> r == Ok(url)
    ensures !StartsWith(url, "/") && r.Ok? ==> r.value == PathJoin(bdir, CacheFileName(version)) && url in archives
  {
    if StartsWith(url, "/") then Ok(url)
    else if url !in archives then Err(DownloadFailed(url))
    else if '/' in version then Err(CacheWriteFailed(PathJoin(bdir, CacheFileName(version))))
    else Ok(PathJoin(bdir, CacheFileName(version)))
  }

  datatype Resolution = Resolution(version: string, url: string, path: string)

  /** The whole of `get_version`: list, select, look up, download. */
  ghost function Resolve(bdir: string, names: seq<string>, net: Network, probe: PathProbe,
                         requested: string, latestCached: bool, picked: string): Result<Resolution, Error>
  {
    var versions :- ListedVersions(bdir, names, net, probe);
    var version :- Selected(versions, requested, latestCached, picked);
    if version !in versions then Err(UnknownVersion(version))
    else
      var url := versions[version].url;
      var path :- DownloadTarget(bdir, version, url, net.archives);
      Ok(Resolution(version, url, path))
  }

  /** The cache listing after a resolution: one more file when a download happened. */
  ghost function CacheAfter(names: seq<string>, res: Result<Resolution, Error>): seq<string> {
    if res.Ok? && !StartsWith(res.value.url, "/") then WithFile(names, CacheFileName(res.value.version)) else names
  }

  /** Resolving again what was just downloaded is a pure cache lookup: the same path,
      found through the cache directory, with no download. */
  lemma ResolveAgainIsLocal(bdir: string, names: seq<string>, net: Network, probe: PathProbe,
                            requested: string, latestCached: bool, picked: string,
                            latestCached': bool, picked': string)
    requires StartsWith(bdir, "/")
    requires Resolve(bdir, names, net, probe, requested, latestCached, picked).Ok?
    requires var res := Resolve(bdir, names, net, probe, requested, latestCached, picked).value;
      res.version != "" && !StartsWith(res.url, "/") && res.version !in PathVersion(probe).value
    ensures var res := Resolve(bdir, names, net, probe, requested, latestCached, picked).value;
      var names' := CacheAfter(names, Resolve(bdir, names, net, probe, requested, latestCached, picked));
      && Resolve(bdir, names', net, probe, res.version, latestCached', picked') == Ok(Resolution(res.version, res.path, res.path))
      && CacheAfter(names', Resolve(bdir, names', net, probe, res.version, latestCached', picked')) == names'
  {
    var res := Resolve(bdir, names, net, probe, requested, latestCached, picked).value;
    var v := res.version;
    var names' := WithFile(names, CacheFileName(v));
    var file := PathJoin(bdir, CacheFileName(v));
    assert res.path == file;
    JoinAbsolute(bdir, CacheFileName(v));
    ListedCachedMeansLocal(bdir, names', net, probe);
    var m := ListedVersions(bdir, names', net, probe).value;
    assert m[v] == Entry(file, true);
    assert Selected(m, v, latestCached', picked') == Ok(v);
  }

  // ---------------------------------------------------------------------------
  // The object

  class Versions {
    /** The cache directory `<cwd>/.bins`. */
    var bdir: string
    /** The binary chosen by `get_version`; empty until then. */
    var installPath: string
    /** The names of the files in `bdir`, as a directory listing gives them. */
    var cacheFiles: seq<string>

    ghost predicate Valid()
      reads this
    {
      && StartsWith(bdir, "/")
      && forall n :: n in cacheFiles ==> '/' !in n
    }

    /** `bin_cache_dir`: the cache sits under the working directory, which is absolute. */
    constructor (cwd: string, listing: seq<string>)
      requires StartsWith(cwd, "/")
      requires forall n :: n in listing ==> '/' !in n
      ensures Valid()
      ensures bdir == PathJoin(cwd, ".bins") && cacheFiles == listing && installPath == ""
    {
      bdir := PathJoin(cwd, ".bins");
      cacheFiles := listing;
      installPath := "";
      JoinAbsolute(cwd, ".bins");
    }

    /** `get_cached_versions`: glob `openshift-install-*` in `bdir`, strip the prefix
        from each file name. */
    method GetCachedVersions() returns (versions: Catalogue)
      requires Valid()
      ensures versions == CachedEntries(bdir, cacheFiles)
    {
      versions := map[];
      for i := 0 to |cacheFiles|
        invariant versions == CachedEntries(bdir, cacheFiles[..i])
      {
        var n := cacheFiles[i];
        assert cacheFiles[..i + 1] == cacheFiles[..i] + [n];
        CachedEntriesSnoc(bdir, cacheFiles[..i], n);
        if !StartsWith(n, CachePrefix) {
          continue;
        }
        var f := PathJoin(bdir, n);
        FileNameOfJoin(bdir, n);
        var name := AfterLast(f, '/');
        var version := name[|CachePrefix|..];
        versions := versions[version := Entry(f, true)];
      }
      assert cacheFiles[..|cacheFiles|] == cacheFiles;
    }

    /** `list_versions`: nightly, then release, then cache, then PATH, each overwriting. */
    method ListVersions(net: Network, probe: PathProbe) returns (r: Result<Catalogue, Error>)
      requires Valid()
      ensures r == ListedVersions(bdir, cacheFiles, net, probe)
    {
      var versions: Catalogue := map[];
      var nightly :- LatestChannelVersions(Nightly, net);
      versions := versions + nightly;
      var release :- LatestChannelVersions(Release, net);
      versions := versions + release;
      var cached := GetCachedVersions();
      versions := versions + cached;
      var onPath :- PathVersion(probe);
      versions := versions + onPath;
      return Ok(versions);
    }

    /** `download_version`: a local path is returned as it is; otherwise the binary is
        fetched, written to `bdir/openshift-install-<version>` and that path returned. */
    method DownloadVersion(version: string, url: string, archives: set<string>) returns (r: Result<string, Error>)
      requires Valid()
      modifies this
      ensures Valid() && bdir == old(bdir) && installPath == old(installPath)
      ensures r == DownloadTarget(bdir, version, url, archives)
      ensures cacheFiles == if r.Ok? && !StartsWith(url, "/") then WithFile(old(cacheFiles), CacheFileName(version)) else old(cacheFiles)
    {
      if StartsWith(url, "/") {
        return Ok(url);
      }
      var fileName := PathJoin(bdir, CacheFileName(version));
      if url !in archives {
        return Err(DownloadFailed(url));
      }
      if '/' in version {
        return Err(CacheWriteFailed(fileName));
      }
      assert '/' !in CacheFileName(version);
      cacheFiles := WithFile(cacheFiles, CacheFileName(version));
      return Ok(fileName);
    }

    /** `get_version`, and the assignment of its result to `install_path` in `__init__`. */
    method GetVersion(requested: string, latestCached: bool, net: Network, probe: PathProbe, picked: string)
      returns (r: Result<string, Error>)
      requires Valid()
      modifies this
      ensures Valid() && bdir == old(bdir)
      ensures var res := Resolve(old(bdir), old(cacheFiles), net, probe, requested, latestCached, picked);
        && (r.Ok? <==> res.Ok?)
        && (r.Ok? ==> r.value == res.value.path)
        && (r.Err? ==> r.error == res.error)
        && cacheFiles == CacheAfter(old(cacheFiles), res)
      ensures installPath == if r.Ok? then r.value else old(installPath)
    {
      var versions :- ListVersions(net, probe);
      var version :- SelectVersion(versions, requested, latestCached, picked);
      if version !in versions {
        return Err(UnknownVersion(version));
      }
      var url := versions[version].url;
      var path :- DownloadVersion(version, url, net.archives);
      installPath := path;
      return Ok(path);
    }
  }
}
