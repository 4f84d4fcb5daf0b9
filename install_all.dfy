/**
 The fleet driver of install-all.py: every cluster read from clusters.yaml is
 completed with defaults (`set_cluster_defaults`, which numbers unnamed clusters
 from a per-cloud counter) and turned into the argument vector of one
 single-cluster run (`get_cluster_arg`, `get_args`).

 The loaded `clusters` list and the user name are inputs.
 */
module Fleet {
  import opened Wrappers
  import opened Strings

  /** A YAML mapping as Python's dict keeps it: its keys in insertion order and the
      value of each. */
  datatype Dict = Dict(keys: seq<string>, values: map<string, string>)
  {
    /** Every key once, and exactly the keys that have a value. */
    predicate Valid() {
      && Distinct(keys)
      && (forall k :: k in values ==> k in keys)
      && (forall k :: k in keys ==> k in values)
    }
  }

  /** No element twice. */
  predicate Distinct(s: seq<string>) {
    forall i, j :: 0 <= i < j < |s| ==> s[i] != s[j]
  }

  // ---------------------------------------------------------------------------
  // Constants

  const DefaultVersion := "v4.3.0"

  /** `per_cloud` at start-up. */
  const InitialCounters: map<string, nat> := map["aws" := 0, "gcp" := 0, "azure" := 0]

  const CreateKeys := ["name", "version", "cloud", "master-size", "worker-size", "profile"]

  /** As the source spells it: `versions`, which no defaulted cluster holds. */
  const DestroyKeys := ["name", "versions"]

  const Actions: map<string, string> := map["create" := "create", "destroy" := "destroy"]

  /** The keys `set_cluster_defaults` fills when missing, in the order it tests them. */
  const DefaultedKeys := ["version", "master-size", "worker-size", "profile"]

  /** The value a defaulted key gets when missing. */
  function DefaultValue(k: string): string {
    if k == "version" then DefaultVersion else "default"
  }

  datatype Error =
    | MissingCloud                  // KeyError on cluster["cloud"]
    | UnknownCloud(cloud: string)   // KeyError on per_cloud[cloud]
    | UnknownAction(action: string) // KeyError on actions[action]

  // ---------------------------------------------------------------------------
  // set_cluster_defaults, as a value

  /** `if k not in cluster: cluster[k] = v` */
  function AddIfMissing(d: Dict, k: string, v: string): Dict {
    if k in d.values then d else Dict(d.keys + [k], d.values[k := v])
  }

  /** The keys of `ks` that `vals` lacks, in the order of `ks`. */
  function MissingKeys(vals: map<string, string>, ks: seq<string>): seq<string>
  {
    if ks == [] then [] else (if ks[0] in vals then [] else [ks[0]]) + MissingKeys(vals, ks[1..])
  }

  /** `"summit-%s%d" % (cloud, n)` */
  function SummitName(cloud: string, n: nat): string {
    "summit-" + cloud + NatToString(n)
  }

  /** A cluster after a step of `set_cluster_defaults`, with the counters after it. */
  datatype Defaulted = Defaulted(cluster: Dict, counters: map<string, nat>)

  /** The naming half of `set_cluster_defaults`: the `cloud` lookup, then, for a
      cluster without a name, a name from its cloud's counter, which moves by one. */
  function Named(counters: map<string, nat>, d: Dict): Result<Defaulted, Error> {
    if "cloud" !in d.values then Err(MissingCloud)
    else if "name" in d.values then Ok(Defaulted(d, counters))
    else
      var cloud := d.values["cloud"];
      if cloud !in counters then Err(UnknownCloud(cloud))
      else Ok(Defaulted(AddIfMissing(d, "name", SummitName(cloud, counters[cloud])),
                        counters[cloud := counters[cloud] + 1]))
  }

  /** Each key of `ks` in turn added with its default when missing. */
  function FillKeys(d: Dict, ks: seq<string>): Dict
    decreases |ks|, d
  {
    if ks == [] then d else FillKeys(AddIfMissing(d, ks[0], DefaultValue(ks[0])), ks[1..])
  }

  /** The filling half of `set_cluster_defaults`: the defaulted keys tested in
      order. */
  function Fill(d: Dict): Dict {
    FillKeys(d, DefaultedKeys)
  }

  /** The cluster after `set_cluster_defaults`, with the counters after it. */
  function WithDefaults(counters: map<string, nat>, d: Dict): Result<Defaulted, Error> {
    var named :- Named(counters, d);
    Ok(named.(cluster := Fill(named.cluster)))
  }

  /** Adding a missing key appends it to the key order, keeps every other value and
      keeps the dict well formed. */
  lemma AddIfMissingSpec(d: Dict, k: string, v: string)
    ensures var out := AddIfMissing(d, k, v);
      && d.keys <= out.keys
      && out.values.Keys == d.values.Keys + {k}
      && (forall j :: j in d.values ==> out.values[j] == d.values[j])
      && (k !in d.values ==> out.values[k] == v)
      && (d.Valid() ==> out.Valid())
  {
  }

  /** The missing keys are exactly the keys of `ks` without a value. */
  lemma {:induction false} MissingKeysMembers(vals: map<string, string>, ks: seq<string>)
    ensures forall k :: k in MissingKeys(vals, ks) <==> k in ks && k !in vals
  {
    if ks != [] {
      MissingKeysMembers(vals, ks[1..]);
      assert forall k :: k in ks <==> k == ks[0] || k in ks[1..];
    }
  }

  /** A value for a key not in `ks` changes nothing about which keys of `ks` are
      missing. */
  lemma {:induction false} MissingKeysIgnores(vals: map<string, string>, k: string, v: string, ks: seq<string>)
    requires k !in ks
    ensures MissingKeys(vals[k := v], ks) == MissingKeys(vals, ks)
  {
    if ks != [] {
      assert ks[0] != k;
      MissingKeysIgnores(vals, k, v, ks[1..]);
    }
  }

  /** Filling with the keys `ks` appends the missing ones, in the order of `ks`,
      adds exactly them, keeps every value that was there and gives each added key
      its default. */
  lemma {:induction false} FillKeysSpec(d: Dict, ks: seq<string>)
    requires Distinct(ks)
    ensures var out := FillKeys(d, ks);
      && out.keys == d.keys + MissingKeys(d.values, ks)
      && (forall k :: k in out.values <==> k in d.values || k in ks)
      && (forall k :: k in d.values ==> out.values[k] == d.values[k])
      && (forall k :: k in ks && k !in d.values ==> out.values[k] == DefaultValue(k))
    decreases |ks|
  {
    if ks != [] {
      var k0 := ks[0];
      var next := AddIfMissing(d, k0, DefaultValue(k0));
      assert Distinct(ks[1..]) by {
        forall i, j | 0 <= i < j < |ks[1..]| ensures ks[1..][i] != ks[1..][j] {
          assert ks[1..][i] == ks[i + 1] && ks[1..][j] == ks[j + 1];
        }
      }
      assert k0 !in ks[1..] by {
        forall j | 0 <= j < |ks[1..]| ensures ks[1..][j] != k0 {
          assert ks[1..][j] == ks[j + 1];
        }
      }
      FillKeysSpec(next, ks[1..]);
      AddIfMissingSpec(d, k0, DefaultValue(k0));
      if k0 !in d.values {
        MissingKeysIgnores(d.values, k0, DefaultValue(k0), ks[1..]);
      }
      assert forall k :: k in ks <==> k == k0 || k in ks[1..];
    }
  }

  /** Filling with any keys keeps a dict well formed. */
  lemma {:induction false} FillKeysValid(d: Dict, ks: seq<string>)
    requires d.Valid()
    ensures FillKeys(d, ks).Valid()
    decreases |ks|
  {
    if ks != [] {
      AddIfMissingSpec(d, ks[0], DefaultValue(ks[0]));
      FillKeysValid(AddIfMissing(d, ks[0], DefaultValue(ks[0])), ks[1..]);
    }
  }

  /** Filling appends the missing defaulted keys in the order the source tests
      them, adds no other key, keeps every value that was there and gives each added
      key its default. */
  lemma FillSpec(d: Dict)
    ensures var out := Fill(d);
      && out.keys == d.keys + MissingKeys(d.values, DefaultedKeys)
      && (forall k :: k in out.values <==> k in d.values || k in DefaultedKeys)
      && (forall k :: k in d.values ==> out.values[k] == d.values[k])
      && (forall k :: k in DefaultedKeys && k !in d.values ==> out.values[k] == DefaultValue(k))
  {
    FillKeysSpec(d, DefaultedKeys);
  }

  /** Filling keeps a dict well formed. */
  lemma FillValid(d: Dict)
    requires d.Valid()
    ensures Fill(d).Valid()
  {
    FillKeysValid(d, DefaultedKeys);
  }

  /** After defaulting, `name`, `cloud` and every defaulted key are present; the keys
      already there keep their place and value; a missing `version` is `v4.3.0`, a
      missing size or profile is `default`; no other key is added; a well-formed dict
      stays well formed. */
  lemma DefaultsComplete(counters: map<string, nat>, d: Dict)
    requires WithDefaults(counters, d).Ok?
    ensures var out := WithDefaults(counters, d).value.cluster;
      && d.keys <= out.keys
      && "name" in out.values && "cloud" in out.values
      && (forall k :: k in out.values <==> k in d.values || k == "name" || k in DefaultedKeys)
      && (forall k :: k in d.values ==> out.values[k] == d.values[k])
      && (forall k :: k in DefaultedKeys && k !in d.values ==> out.values[k] == DefaultValue(k))
      && (d.Valid() ==> out.Valid())
  {
    var named := Named(counters, d).value.cluster;
    if "name" !in d.values {
      AddIfMissingSpec(d, "name", SummitName(d.values["cloud"], counters[d.values["cloud"]]));
    }
    FillSpec(named);
    if d.Valid() {
      FillValid(named);
    }
  }

  /** Defaulting keeps a dict well formed. */
  lemma WithDefaultsValid(counters: map<string, nat>, d: Dict)
    requires WithDefaults(counters, d).Ok? && d.Valid()
    ensures WithDefaults(counters, d).value.cluster.Valid()
  {
    var named := Named(counters, d).value.cluster;
    if "name" !in d.values {
      AddIfMissingSpec(d, "name", SummitName(d.values["cloud"], counters[d.values["cloud"]]));
    }
    FillValid(named);
  }

  /** An unnamed cluster of a counted cloud is named `summit-<cloud><n>` with `n`
      that cloud's counter, and only that counter moves, by one; a named cluster
      keeps its name and moves no counter. */
  lemma DefaultsNaming(counters: map<string, nat>, d: Dict)
    requires "cloud" in d.values
    requires "name" in d.values || d.values["cloud"] in counters
    ensures WithDefaults(counters, d).Ok?
    ensures var out := WithDefaults(counters, d).value.cluster;
      var after := WithDefaults(counters, d).value.counters;
      var cloud := d.values["cloud"];
      && "name" in out.values
      && (if "name" in d.values
          then out.values["name"] == d.values["name"] && after == counters
          else out.values["name"] == SummitName(cloud, counters[cloud])
               && after == counters[cloud := counters[cloud] + 1])
  {
    FillSpec(Named(counters, d).value.cluster);
  }

  /** Defaulting fails exactly when `cloud` is missing, or when the cluster has no
      name and its cloud has no counter; a named cluster of any cloud is accepted. */
  lemma DefaultsFailure(counters: map<string, nat>, d: Dict)
    ensures WithDefaults(counters, d).Err? <==>
      "cloud" !in d.values || ("name" !in d.values && d.values["cloud"] !in counters)
    ensures "cloud" !in d.values ==> WithDefaults(counters, d) == Err(MissingCloud)
    ensures "cloud" in d.values && "name" !in d.values && d.values["cloud"] !in counters ==>
      WithDefaults(counters, d) == Err(UnknownCloud(d.values["cloud"]))
  {
  }

  // ---------------------------------------------------------------------------
  // get_all_clusters, as a value

  /** The clusters of a run, defaulted, with the counters after them. */
  datatype Run = Run(clusters: seq<Dict>, counters: map<string, nat>)

  /** The first `k` clusters named in file order, the counters threaded through: one
      output per input, and the same clouds counted after as before. */
  function NamedUpTo(counters: map<string, nat>, cs: seq<Dict>, k: nat): (r: Result<Run, Error>)
    requires k <= |cs|
    ensures r.Ok? ==> |r.value.clusters| == k
  {
    if k == 0 then Ok(Run([], counters))
    else
      var done :- NamedUpTo(counters, cs, k - 1);
      var last :- Named(done.counters, cs[k - 1]);
      Ok(Run(done.clusters + [last.cluster], last.counters))
  }

  /** Every cluster of a run filled. */
  function FillAll(cs: seq<Dict>): seq<Dict> {
    seq(|cs|, i requires 0 <= i < |cs| => Fill(cs[i]))
  }

  /** The first `k` clusters defaulted in file order, the counters threaded through.
      Filling reads no counter, so the run names the clusters first and fills them
      after. */
  function DefaultUpTo(counters: map<string, nat>, cs: seq<Dict>, k: nat): (r: Result<Run, Error>)
    requires k <= |cs|
    ensures r.Ok? ==> |r.value.clusters| == k
  {
    var run :- NamedUpTo(counters, cs, k);
    Ok(Run(FillAll(run.clusters), run.counters))
  }

  /** Every cluster of the file defaulted. */
  function DefaultAll(counters: map<string, nat>, cs: seq<Dict>): (r: Result<Run, Error>)
    ensures r.Ok? ==> |r.value.clusters| == |cs|
  {
    DefaultUpTo(counters, cs, |cs|)
  }

  /** One more cluster: the run so far, then that cluster defaulted with the
      counters the run left. */
  lemma DefaultUpToStep(counters: map<string, nat>, cs: seq<Dict>, k: nat)
    requires k < |cs|
    ensures DefaultUpTo(counters, cs, k + 1).Ok? <==>
      DefaultUpTo(counters, cs, k).Ok? &&
      WithDefaults(DefaultUpTo(counters, cs, k).value.counters, cs[k]).Ok?
    ensures DefaultUpTo(counters, cs, k + 1).Ok? ==>
      var done := DefaultUpTo(counters, cs, k).value;
      var last := WithDefaults(done.counters, cs[k]).value;
      DefaultUpTo(counters, cs, k + 1).value == Run(done.clusters + [last.cluster], last.counters)
  {
    var front := NamedUpTo(counters, cs, k);
    if front.Ok? && Named(front.value.counters, cs[k]).Ok? {
      var last := Named(front.value.counters, cs[k]).value.cluster;
      assert FillAll(front.value.clusters + [last]) == FillAll(front.value.clusters) + [Fill(last)];
    }
  }

  /** A cluster that fails to default makes every longer run fail with its error. */
  lemma {:induction false} DefaultUpToStops(counters: map<string, nat>, cs: seq<Dict>, k: nat, n: nat)
    requires k < n <= |cs| && DefaultUpTo(counters, cs, k).Ok?
    requires WithDefaults(DefaultUpTo(counters, cs, k).value.counters, cs[k]).Err?
    ensures DefaultUpTo(counters, cs, n) == Err(WithDefaults(DefaultUpTo(counters, cs, k).value.counters, cs[k]).error)
    decreases n
  {
    if k + 1 < n {
      DefaultUpToStops(counters, cs, k, n - 1);
    }
  }

  /** Well-formed clusters stay well formed through a run. */
  lemma {:induction false} DefaultUpToValid(counters: map<string, nat>, cs: seq<Dict>, k: nat)
    requires k <= |cs| && DefaultUpTo(counters, cs, k).Ok?
    requires forall i :: 0 <= i < |cs| ==> cs[i].Valid()
    ensures forall i :: 0 <= i < k ==> DefaultUpTo(counters, cs, k).value.clusters[i].Valid()
  {
    if k > 0 {
      DefaultUpToStep(counters, cs, k - 1);
      DefaultUpToValid(counters, cs, k - 1);
      var done := DefaultUpTo(counters, cs, k - 1).value;
      WithDefaultsValid(done.counters, cs[k - 1]);
      var last := WithDefaults(done.counters, cs[k - 1]).value.cluster;
      var out := DefaultUpTo(counters, cs, k).value.clusters;
      assert out == done.clusters + [last];
      forall i | 0 <= i < k ensures out[i].Valid() {
        if i < k - 1 {
          assert out[i] == done.clusters[i];
        }
      }
    }
  }

  /** Whether `d` is a cluster of `cloud` that `set_cluster_defaults` names. */
  predicate UnnamedOn(d: Dict, cloud: string) {
    "name" !in d.values && "cloud" in d.values && d.values["cloud"] == cloud
  }

  /** How many of the first `i` clusters of `cs` are unnamed clusters of `cloud`. */
  function UnnamedBefore(cs: seq<Dict>, i: nat, cloud: string): nat
    requires i <= |cs|
  {
    if i == 0 then 0 else UnnamedBefore(cs, i - 1, cloud) + (if UnnamedOn(cs[i - 1], cloud) then 1 else 0)
  }

  lemma {:induction false} UnnamedBeforeGrows(cs: seq<Dict>, i: nat, j: nat, cloud: string)
    requires i < j <= |cs|
    ensures UnnamedBefore(cs, i, cloud) + (if UnnamedOn(cs[i], cloud) then 1 else 0) <= UnnamedBefore(cs, j, cloud)
    decreases j - i
  {
    if i + 1 < j {
      UnnamedBeforeGrows(cs, i, j - 1, cloud);
    }
  }

  /** After `k` clusters every counted cloud is still counted, its counter
      advanced by the number of its unnamed clusters among them. */
  lemma {:induction false} NamedUpToCounters(counters: map<string, nat>, cs: seq<Dict>, k: nat)
    requires k <= |cs| && NamedUpTo(counters, cs, k).Ok?
    ensures var after := NamedUpTo(counters, cs, k).value.counters;
      forall cloud :: cloud in counters ==>
        cloud in after && after[cloud] == counters[cloud] + UnnamedBefore(cs, k, cloud)
  {
    if k > 0 {
      NamedUpToCounters(counters, cs, k - 1);
    }
  }

  /** A longer run names the first clusters as a shorter one does. */
  lemma {:induction false} NamedUpToKeeps(counters: map<string, nat>, cs: seq<Dict>, k: nat, n: nat, i: nat)
    requires i < k <= n <= |cs| && NamedUpTo(counters, cs, n).Ok?
    ensures NamedUpTo(counters, cs, k).Ok?
    ensures NamedUpTo(counters, cs, n).value.clusters[i] == NamedUpTo(counters, cs, k).value.clusters[i]
    decreases n
  {
    if k < n {
      NamedUpToKeeps(counters, cs, k, n - 1, i);
    }
  }

  /** A named run of `k + 1` clusters is the run of `k`, then the next cluster
      named with the counters that run left. */
  lemma NamedUpToStep(counters: map<string, nat>, cs: seq<Dict>, k: nat)
    requires k < |cs| && NamedUpTo(counters, cs, k + 1).Ok?
    ensures NamedUpTo(counters, cs, k).Ok?
    ensures var done := NamedUpTo(counters, cs, k).value;
      && Named(done.counters, cs[k]).Ok?
      && var last := Named(done.counters, cs[k]).value;
      NamedUpTo(counters, cs, k + 1).value == Run(done.clusters + [last.cluster], last.counters)
  {
  }

  /** An unnamed cluster is named after its cloud's counter. */
  lemma NamedName(counters: map<string, nat>, d: Dict, cloud: string)
    requires Named(counters, d).Ok? && UnnamedOn(d, cloud)
    ensures var out := Named(counters, d).value.cluster;
      "name" in out.values && out.values["name"] == SummitName(cloud, counters[cloud])
  {
  }

  /** The `i`th cluster, when unnamed, is named after its cloud's counter as the
      clusters before it left it. */
  lemma NamedUpToNameAt(counters: map<string, nat>, cs: seq<Dict>, n: nat, i: nat, cloud: string)
    requires i < n <= |cs| && NamedUpTo(counters, cs, n).Ok?
    requires cloud in counters && UnnamedOn(cs[i], cloud)
    ensures var out := NamedUpTo(counters, cs, n).value.clusters;
      "name" in out[i].values &&
      out[i].values["name"] == SummitName(cloud, counters[cloud] + UnnamedBefore(cs, i, cloud))
  {
    NamedUpToKeeps(counters, cs, i + 1, n, i);
    NamedUpToStep(counters, cs, i);
    NamedUpToCounters(counters, cs, i);
    NamedName(NamedUpTo(counters, cs, i).value.counters, cs[i], cloud);
  }

  /** A run counts the same clouds after as before. */
  lemma {:induction false} NamedUpToClouds(counters: map<string, nat>, cs: seq<Dict>, k: nat)
    requires k <= |cs| && NamedUpTo(counters, cs, k).Ok?
    ensures NamedUpTo(counters, cs, k).value.counters.Keys == counters.Keys
  {
    if k > 0 {
      NamedUpToClouds(counters, cs, k - 1);
    }
  }

  /** After a whole run the same clouds are counted, and each cloud's counter has
      advanced by exactly the number of its unnamed clusters. */
  lemma DefaultAllCounters(counters: map<string, nat>, cs: seq<Dict>)
    requires DefaultAll(counters, cs).Ok?
    ensures DefaultAll(counters, cs).value.counters.Keys == counters.Keys
    ensures forall cloud :: cloud in counters ==>
      DefaultAll(counters, cs).value.counters[cloud] == counters[cloud] + UnnamedBefore(cs, |cs|, cloud)
  {
    NamedUpToClouds(counters, cs, |cs|);
    NamedUpToCounters(counters, cs, |cs|);
  }

  /** The unnamed cluster of a cloud that has `m` unnamed clusters of that cloud
      before it in the file is named after the cloud's starting counter plus `m`. */
  lemma DefaultAllNameAt(counters: map<string, nat>, cs: seq<Dict>, i: nat, cloud: string)
    requires DefaultAll(counters, cs).Ok?
    requires i < |cs| && cloud in counters && UnnamedOn(cs[i], cloud)
    ensures var out := DefaultAll(counters, cs).value.clusters;
      "name" in out[i].values &&
      out[i].values["name"] == SummitName(cloud, counters[cloud] + UnnamedBefore(cs, i, cloud))
  {
    NamedUpToNameAt(counters, cs, |cs|, i, cloud);
    FillSpec(NamedUpTo(counters, cs, |cs|).value.clusters[i]);
  }

  /** Two unnamed clusters of the same cloud, at different places in the file, get
      different names. */
  lemma UnnamedNamesDistinct(counters: map<string, nat>, cs: seq<Dict>, i: nat, j: nat, cloud: string)
    requires DefaultAll(counters, cs).Ok?
    requires i < j < |cs| && cloud in counters
    requires UnnamedOn(cs[i], cloud) && UnnamedOn(cs[j], cloud)
    ensures var out := DefaultAll(counters, cs).value.clusters;
      "name" in out[i].values && "name" in out[j].values &&
      out[i].values["name"] != out[j].values["name"]
  {
    DefaultAllNameAt(counters, cs, i, cloud);
    DefaultAllNameAt(counters, cs, j, cloud);
    UnnamedBeforeGrows(cs, i, j, cloud);
    var out := DefaultAll(counters, cs).value.clusters;
    var a := counters[cloud] + UnnamedBefore(cs, i, cloud);
    var b := counters[cloud] + UnnamedBefore(cs, j, cloud);
    if out[i].values["name"] == out[j].values["name"] {
      var p := "summit-" + cloud;
      assert p + NatToString(a) == p + NatToString(b);
      assert NatToString(a) == (p + NatToString(a))[|p|..];
      assert NatToString(b) == (p + NatToString(b))[|p|..];
      NatToStringInjective(a, b);
    }
  }

  // ---------------------------------------------------------------------------
  // get_cluster_arg, as a value

  /** Whether `get_cluster_arg` emits the entry with this key. */
  predicate Kept(action: string, key: string) {
    !(action == "create" && key !in CreateKeys) && !(action == "destroy" && key !in DestroyKeys)
  }

  /** The keys whose entries are emitted, in dict order. */
  function KeptKeys(action: string, ks: seq<string>): (r: seq<string>)
    ensures |r| <= |ks|
    decreases |ks|
  {
    if ks == [] then []
    else KeptKeys(action, ks[..|ks| - 1]) + (if Kept(action, ks[|ks| - 1]) then [ks[|ks| - 1]] else [])
  }

  /** `"--%s=%s" % (key, value)`, with `user-` before a name. */
  function Flag(user: string, key: string, value: string): string {
    "--" + key + "=" + (if key == "name" then user + "-" + value else value)
  }

  /** The flags of the entries of `d` under the keys `ks`. */
  function Flags(user: string, d: Dict, ks: seq<string>): seq<string>
    requires forall k :: k in ks ==> k in d.values
  {
    seq(|ks|, i requires 0 <= i < |ks| => Flag(user, ks[i], d.values[ks[i]]))
  }

  /** A key is emitted exactly when it is one of the dict's and it is kept. */
  lemma {:induction false} KeptKeysMembers(action: string, ks: seq<string>)
    ensures forall k :: k in KeptKeys(action, ks) <==> k in ks && Kept(action, k)
    decreases |ks|
  {
    if ks != [] {
      KeptKeysMembers(action, ks[..|ks| - 1]);
      assert ks == ks[..|ks| - 1] + [ks[|ks| - 1]];
    }
  }

  /** Only keys of the dict are emitted. */
  lemma {:induction false} KeptKeysWithin(action: string, ks: seq<string>, vals: map<string, string>)
    requires forall k :: k in ks ==> k in vals
    ensures forall k :: k in KeptKeys(action, ks) ==> k in vals
    decreases |ks|
  {
    if ks != [] {
      KeptKeysWithin(action, ks[..|ks| - 1], vals);
    }
  }

  /** One more key of the dict: it is emitted after the others when it is kept. */
  lemma KeptKeysStep(action: string, ks: seq<string>, i: nat)
    requires i < |ks|
    ensures KeptKeys(action, ks[..i + 1]) ==
      KeptKeys(action, ks[..i]) + (if Kept(action, ks[i]) then [ks[i]] else [])
  {
    assert ks[..i + 1][..i] == ks[..i];
  }

  /** One more emitted key: its flag follows the others. */
  lemma FlagsSnoc(user: string, d: Dict, ks: seq<string>, k: string)
    requires forall j :: j in ks ==> j in d.values
    requires k in d.values
    ensures Flags(user, d, ks + [k]) == Flags(user, d, ks) + [Flag(user, k, d.values[k])]
  {
  }

  /** Neither destroy key makes a flag that starts with `--version=`. */
  lemma DestroyFlagNotVersion(user: string, key: string, value: string)
    requires key == "name" || key == "versions"
    ensures !StartsWith(Flag(user, key, value), "--version=")
  {
    var a := Flag(user, key, value);
    if key == "name" {
      assert a[2] == 'n';
    } else {
      assert a[9] == 's';
    }
  }

  /** `--key=value` read back by an argument parser: the key up to the first `=`, the
      value after it. */
  function ParseFlag(s: string): Option<(string, string)> {
    if |s| < 2 || s[..2] != "--" then None
    else
      var key := UpTo(s[2..], '=');
      if |key| == |s| - 2 then None else Some((key, s[2 + |key| + 1..]))
  }

  /** Every emitted flag parses back to its key and the value `get_cluster_arg`
      meant: the entry's value, with the user before a name. */
  lemma FlagRoundTrip(user: string, key: string, value: string)
    requires '=' !in key
    ensures ParseFlag(Flag(user, key, value)) ==
      Some((key, if key == "name" then user + "-" + value else value))
  {
    var v := if key == "name" then user + "-" + value else value;
    var s := Flag(user, key, value);
    assert s[2..] == key + ['='] + v;
    UpToPrefix(key, '=', v);
  }

  /** A destroy run never passes `--version`: the destroy keys are `name` and
      `versions`, and neither flag starts with `--version=`. */
  lemma DestroyDropsVersion(user: string, d: Dict)
    requires d.Valid()
    ensures var ks := KeptKeys("destroy", d.keys);
      (forall k :: k in ks ==> k in d.values) &&
      forall a :: a in Flags(user, d, ks) ==> !StartsWith(a, "--version=")
  {
    var ks := KeptKeys("destroy", d.keys);
    KeptKeysMembers("destroy", d.keys);
    forall a | a in Flags(user, d, ks) ensures !StartsWith(a, "--version=") {
      var i :| 0 <= i < |ks| && Flags(user, d, ks)[i] == a;
      var key := ks[i];
      assert key in ks;
      assert key == "name" || key == "versions";
      DestroyFlagNotVersion(user, key, d.values[key]);
    }
  }

  /** Whether `arg` is the argument vector of `cluster`: the action, then one flag
      per kept key in dict order. */
  predicate IsClusterArg(user: string, cluster: Dict, action: string, arg: seq<string>) {
    && (forall k :: k in KeptKeys(action, cluster.keys) ==> k in cluster.values)
    && |arg| >= 1 && arg[0] == action
    && arg[1..] == Flags(user, cluster, KeptKeys(action, cluster.keys))
  }

  /** The argument vector of one cluster: the action, then one flag per kept key in
      dict order. */
  method GetClusterArg(user: string, cluster: Dict, action: string) returns (arg: seq<string>)
    requires forall k :: k in cluster.keys ==> k in cluster.values
    ensures forall k :: k in KeptKeys(action, cluster.keys) ==> k in cluster.values
    ensures |arg| == 1 + |KeptKeys(action, cluster.keys)| && arg[0] == action
    ensures arg[1..] == Flags(user, cluster, KeptKeys(action, cluster.keys))
  {
    var keys := cluster.keys;
    arg := [action];
    for i := 0 to |keys|
      invariant forall k :: k in KeptKeys(action, keys[..i]) ==> k in cluster.values
      invariant arg == [action] + Flags(user, cluster, KeptKeys(action, keys[..i]))
    {
      KeptKeysStep(action, keys, i);
      KeptKeysWithin(action, keys[..i + 1], cluster.values);
      var key := keys[i];
      if action == "create" && key !in CreateKeys {
        assert !Kept(action, key);
        continue;
      }
      if action == "destroy" && key !in DestroyKeys {
        assert !Kept(action, key);
        continue;
      }
      assert Kept(action, key);
      var value := cluster.values[key];
      if key == "name" {
        value := user + "-" + value;
      }
      FlagsSnoc(user, cluster, KeptKeys(action, keys[..i]), key);
      arg := arg + ["--" + key + "=" + value];
    }
    assert keys[..|keys|] == keys;
  }

  /** The argument vectors of a list of clusters, one per cluster, in order. */
  method ClusterArgs(user: string, clusters: seq<Dict>, action: string) returns (args: seq<seq<string>>)
    requires forall i :: 0 <= i < |clusters| ==> clusters[i].Valid()
    ensures |args| == |clusters|
    ensures forall i :: 0 <= i < |clusters| ==> IsClusterArg(user, clusters[i], action, args[i])
  {
    args := [];
    for i := 0 to |clusters|
      invariant |args| == i
      invariant forall j :: 0 <= j < i ==> IsClusterArg(user, clusters[j], action, args[j])
    {
      var arg := GetClusterArg(user, clusters[i], action);
      args := args + [arg];
    }
  }

  /** The fill is the source's four tests, run one after another. */
  lemma FillByTests(d: Dict)
    ensures Fill(d) == AddIfMissing(AddIfMissing(AddIfMissing(AddIfMissing(d,
      "version", DefaultVersion), "master-size", "default"), "worker-size", "default"), "profile", "default")
  {
    var ks := DefaultedKeys;
    var d1 := AddIfMissing(d, "version", DefaultVersion);
    var d2 := AddIfMissing(d1, "master-size", "default");
    var d3 := AddIfMissing(d2, "worker-size", "default");
    var d4 := AddIfMissing(d3, "profile", "default");
    assert ks[1..] == ["master-size", "worker-size", "profile"];
    assert ks[1..][1..] == ["worker-size", "profile"];
    assert ks[1..][1..][1..] == ["profile"];
    assert ks[1..][1..][1..][1..] == [];
    assert FillKeys(d4, []) == d4;
    assert FillKeys(d3, ks[1..][1..][1..]) == FillKeys(d4, []);
    assert FillKeys(d2, ks[1..][1..]) == FillKeys(d3, ks[1..][1..][1..]);
    assert FillKeys(d1, ks[1..]) == FillKeys(d2, ks[1..][1..]);
    assert FillKeys(d, ks) == FillKeys(d1, ks[1..]);
  }

  /** The filling half of `set_cluster_defaults`, one test after another. */
  method FillMissing(named: Dict) returns (d: Dict)
    ensures d == Fill(named)
  {
    d := named;
    if "version" !in d.values {
      d := Dict(d.keys + ["version"], d.values["version" := DefaultVersion]);
    }
    ghost var d1 := d;
    if "master-size" !in d.values {
      d := Dict(d.keys + ["master-size"], d.values["master-size" := "default"]);
    }
    ghost var d2 := d;
    if "worker-size" !in d.values {
      d := Dict(d.keys + ["worker-size"], d.values["worker-size" := "default"]);
    }
    ghost var d3 := d;
    if "profile" !in d.values {
      d := Dict(d.keys + ["profile"], d.values["profile" := "default"]);
    }
    assert d1 == AddIfMissing(named, "version", DefaultVersion);
    assert d2 == AddIfMissing(d1, "master-size", "default");
    assert d3 == AddIfMissing(d2, "worker-size", "default");
    assert d == AddIfMissing(d3, "profile", "default");
    FillByTests(named);
  }

  // ---------------------------------------------------------------------------
  // The module's state

  class Driver {
    /** `getpass.getuser()` at import time. */
    const user: string
    /** `per_cloud` */
    var perCloud: map<string, nat>

    constructor (user: string)
      ensures this.user == user && perCloud == InitialCounters
    {
      this.user := user;
      perCloud := InitialCounters;
    }

    /** `set_cluster_defaults`: one test after another; a failure leaves the
        counters as they were. */
    method SetClusterDefaults(cluster: Dict) returns (r: Result<Dict, Error>)
      modifies this
      ensures match WithDefaults(old(perCloud), cluster)
        case Ok(step) => r == Ok(step.cluster) && perCloud == step.counters
        case Err(e) => r == Err(e) && perCloud == old(perCloud)
    {
      if "cloud" !in cluster.values {
        return Err(MissingCloud);
      }
      var cloud := cluster.values["cloud"];
      var d := cluster;
      if "name" !in d.values {
        if cloud !in perCloud {
          return Err(UnknownCloud(cloud));
        }
        d := Dict(d.keys + ["name"], d.values["name" := SummitName(cloud, perCloud[cloud])]);
        perCloud := perCloud[cloud := perCloud[cloud] + 1];
      }
      d := FillMissing(d);
      return Ok(d);
    }

    /** `get_all_clusters`: each loaded cluster is defaulted and written back in
        place. A failure stops the loop; the counters then hold what the clusters
        before the failing one advanced. */
    method GetAllClusters(loaded: seq<Dict>) returns (r: Result<seq<Dict>, Error>)
      modifies this
      ensures r.Ok? <==> DefaultAll(old(perCloud), loaded).Ok?
      ensures r.Ok? ==> Run(r.value, perCloud) == DefaultAll(old(perCloud), loaded).value
      ensures r.Err? ==> exists k :: (0 <= k < |loaded| &&
        DefaultUpTo(old(perCloud), loaded, k).Ok? &&
        perCloud == DefaultUpTo(old(perCloud), loaded, k).value.counters &&
        WithDefaults(perCloud, loaded[k]) == Err(r.error))
    {
      var clusters := new Dict[|loaded|](i requires 0 <= i < |loaded| => loaded[i]);
      ghost var start := perCloud;
      for i := 0 to |loaded|
        invariant DefaultUpTo(start, loaded, i) == Ok(Run(clusters[..i], perCloud))
        invariant clusters[i..] == loaded[i..]
      {
        assert clusters[i] == loaded[i];
        var cluster := SetClusterDefaults(clusters[i]);
        if cluster.Err? {
          DefaultUpToStops(start, loaded, i, |loaded|);
          return Err(cluster.error);
        }
        clusters[i] := cluster.value;
        assert clusters[..i + 1] == clusters[..i] + [cluster.value];
        DefaultUpToStep(start, loaded, i);
      }
      assert clusters[..] == clusters[..|loaded|];
      return Ok(clusters[..]);
    }

    /** `get_args`: the action is looked up, then one argument vector per cluster in
        file order. */
    method GetArgs(action: string, loaded: seq<Dict>) returns (r: Result<seq<seq<string>>, Error>)
      requires forall i :: 0 <= i < |loaded| ==> loaded[i].Valid()
      modifies this
      ensures action !in Actions ==> r == Err(UnknownAction(action)) && perCloud == old(perCloud)
      ensures action in Actions ==> (r.Ok? <==> DefaultAll(old(perCloud), loaded).Ok?)
      ensures r.Ok? ==>
        var cs := DefaultAll(old(perCloud), loaded).value.clusters;
        && perCloud == DefaultAll(old(perCloud), loaded).value.counters
        && |r.value| == |loaded|
        && forall i :: 0 <= i < |loaded| ==> IsClusterArg(user, cs[i], action, r.value[i])
    {
      if action !in Actions {
        return Err(UnknownAction(action));
      }
      var act := Actions[action];
      ghost var start := perCloud;
      var all := GetAllClusters(loaded);
      if all.Err? {
        return Err(all.error);
      }
      var clusters := all.value;
      assert clusters == DefaultAll(start, loaded).value.clusters;
      DefaultUpToValid(start, loaded, |loaded|);
      var clusterArgs := ClusterArgs(user, clusters, act);
      return Ok(clusterArgs);
    }
  }
}
