/**
 * The response cache shared by all routes. Each route keys its entries with its
 * own prefix and stores only successful results there.
 */
module ResultCache {
  import opened Wrappers
  import opened Text
  import Stats
  import HuggingFace
  import Upstream

  const ActivityPrefix := "github:activity:"
  const GithubLangsPrefix := "github:langs:"
  const WakaLangsPrefix := "wakatime:langs:"
  const HfModelPrefix := "huggingface:Model:"
  const HfDatasetPrefix := "huggingface:Dataset:"
  const HfSpacePrefix := "huggingface:Space:"
  const RepoPrefix := "github:repo:"
  const GistPrefix := "github:gist:"

  /** A cached result, of whichever route stored it. */
  datatype Snapshot =
    | ActivitySnapshot(months: seq<Stats.ActivityMonth>)
    | LanguagesSnapshot(langs: seq<Stats.LanguageStat>)
    | HuggingFaceSnapshot(repo: HuggingFace.RepoData)
    | RepositorySnapshot(repository: Upstream.Repository)
    | GistSnapshot(gist: Upstream.Gist)

  /** The kinds of result the routes store. */
  datatype Kind = ActivityKind | LanguagesKind | ModelKind | DatasetKind | SpaceKind | RepositoryKind | GistKind

  /** The kind of result a key's prefix says is stored under it. */
  function KindOf(key: string): Option<Kind> {
    if IsPrefix(ActivityPrefix, key) then Some(ActivityKind)
    else if IsPrefix(GithubLangsPrefix, key) || IsPrefix(WakaLangsPrefix, key) then Some(LanguagesKind)
    else if IsPrefix(HfModelPrefix, key) then Some(ModelKind)
    else if IsPrefix(HfDatasetPrefix, key) then Some(DatasetKind)
    else if IsPrefix(HfSpacePrefix, key) then Some(SpaceKind)
    else if IsPrefix(RepoPrefix, key) then Some(RepositoryKind)
    else if IsPrefix(GistPrefix, key) then Some(GistKind)
    else None
  }

  predicate HasKind(v: Snapshot, kind: Kind) {
    match kind
    case ActivityKind => v.ActivitySnapshot?
    case LanguagesKind => v.LanguagesSnapshot?
    case ModelKind => v.HuggingFaceSnapshot? && v.repo.ModelData?
    case DatasetKind => v.HuggingFaceSnapshot? && v.repo.DatasetData?
    case SpaceKind => v.HuggingFaceSnapshot? && v.repo.SpaceData?
    case RepositoryKind => v.RepositorySnapshot?
    case GistKind => v.GistSnapshot?
  }

  /** `v` is the kind of result `key` names. */
  predicate Fits(key: string, v: Snapshot) {
    KindOf(key).Some? && HasKind(v, KindOf(key).value)
  }

  lemma NotPrefixAt(p: string, s: string, i: nat)
    requires i < |p| && i < |s| && p[i] != s[i]
    ensures !IsPrefix(p, s)
  {
  }

  lemma PrefixAt(p: string, rest: string)
    ensures IsPrefix(p, p + rest)
  {
    assert (p + rest)[..|p|] == p;
  }

  /** Each route's prefix, followed by anything, names that route's kind of result. */
  lemma {:induction false} KeyKinds(rest: string)
    ensures KindOf(ActivityPrefix + rest) == Some(ActivityKind)
    ensures KindOf(GithubLangsPrefix + rest) == Some(LanguagesKind)
    ensures KindOf(WakaLangsPrefix + rest) == Some(LanguagesKind)
    ensures KindOf(HfModelPrefix + rest) == Some(ModelKind)
    ensures KindOf(HfDatasetPrefix + rest) == Some(DatasetKind)
    ensures KindOf(HfSpacePrefix + rest) == Some(SpaceKind)
    ensures KindOf(RepoPrefix + rest) == Some(RepositoryKind)
    ensures KindOf(GistPrefix + rest) == Some(GistKind)
  {
    PrefixAt(ActivityPrefix, rest);
    PrefixAt(GithubLangsPrefix, rest);
    PrefixAt(WakaLangsPrefix, rest);
    PrefixAt(HfModelPrefix, rest);
    PrefixAt(HfDatasetPrefix, rest);
    PrefixAt(HfSpacePrefix, rest);
    PrefixAt(RepoPrefix, rest);
    PrefixAt(GistPrefix, rest);
    NotPrefixAt(ActivityPrefix, GithubLangsPrefix + rest, 7);
    NotPrefixAt(ActivityPrefix, WakaLangsPrefix + rest, 0);
    NotPrefixAt(GithubLangsPrefix, WakaLangsPrefix + rest, 0);
    NotPrefixAt(ActivityPrefix, HfModelPrefix + rest, 0);
    NotPrefixAt(GithubLangsPrefix, HfModelPrefix + rest, 0);
    NotPrefixAt(WakaLangsPrefix, HfModelPrefix + rest, 0);
    NotPrefixAt(ActivityPrefix, HfDatasetPrefix + rest, 0);
    NotPrefixAt(GithubLangsPrefix, HfDatasetPrefix + rest, 0);
    NotPrefixAt(WakaLangsPrefix, HfDatasetPrefix + rest, 0);
    NotPrefixAt(HfModelPrefix, HfDatasetPrefix + rest, 12);
    NotPrefixAt(ActivityPrefix, HfSpacePrefix + rest, 0);
    NotPrefixAt(GithubLangsPrefix, HfSpacePrefix + rest, 0);
    NotPrefixAt(WakaLangsPrefix, HfSpacePrefix + rest, 0);
    NotPrefixAt(HfModelPrefix, HfSpacePrefix + rest, 12);
    NotPrefixAt(HfDatasetPrefix, HfSpacePrefix + rest, 12);
    NotPrefixAt(ActivityPrefix, RepoPrefix + rest, 7);
    NotPrefixAt(GithubLangsPrefix, RepoPrefix + rest, 7);
    NotPrefixAt(WakaLangsPrefix, RepoPrefix + rest, 0);
    NotPrefixAt(HfModelPrefix, RepoPrefix + rest, 0);
    NotPrefixAt(HfDatasetPrefix, RepoPrefix + rest, 0);
    NotPrefixAt(HfSpacePrefix, RepoPrefix + rest, 0);
    NotPrefixAt(ActivityPrefix, GistPrefix + rest, 7);
    NotPrefixAt(GithubLangsPrefix, GistPrefix + rest, 7);
    NotPrefixAt(WakaLangsPrefix, GistPrefix + rest, 0);
    NotPrefixAt(HfModelPrefix, GistPrefix + rest, 0);
    NotPrefixAt(HfDatasetPrefix, GistPrefix + rest, 0);
    NotPrefixAt(HfSpacePrefix, GistPrefix + rest, 0);
    NotPrefixAt(RepoPrefix, GistPrefix + rest, 7);
  }

  class Cache {
    var entries: map<string, Snapshot>

    /** Every entry holds the kind of result its key names. */
    ghost predicate Valid()
      reads this
    {
      forall k :: k in entries ==> Fits(k, entries[k])
    }

    constructor ()
      ensures Valid() && entries == map[]
    {
      entries := map[];
    }

    /** The entry under `key`, if any; it is of the kind the key names. */
    method Get(key: string) returns (hit: Option<Snapshot>)
      requires Valid()
      ensures key in entries <==> hit.Some?
      ensures hit.Some? ==> hit.value == entries[key] && Fits(key, hit.value)
    {
      if key in entries {
        hit := Some(entries[key]);
      } else {
        hit := None;
      }
    }

    /** Stores `v` under `key`, replacing any earlier entry. */
    method Insert(key: string, v: Snapshot)
      requires Valid() && Fits(key, v)
      modifies this
      ensures Valid() && entries == old(entries)[key := v]
    {
      entries := entries[key := v];
    }
  }
}
