/**
 * Pin cards for a Hugging Face repository, a GitHub repository and a GitHub gist:
 * fetching them through the cache, the tags a Hugging Face pin shows and where
 * they go, and the fields of the two GitHub pins.
 */
module Pin {
  import opened Wrappers
  import opened Text
  import opened PreparedTemplates
  import opened Casts
  import Upstream
  import HuggingFace
  import PipelineTags
  import Language
  import Themes
  import ResultCache

  /** The widest a row of tags may reach. */
  const MaxPinWidth := 400
  /** Added to a tag's text width. */
  const TagPadding := 8
  /** Between neighbouring tags. */
  const TagGap := 10
  /** Added to the language's, or the stars', text width before the next counter. */
  const CounterGap := 35
  const NoDescription := "No description provided"

  // ----- the kinds of pin -----

  /** The kind of Hugging Face repository a pin shows. */
  datatype HFPinIcon = Model | Dataset | Space

  /** The name a request gives the kind in. */
  function IconName(icon: HFPinIcon): string {
    match icon
    case Model => "model"
    case Dataset => "dataset"
    case Space => "space"
  }

  /** The kind a request names, if any. */
  function ParseIcon(s: string): (icon: Option<HFPinIcon>)
    ensures icon.Some? ==> IconName(icon.value) == s
  {
    match s
    case "model" => Some(Model)
    case "dataset" => Some(Dataset)
    case "space" => Some(Space)
    case _ => None
  }

  /** Every kind is read back from its name. */
  lemma ParseIconName(icon: HFPinIcon)
    ensures ParseIcon(IconName(icon)) == Some(icon)
  {
  }

  /** The kind as `{:?}` writes it: the variant name, which the cache key uses. */
  function DebugName(icon: HFPinIcon): (name: string)
    ensures ToLower(name) == IconName(icon)
  {
    match icon
    case Model => "Model"
    case Dataset => "Dataset"
    case Space => "Space"
  }

  /** The kind of a GitHub pin. */
  datatype GHPinIcon = Repo | Gist

  function GHIconName(icon: GHPinIcon): string {
    match icon
    case Repo => "repo"
    case Gist => "gist"
  }

  /** The kind of repository a record is. */
  function IconOf(data: HuggingFace.RepoData): HFPinIcon {
    match data
    case ModelData(_) => Model
    case DatasetData(_) => Dataset
    case SpaceData(_) => Space
  }

  /** The kind of repository an answer is about. */
  function ResponseIcon(r: HuggingFace.RepoResponse): HFPinIcon {
    match r
    case ModelResponse(_) => Model
    case DatasetResponse(_) => Dataset
    case SpaceResponse(_) => Space
  }

  /** The kind of result the cache holds for a kind of repository. */
  function IconKind(icon: HFPinIcon): ResultCache.Kind {
    match icon
    case Model => ResultCache.ModelKind
    case Dataset => ResultCache.DatasetKind
    case Space => ResultCache.SpaceKind
  }

  /** The snapshot of a record is of the kind its icon names. */
  lemma SnapshotKind(data: HuggingFace.RepoData)
    ensures ResultCache.HasKind(ResultCache.HuggingFaceSnapshot(data), IconKind(IconOf(data)))
  {
  }

  // ----- fetching -----

  /**
   * The Hub's answer for the kind asked: the model, dataset or Space endpoint,
   * wrapped as an answer of that kind.
   */
  function HfFetch(icon: HFPinIcon, username: string, repo: string,
                   fetchModel: (string, string) -> Upstream.Fetched<HuggingFace.ApiResponse<HuggingFace.Model>>,
                   fetchDataset: (string, string) -> Upstream.Fetched<HuggingFace.ApiResponse<HuggingFace.Dataset>>,
                   fetchSpace: (string, string) -> Upstream.Fetched<HuggingFace.ApiResponse<HuggingFace.Space>>)
    : (fetched: Upstream.Fetched<HuggingFace.RepoResponse>)
    ensures fetched.Received? ==> ResponseIcon(fetched.body) == icon
  {
    match icon
    case Model =>
      var f := fetchModel(username, repo);
      if f.TransportFailure? then Upstream.TransportFailure else Upstream.Received(HuggingFace.ModelResponse(f.body))
    case Dataset =>
      var f := fetchDataset(username, repo);
      if f.TransportFailure? then Upstream.TransportFailure else Upstream.Received(HuggingFace.DatasetResponse(f.body))
    case Space =>
      var f := fetchSpace(username, repo);
      if f.TransportFailure? then Upstream.TransportFailure else Upstream.Received(HuggingFace.SpaceResponse(f.body))
  }

  /** The error message of a failed Hub answer, of whichever kind. */
  function ResponseError(r: HuggingFace.RepoResponse): Option<string> {
    if r.ModelResponse? && r.model.Failed? then Some(r.model.error)
    else if r.DatasetResponse? && r.dataset.Failed? then Some(r.dataset.error)
    else if r.SpaceResponse? && r.space.Failed? then Some(r.space.error)
    else None
  }

  /**
   * A Hub answer as a pin's data: a transport failure is Unknown, a failed answer
   * goes to the Hub's error handler, and a record is returned as it is, of the
   * kind answered.
   */
  function HuggingfaceGetData(fetched: Upstream.Fetched<HuggingFace.RepoResponse>,
                              hfHandleError: string -> PreparedTemplate)
    : (r: Result<HuggingFace.RepoData, PreparedTemplate>)
    ensures fetched.TransportFailure? ==> r == Err(Unknown)
    ensures fetched.Received? ==> (r.Ok? <==> ResponseError(fetched.body).None?)
    ensures fetched.Received? && ResponseError(fetched.body).Some? ==>
      r == Err(hfHandleError(ResponseError(fetched.body).value))
    ensures r.Ok? ==> fetched.Received? && IconOf(r.value) == ResponseIcon(fetched.body)
  {
    if fetched.TransportFailure? then Err(Unknown)
    else
      var response := fetched.body;
      if response.ModelResponse? then
        (if response.model.Valid? then Ok(HuggingFace.ModelData(response.model.value)) else Err(hfHandleError(response.model.error)))
      else if response.DatasetResponse? then
        (if response.dataset.Valid? then Ok(HuggingFace.DatasetData(response.dataset.value)) else Err(hfHandleError(response.dataset.error)))
      else
        (if response.space.Valid? then Ok(HuggingFace.SpaceData(response.space.value)) else Err(hfHandleError(response.space.error)))
  }

  /** Whatever the Hub answers, a pin's data is of the kind asked for. */
  lemma HuggingfaceDataOfAskedKind(icon: HFPinIcon, username: string, repo: string,
                                   fetchModel: (string, string) -> Upstream.Fetched<HuggingFace.ApiResponse<HuggingFace.Model>>,
                                   fetchDataset: (string, string) -> Upstream.Fetched<HuggingFace.ApiResponse<HuggingFace.Dataset>>,
                                   fetchSpace: (string, string) -> Upstream.Fetched<HuggingFace.ApiResponse<HuggingFace.Space>>,
                                   hfHandleError: string -> PreparedTemplate)
    ensures var r := HuggingfaceGetData(HfFetch(icon, username, repo, fetchModel, fetchDataset, fetchSpace), hfHandleError);
      r.Ok? ==> IconOf(r.value) == icon
  {
  }

  /** A GitHub repository answer as a pin's data. */
  function GithubGetData(fetched: Upstream.Fetched<Upstream.RepositoryResponse>, ghHandleError: string -> PreparedTemplate)
    : (r: Result<Upstream.Repository, PreparedTemplate>)
    ensures r.Ok? <==> fetched.Received? && fetched.body.Valid?
    ensures r.Ok? ==> r.value == fetched.body.data
    ensures fetched.TransportFailure? ==> r == Err(Unknown)
    ensures fetched.Received? && fetched.body.Failed? ==> r == Err(ghHandleError(fetched.body.message))
  {
    if fetched.TransportFailure? then Err(Unknown)
    else if fetched.body.Failed? then Err(ghHandleError(fetched.body.message))
    else Ok(fetched.body.data)
  }

  /** A gist answer as a pin's data; a viewer without that gist is a repo not found. */
  function GistGetData(fetched: Upstream.Fetched<Upstream.GistResponse>, ghHandleError: string -> PreparedTemplate)
    : (r: Result<Upstream.Gist, PreparedTemplate>)
    ensures r.Ok? <==> fetched.Received? && fetched.body.Valid? && fetched.body.data.Some?
    ensures r.Ok? ==> r.value == fetched.body.data.value
    ensures fetched.TransportFailure? ==> r == Err(Unknown)
    ensures fetched.Received? && fetched.body.Failed? ==> r == Err(ghHandleError(fetched.body.message))
    ensures fetched == Upstream.Received(Upstream.Valid(None)) ==> r == Err(FailedFindRepo)
  {
    if fetched.TransportFailure? then Err(Unknown)
    else if fetched.body.Failed? then Err(ghHandleError(fetched.body.message))
    else if fetched.body.data.None? then Err(FailedFindRepo)
    else Ok(fetched.body.data.value)
  }

  // ----- cache keys -----

  /** `username:repo`, the part of a pin's key after the route's prefix. */
  function OwnerAndRepo(username: string, repo: string): string {
    username + ":" + repo
  }

  /** Of two owners whose key parts agree, the longer has the other's colon in it. */
  lemma ColonInLonger(u1: string, r1: string, u2: string, r2: string)
    requires |u1| < |u2|
    requires u1 + (":" + r1) == u2 + (":" + r2)
    ensures ':' in u2
  {
    var k := u1 + (":" + r1);
    assert k[|u1|] == ':';
    assert u2[|u1|] == k[|u1|];
  }

  /** Owner and repository are read back from their key part when the owner has no colon. */
  lemma {:induction false} OwnerAndRepoInjective(u1: string, r1: string, u2: string, r2: string)
    requires ':' !in u1 && ':' !in u2
    requires OwnerAndRepo(u1, r1) == OwnerAndRepo(u2, r2)
    ensures u1 == u2 && r1 == r2
  {
    var k := OwnerAndRepo(u1, r1);
    assert k == u1 + (":" + r1) && k == u2 + (":" + r2);
    if |u1| < |u2| {
      ColonInLonger(u1, r1, u2, r2);
      assert false;
    } else if |u2| < |u1| {
      ColonInLonger(u2, r2, u1, r1);
      assert false;
    }
    assert u1 == k[..|u1|] == u2;
    assert r1 == k[|u1| + 1..] == r2;
  }

  /** A colon in the owner makes two different pins share a key. */
  lemma OwnerAndRepoCollide()
    ensures OwnerAndRepo("a:b", "c") == OwnerAndRepo("a", "b:c")
  {
  }

  /** The cache prefix of a kind of Hugging Face pin. */
  function HfPrefix(icon: HFPinIcon): string {
    match icon
    case Model => ResultCache.HfModelPrefix
    case Dataset => ResultCache.HfDatasetPrefix
    case Space => ResultCache.HfSpacePrefix
  }

  /** The prefix spells the kind as `{:?}` does. */
  lemma HfPrefixSpelled(icon: HFPinIcon)
    ensures HfPrefix(icon) == "huggingface:" + DebugName(icon) + ":"
  {
    match icon
    case Model =>
    case Dataset =>
    case Space =>
  }

  /** `huggingface:{kind}:{username}:{repo}`. */
  function HfCacheKey(icon: HFPinIcon, username: string, repo: string): (key: string)
    ensures IsPrefix(HfPrefix(icon), key) && key[|HfPrefix(icon)|..] == OwnerAndRepo(username, repo)
    ensures ResultCache.KindOf(key) == Some(IconKind(icon))
  {
    var rest := OwnerAndRepo(username, repo);
    ResultCache.KeyKinds(rest);
    var prefix := HfPrefix(icon);
    assert (prefix + rest)[..|prefix|] == prefix && (prefix + rest)[|prefix|..] == rest;
    prefix + rest
  }

  /** `github:repo:{username}:{repo}`. */
  function RepoCacheKey(username: string, repo: string): (key: string)
    ensures IsPrefix(ResultCache.RepoPrefix, key) && key[|ResultCache.RepoPrefix|..] == OwnerAndRepo(username, repo)
    ensures ResultCache.KindOf(key) == Some(ResultCache.RepositoryKind)
  {
    var rest := OwnerAndRepo(username, repo);
    ResultCache.KeyKinds(rest);
    assert (ResultCache.RepoPrefix + rest)[..|ResultCache.RepoPrefix|] == ResultCache.RepoPrefix;
    assert (ResultCache.RepoPrefix + rest)[|ResultCache.RepoPrefix|..] == rest;
    ResultCache.RepoPrefix + rest
  }

  /** `github:gist:{id}`. */
  function GistCacheKey(id: string): (key: string)
    ensures IsPrefix(ResultCache.GistPrefix, key) && key[|ResultCache.GistPrefix|..] == id
    ensures ResultCache.KindOf(key) == Some(ResultCache.GistKind)
  {
    ResultCache.KeyKinds(id);
    assert (ResultCache.GistPrefix + id)[..|ResultCache.GistPrefix|] == ResultCache.GistPrefix;
    assert (ResultCache.GistPrefix + id)[|ResultCache.GistPrefix|..] == id;
    ResultCache.GistPrefix + id
  }

  /** Different pins of the same route never share a key, when owners have no colon. */
  lemma {:induction false} RepoCacheKeyInjective(u1: string, r1: string, u2: string, r2: string)
    requires ':' !in u1 && ':' !in u2
    requires RepoCacheKey(u1, r1) == RepoCacheKey(u2, r2)
    ensures u1 == u2 && r1 == r2
  {
    OwnerAndRepoInjective(u1, r1, u2, r2);
  }

  // ----- the data routes -----

  /**
   * The Hugging Face pin's data. An empty owner or repository fails before the
   * cache is consulted; a cached record is returned as is; otherwise the Hub is
   * asked and only a record is stored. Either way the record is of the kind asked.
   */
  method GetHuggingfacePinImpl(cache: ResultCache.Cache, username: string, repo: string, icon: HFPinIcon,
                               fetchModel: (string, string) -> Upstream.Fetched<HuggingFace.ApiResponse<HuggingFace.Model>>,
                               fetchDataset: (string, string) -> Upstream.Fetched<HuggingFace.ApiResponse<HuggingFace.Dataset>>,
                               fetchSpace: (string, string) -> Upstream.Fetched<HuggingFace.ApiResponse<HuggingFace.Space>>,
                               hfHandleError: string -> PreparedTemplate)
    returns (res: Result<HuggingFace.RepoData, PreparedTemplate>)
    requires cache.Valid()
    modifies cache
    ensures cache.Valid()
    ensures res.Ok? ==> IconOf(res.value) == icon
    ensures username == "" || repo == "" ==> res == Err(FailedFindRepo) && cache.entries == old(cache.entries)
    ensures var key := HfCacheKey(icon, username, repo);
      username != "" && repo != "" && key in old(cache.entries) ==>
        res == Ok(old(cache.entries)[key].repo) && cache.entries == old(cache.entries)
    ensures var key := HfCacheKey(icon, username, repo);
      username != "" && repo != "" && key !in old(cache.entries) ==>
        && res == HuggingfaceGetData(HfFetch(icon, username, repo, fetchModel, fetchDataset, fetchSpace), hfHandleError)
        && cache.entries == if res.Ok? then old(cache.entries)[key := ResultCache.HuggingFaceSnapshot(res.value)]
                            else old(cache.entries)
  {
    if username == "" || repo == "" {
      return Err(FailedFindRepo);
    }
    var key := HfCacheKey(icon, username, repo);
    var hit := cache.Get(key);
    if hit.Some? {
      return Ok(hit.value.repo);
    }
    res := HuggingfaceGetData(HfFetch(icon, username, repo, fetchModel, fetchDataset, fetchSpace), hfHandleError);
    if res.Err? {
      return res;
    }
    SnapshotKind(res.value);
    cache.Insert(key, ResultCache.HuggingFaceSnapshot(res.value));
  }

  /** The GitHub repository pin's data, through the cache as for a Hugging Face pin. */
  method GetGithubPinImpl(cache: ResultCache.Cache, username: string, repo: string,
                          fetch: (string, string) -> Upstream.Fetched<Upstream.RepositoryResponse>,
                          ghHandleError: string -> PreparedTemplate)
    returns (res: Result<Upstream.Repository, PreparedTemplate>)
    requires cache.Valid()
    modifies cache
    ensures cache.Valid()
    ensures username == "" || repo == "" ==> res == Err(FailedFindRepo) && cache.entries == old(cache.entries)
    ensures var key := RepoCacheKey(username, repo);
      username != "" && repo != "" && key in old(cache.entries) ==>
        res == Ok(old(cache.entries)[key].repository) && cache.entries == old(cache.entries)
    ensures var key := RepoCacheKey(username, repo);
      username != "" && repo != "" && key !in old(cache.entries) ==>
        && res == GithubGetData(fetch(username, repo), ghHandleError)
        && cache.entries == if res.Ok? then old(cache.entries)[key := ResultCache.RepositorySnapshot(res.value)]
                            else old(cache.entries)
  {
    if username == "" || repo == "" {
      return Err(FailedFindRepo);
    }
    var key := RepoCacheKey(username, repo);
    var hit := cache.Get(key);
    if hit.Some? {
      return Ok(hit.value.repository);
    }
    res := GithubGetData(fetch(username, repo), ghHandleError);
    if res.Err? {
      return res;
    }
    cache.Insert(key, ResultCache.RepositorySnapshot(res.value));
  }

  /** The gist pin's data, through the cache; an empty id fails before the cache is consulted. */
  method GetGistPinImpl(cache: ResultCache.Cache, id: string,
                        fetch: string -> Upstream.Fetched<Upstream.GistResponse>,
                        ghHandleError: string -> PreparedTemplate)
    returns (res: Result<Upstream.Gist, PreparedTemplate>)
    requires cache.Valid()
    modifies cache
    ensures cache.Valid()
    ensures id == "" ==> res == Err(FailedFindRepo) && cache.entries == old(cache.entries)
    ensures var key := GistCacheKey(id);
      id != "" && key in old(cache.entries) ==>
        res == Ok(old(cache.entries)[key].gist) && cache.entries == old(cache.entries)
    ensures var key := GistCacheKey(id);
      id != "" && key !in old(cache.entries) ==>
        && res == GistGetData(fetch(id), ghHandleError)
        && cache.entries == if res.Ok? then old(cache.entries)[key := ResultCache.GistSnapshot(res.value)]
                            else old(cache.entries)
  {
    if id == "" {
      return Err(FailedFindRepo);
    }
    var key := GistCacheKey(id);
    var hit := cache.Get(key);
    if hit.Some? {
      return Ok(hit.value.gist);
    }
    res := GistGetData(fetch(id), ghHandleError);
    if res.Err? {
      return res;
    }
    cache.Insert(key, ResultCache.GistSnapshot(res.value));
  }

  // ----- Hugging Face tags: which -----

  /** The tags that describe a repository's kind. */
  function KindTags(data: HuggingFace.RepoData): (tags: seq<string>)
    ensures data.DatasetData? ==> |tags| <= 1
    ensures data.SpaceData? ==> tags == ["Running on " + HuggingFace.HardwareDisplay(data.space.runtime.hardware)]
    ensures data.ModelData? ==> |tags| <= 2
  {
    match data
    case ModelData(m) =>
      (if m.config.Some? && m.config.value.modelType.Some? then [m.config.value.modelType.value] else []) +
      (if m.pipelineTag.Some? then [PipelineTags.PipelineTagDisplay(m.pipelineTag.value)] else [])
    case DatasetData(d) =>
      var categories := d.base.cardData.taskCategories;
      if categories.Some? && |categories.value| > 0 then [categories.value[0]] else []
    case SpaceData(s) =>
      ["Running on " + HuggingFace.HardwareDisplay(s.runtime.hardware)]
  }

  /** The license, upper-cased, unless it is exactly `other`. */
  function LicenseTags(data: HuggingFace.RepoData): (tags: seq<string>)
    ensures |tags| <= 1
    ensures tags != [] <==> HuggingFace.GetLicense(data).Some? && HuggingFace.GetLicense(data).value != "other"
    ensures forall i :: 0 <= i < |tags| ==> tags[i] == ToUpper(HuggingFace.GetLicense(data).value)
  {
    match HuggingFace.GetLicense(data)
    case Some(license) => if license != "other" then [ToUpper(license)] else []
    case None => []
  }

  /**
   * The tags a Hugging Face pin offers, in order: those of the kind, then the
   * license; the repository's first tag only when there is none of those.
   */
  function RawTags(data: HuggingFace.RepoData): seq<string> {
    var collected := KindTags(data) + LicenseTags(data);
    if collected != [] then collected
    else if |HuggingFace.GetRepoTags(data)| > 0 then [HuggingFace.GetRepoTags(data)[0]]
    else []
  }

  /** The tags, collected one after another as the pin does. */
  method AssembleTags(data: HuggingFace.RepoData) returns (rawTags: seq<string>)
    ensures rawTags == RawTags(data)
  {
    rawTags := [];
    if data.ModelData? {
      var model := data.model;
      if model.config.Some? && model.config.value.modelType.Some? {
        rawTags := rawTags + [model.config.value.modelType.value];
      }
      if model.pipelineTag.Some? {
        rawTags := rawTags + [PipelineTags.PipelineTagDisplay(model.pipelineTag.value)];
      }
    }
    if data.DatasetData? {
      var categories := data.dataset.base.cardData.taskCategories;
      if categories.Some? && |categories.value| > 0 {
        rawTags := rawTags + [categories.value[0]];
      }
    }
    if data.SpaceData? {
      var runningOn := HuggingFace.HardwareDisplay(data.space.runtime.hardware);
      rawTags := rawTags + ["Running on " + runningOn];
    }
    var license := HuggingFace.GetLicense(data);
    if license.Some? && license.value != "other" {
      rawTags := rawTags + [ToUpper(license.value)];
    }
    if |rawTags| == 0 {
      var repoTags := HuggingFace.GetRepoTags(data);
      if |repoTags| > 0 {
        rawTags := rawTags + [repoTags[0]];
      }
    }
  }

  /**
   * At most three tags; a Space's first tag is its hardware; a license is shown
   * last, upper-cased, exactly when it is not `other`; and the repository's own
   * tag appears only alone.
   */
  lemma RawTagsShape(data: HuggingFace.RepoData)
    ensures |RawTags(data)| <= 3
    ensures data.SpaceData? ==>
      RawTags(data)[0] == "Running on " + HuggingFace.HardwareDisplay(data.space.runtime.hardware)
    ensures var license := HuggingFace.GetLicense(data);
      license.Some? && license.value != "other" ==> RawTags(data)[|RawTags(data)| - 1] == ToUpper(license.value)
    ensures KindTags(data) == [] && LicenseTags(data) == [] ==> |RawTags(data)| <= 1
    ensures KindTags(data) + LicenseTags(data) != [] ==> RawTags(data)[..|KindTags(data)|] == KindTags(data)
  {
  }

  // ----- Hugging Face tags: where -----

  /** A tag as the pin draws it; a tag that would reach past the pin is not drawn. */
  datatype HFTag = HFTag(name: string, width: nat, translateX: nat, visible: bool)

  function TagWidth(tag: string, calcWidth: string -> nat): nat {
    calcWidth(tag) + TagPadding
  }

  /** The tag cursor after `tags`: each tag's width and a gap, drawn or not. */
  function TagsAdvance(tags: seq<string>, calcWidth: string -> nat): nat {
    if tags == [] then 0
    else TagsAdvance(tags[..|tags| - 1], calcWidth) + TagWidth(tags[|tags| - 1], calcWidth) + TagGap
  }

  /** Every tag placed after the tags before it, marked drawn when it ends within the pin. */
  function PlacedTags(tags: seq<string>, calcWidth: string -> nat): (placed: seq<HFTag>)
    ensures |placed| == |tags|
  {
    seq(|tags|, i requires 0 <= i < |tags| =>
      var width := TagWidth(tags[i], calcWidth);
      var x := TagsAdvance(tags[..i], calcWidth);
      HFTag(tags[i], width, x, width + x <= MaxPinWidth))
  }

  /**
   * Tag i is as wide as its text plus the padding, starts at the cursor after the
   * tags before it, and is drawn exactly when it ends within the pin.
   */
  lemma PlacedTagsAt(tags: seq<string>, calcWidth: string -> nat)
    ensures var placed := PlacedTags(tags, calcWidth);
      forall i :: 0 <= i < |placed| ==>
        && placed[i].name == tags[i] && placed[i].width == calcWidth(tags[i]) + TagPadding
        && placed[i].translateX == TagsAdvance(tags[..i], calcWidth)
        && (placed[i].visible <==> placed[i].translateX + placed[i].width <= MaxPinWidth)
  {
  }

  /** The drawn tags, in order. */
  function VisibleTags(placed: seq<HFTag>): (kept: seq<HFTag>)
    ensures |kept| <= |placed|
  {
    if placed == [] then []
    else VisibleTags(placed[..|placed| - 1]) + (if placed[|placed| - 1].visible then [placed[|placed| - 1]] else [])
  }

  lemma TagsAdvanceSnoc(tags: seq<string>, tag: string, calcWidth: string -> nat)
    ensures TagsAdvance(tags + [tag], calcWidth) == TagsAdvance(tags, calcWidth) + TagWidth(tag, calcWidth) + TagGap
  {
    assert (tags + [tag])[..|tags|] == tags;
  }

  lemma PlacedTagsSnoc(tags: seq<string>, tag: string, calcWidth: string -> nat)
    ensures PlacedTags(tags + [tag], calcWidth) ==
      PlacedTags(tags, calcWidth) +
      [HFTag(tag, TagWidth(tag, calcWidth), TagsAdvance(tags, calcWidth),
             TagWidth(tag, calcWidth) + TagsAdvance(tags, calcWidth) <= MaxPinWidth)]
  {
    var next := tags + [tag];
    assert next[..|tags|] == tags;
    assert forall i :: 0 <= i < |tags| ==> next[..i] == tags[..i];
  }

  lemma VisibleTagsSnoc(placed: seq<HFTag>, t: HFTag)
    ensures VisibleTags(placed + [t]) == VisibleTags(placed) + (if t.visible then [t] else [])
  {
    assert (placed + [t])[..|placed|] == placed;
  }

  /** The tag strip after the first `i` tags: the cursor, and the tags kept so far. */
  ghost predicate Strip(rawTags: seq<string>, i: nat, calcWidth: string -> nat, translateX: nat, tags: seq<HFTag>)
    requires i <= |rawTags|
  {
    translateX == TagsAdvance(rawTags[..i], calcWidth) && tags == VisibleTags(PlacedTags(rawTags[..i], calcWidth))
  }

  /** Placing one more tag at the cursor: the cursor moves on, and the tag is kept iff it fits. */
  lemma LayoutStep(rawTags: seq<string>, i: nat, calcWidth: string -> nat, translateX: nat, tags: seq<HFTag>)
    requires i < |rawTags| && Strip(rawTags, i, calcWidth, translateX, tags)
    ensures var width := calcWidth(rawTags[i]) + TagPadding;
      var placed := HFTag(rawTags[i], width, translateX, width + translateX <= MaxPinWidth);
      Strip(rawTags, i + 1, calcWidth, translateX + width + TagGap, tags + (if placed.visible then [placed] else []))
  {
    var done, tag := rawTags[..i], rawTags[i];
    assert rawTags[..i + 1] == done + [tag];
    TagsAdvanceSnoc(done, tag, calcWidth);
    PlacedTagsSnoc(done, tag, calcWidth);
    var width := TagWidth(tag, calcWidth);
    VisibleTagsSnoc(PlacedTags(done, calcWidth), HFTag(tag, width, translateX, width + translateX <= MaxPinWidth));
  }

  /**
   * Each tag is measured and placed at the running cursor, which moves on by the
   * tag's width and a gap whether or not the tag is drawn; then the tags that fit
   * are kept.
   */
  method LayoutTags(rawTags: seq<string>, calcWidth: string -> nat) returns (tags: seq<HFTag>)
    ensures tags == VisibleTags(PlacedTags(rawTags, calcWidth))
  {
    tags := [];
    var translateX: nat := 0;
    for i := 0 to |rawTags|
      invariant Strip(rawTags, i, calcWidth, translateX, tags)
    {
      LayoutStep(rawTags, i, calcWidth, translateX, tags);
      var tag := rawTags[i];
      var width := calcWidth(tag) + TagPadding;
      var placed := HFTag(tag, width, translateX, width + translateX <= MaxPinWidth);
      translateX := translateX + width + TagGap;
      if placed.visible {
        tags := tags + [placed];
      }
    }
    assert rawTags[..|rawTags|] == rawTags;
  }

  lemma {:induction false} TagsAdvanceMonotone(tags: seq<string>, calcWidth: string -> nat, i: nat, j: nat)
    requires i < j <= |tags|
    ensures TagsAdvance(tags[..i], calcWidth) + TagWidth(tags[i], calcWidth) + TagGap <= TagsAdvance(tags[..j], calcWidth)
    decreases j
  {
    assert tags[..j][..j - 1] == tags[..j - 1];
    if i < j - 1 {
      TagsAdvanceMonotone(tags, calcWidth, i, j - 1);
    }
  }

  /** Once a tag does not fit, no later tag does. */
  predicate FitsThenEarlierFit(placed: seq<HFTag>) {
    forall i, j :: 0 <= i <= j < |placed| && placed[j].visible ==> placed[i].visible
  }

  lemma {:induction false} VisibleTagsPrefix(placed: seq<HFTag>)
    requires FitsThenEarlierFit(placed)
    ensures var kept := VisibleTags(placed);
      && |kept| <= |placed| && kept == placed[..|kept|] && (|kept| < |placed| ==> !placed[|kept|].visible)
      && (forall i :: 0 <= i < |kept| ==> kept[i].visible)
  {
    if placed != [] {
      var init := placed[..|placed| - 1];
      var last := placed[|placed| - 1];
      assert placed == init + [last];
      assert FitsThenEarlierFit(init);
      VisibleTagsPrefix(init);
      VisibleTagsSnoc(init, last);
      var k := |VisibleTags(init)|;
      if last.visible {
        if k < |init| {
          assert false;
        }
        assert VisibleTags(init) == init;
      }
    }
  }

  /**
   * The drawn tags are the first tags offered, in order, up to the first that
   * does not fit; each ends within the pin; and each starts after the one before
   * it ends, with a gap.
   */
  lemma KeptTagsArePrefix(rawTags: seq<string>, calcWidth: string -> nat)
    ensures var placed := PlacedTags(rawTags, calcWidth);
      var kept := VisibleTags(placed);
      && kept == placed[..|kept|]
      && (|kept| < |placed| ==> !placed[|kept|].visible)
      && (forall i :: 0 <= i < |kept| ==> kept[i].name == rawTags[i] && kept[i].translateX + kept[i].width <= MaxPinWidth)
      && (forall i, j :: 0 <= i < j < |kept| ==> kept[i].translateX + kept[i].width + TagGap <= kept[j].translateX)
  {
    var placed := PlacedTags(rawTags, calcWidth);
    PlacedTagsAt(rawTags, calcWidth);
    forall i, j | 0 <= i < j < |placed|
      ensures placed[i].translateX + placed[i].width + TagGap <= placed[j].translateX
    {
      TagsAdvanceMonotone(rawTags, calcWidth, i, j);
    }
    assert FitsThenEarlierFit(placed);
    VisibleTagsPrefix(placed);
    var kept := VisibleTags(placed);
    forall i | 0 <= i < |kept|
      ensures kept[i].name == rawTags[i] && kept[i].translateX + kept[i].width <= MaxPinWidth
    {
      assert kept[i] == placed[i];
    }
    forall i, j | 0 <= i < j < |kept|
      ensures kept[i].translateX + kept[i].width + TagGap <= kept[j].translateX
    {
      assert kept[i] == placed[i] && kept[j] == placed[j];
    }
  }

  // ----- the Hugging Face pin -----

  /** What a Hugging Face pin draws. */
  datatype HFPinLayout = HFPinLayout(
    name: string,
    desc: string,
    repoText: string,
    likes: string,
    downloads: Option<string>,
    icon: HFPinIcon,
    tags: seq<HFTag>,
    theme: Themes.ThemeData)

  /**
   * The Hugging Face pin: an error as its card; otherwise the record's counters,
   * its kind, the tags that fit, and the full id as the title when the owner is
   * shown.
   */
  method RenderHuggingfacePin(username: string, repo: string, showOwner: bool, theme: Themes.Theme,
                              pinData: Result<HuggingFace.RepoData, PreparedTemplate>,
                              calcWidth: string -> nat, fmtNum: int -> string)
    returns (page: Page<HFPinLayout>)
    ensures pinData.Err? ==> page == ErrorPage(Render(pinData.error))
    ensures pinData.Ok? ==>
      var data := pinData.value;
      page == CardPage(HFPinLayout(
        username, repo,
        if showOwner then HuggingFace.GetId(data) else repo,
        HuggingFace.GetLikes(data, fmtNum),
        HuggingFace.GetDownloadsCount(data, fmtNum),
        IconOf(data),
        VisibleTags(PlacedTags(RawTags(data), calcWidth)),
        Themes.GetData(theme)))
  {
    if pinData.Err? {
      return ErrorPage(Render(pinData.error));
    }
    var data := pinData.value;
    var rawTags := AssembleTags(data);
    var downloads := HuggingFace.GetDownloadsCount(data, fmtNum);
    var icon := IconOf(data);
    var likes := HuggingFace.GetLikes(data, fmtNum);
    var tags := LayoutTags(rawTags, calcWidth);
    var repoText := if showOwner then HuggingFace.GetId(data) else repo;
    page := CardPage(HFPinLayout(username, repo, repoText, likes, downloads, icon, tags, Themes.GetData(theme)));
  }

  // ----- the GitHub pins -----

  /** A language as a pin shows it: its name, its text width and its colour. */
  datatype GHLangText = GHLangText(name: string, width: nat, color: string)

  /** What a repository or gist pin draws. */
  datatype GHPinLayout = GHPinLayout(
    name: string,
    desc: string,
    repoText: string,
    icon: GHPinIcon,
    rows: seq<string>,
    language: Option<GHLangText>,
    stars: Option<string>,
    forks: Option<string>,
    isSingleTextRow: bool,
    metaCountersXIndent: nat,
    forksCounterXIndent: nat,
    theme: Themes.ThemeData)

  /** The description wrapped into rows, or the fixed line when there is none. */
  function DescriptionRows(description: Option<string>, wrapRows: string -> seq<string>): (rows: seq<string>)
    ensures description.None? ==> rows == [NoDescription]
    ensures description.Some? ==> rows == wrapRows(description.value)
  {
    match description
    case Some(desc) => wrapRows(desc)
    case None => [NoDescription]
  }

  /** A counter as the pin shows it: hidden when zero, otherwise formatted after the cast to `i32`. */
  function Counter(count: int, fmtNum: int -> string): (shown: Option<string>)
    ensures shown.None? <==> count == 0
    ensures shown.Some? ==> shown.value == fmtNum(AsI32(count))
  {
    if count == 0 then None else Some(fmtNum(AsI32(count)))
  }

  function LangText(name: string, calcWidth: string -> nat, colors: map<string, string>): (lang: GHLangText)
    ensures lang.name == name && lang.width == calcWidth(name)
    ensures lang.color == Language.LangColor(colors, name)
  {
    GHLangText(name, calcWidth(name), Language.LangColor(colors, name))
  }

  /** How far the star and fork counters are pushed right by a language. */
  function MetaCountersIndent(language: Option<GHLangText>): (indent: nat)
    ensures language.None? ==> indent == 0
    ensures language.Some? ==> indent == language.value.width + CounterGap
  {
    if language.Some? then language.value.width + CounterGap else 0
  }

  /** How far the fork counter is pushed right by the stars. */
  function ForksCounterIndent(stars: Option<string>, calcWidth: string -> nat): (indent: nat)
    ensures stars.None? ==> indent == 0
    ensures stars.Some? ==> indent == calcWidth(stars.value) + CounterGap
  {
    if stars.Some? then calcWidth(stars.value) + CounterGap else 0
  }

  /** The pin's fields shared by repositories and gists. */
  function GithubPinLayout(username: string, repo: string, showOwner: bool, icon: GHPinIcon, theme: Themes.Theme,
                           description: Option<string>, language: Option<GHLangText>, stars: Option<string>,
                           forks: Option<string>, wrapRows: string -> seq<string>, calcWidth: string -> nat)
    : (layout: GHPinLayout)
    ensures layout.name == username && layout.desc == repo && layout.icon == icon
    ensures layout.repoText == if showOwner then username + "/" + repo else repo
    ensures layout.rows == DescriptionRows(description, wrapRows)
    ensures layout.isSingleTextRow <==> |layout.rows| == 1
    ensures layout.language == language && layout.stars == stars && layout.forks == forks
    ensures layout.metaCountersXIndent == MetaCountersIndent(language)
    ensures layout.forksCounterXIndent == ForksCounterIndent(stars, calcWidth)
    ensures layout.theme == Themes.GetData(theme)
  {
    var rows := DescriptionRows(description, wrapRows);
    GHPinLayout(username, repo, if showOwner then username + "/" + repo else repo, icon, rows, language, stars, forks,
                |rows| == 1, MetaCountersIndent(language), ForksCounterIndent(stars, calcWidth), Themes.GetData(theme))
  }

  /**
   * The repository pin: an error as its card; otherwise the description rows,
   * the language, and the star and fork counters, each hidden when zero.
   */
  function RenderGithubPin(username: string, repo: string, showOwner: bool, theme: Themes.Theme,
                           repoData: Result<Upstream.Repository, PreparedTemplate>,
                           wrapRows: string -> seq<string>, calcWidth: string -> nat, fmtNum: int -> string,
                           colors: map<string, string>)
    : (page: Page<GHPinLayout>)
    ensures repoData.Err? ==> page == ErrorPage(Render(repoData.error))
    ensures repoData.Ok? ==> page.CardPage? && page.layout.icon == Repo && page.layout.name == username
    ensures repoData.Ok? ==> (page.layout.stars.None? <==> repoData.value.stargazersCount == 0)
    ensures repoData.Ok? ==> (page.layout.forks.None? <==> repoData.value.forksCount == 0)
    ensures repoData.Ok? ==> (page.layout.language.None? <==> repoData.value.language.None?)
    ensures repoData.Ok? && repoData.value.description.None? ==>
      page.layout.rows == [NoDescription] && page.layout.isSingleTextRow
  {
    match repoData
    case Err(e) => ErrorPage(Render(e))
    case Ok(data) =>
      var language := if data.language.Some? then Some(LangText(data.language.value, calcWidth, colors)) else None;
      var stars := Counter(data.stargazersCount, fmtNum);
      var forks := Counter(data.forksCount, fmtNum);
      CardPage(GithubPinLayout(username, repo, showOwner, Repo, theme, data.description, language, stars, forks,
                               wrapRows, calcWidth))
  }

  /**
   * The largest file of a gist: of several equally large, the last, as Rust's
   * `max_by_key` picks it.
   */
  function LargestFile(files: seq<Upstream.GistFile>): (idx: Option<nat>)
    ensures idx.Some? <==> files != []
    ensures idx.Some? ==> idx.value < |files|
    ensures idx.Some? ==> forall j :: 0 <= j < |files| ==> files[j].size <= files[idx.value].size
    ensures idx.Some? ==> forall j :: idx.value < j < |files| ==> files[j].size < files[idx.value].size
  {
    if files == [] then None
    else
      var best := LargestFile(files[..|files| - 1]);
      if best.None? || files[best.value].size <= files[|files| - 1].size then Some(|files| - 1) else best
  }

  /**
   * The gist pin: titled with the largest file's name (the gist id without
   * files) and showing that file's language; the owner is the gist's; the fork
   * counter is read as `i32` before the zero test.
   */
  function RenderGithubGist(gistId: string, showOwner: bool, theme: Themes.Theme,
                            gistData: Result<Upstream.Gist, PreparedTemplate>,
                            wrapRows: string -> seq<string>, calcWidth: string -> nat, fmtNum: int -> string,
                            colors: map<string, string>)
    : (page: Page<GHPinLayout>)
    ensures gistData.Err? ==> page == ErrorPage(Render(gistData.error))
    ensures gistData.Ok? ==> page.CardPage? && page.layout.icon == Gist && page.layout.name == gistData.value.ownerLogin
    ensures gistData.Ok? ==>
      var files := gistData.value.files;
      match LargestFile(files)
      case None => page.layout.desc == gistId && page.layout.language.None?
      case Some(i) =>
        page.layout.desc == files[i].name && page.layout.language == Some(LangText(files[i].languageName, calcWidth, colors))
    ensures gistData.Ok? ==> (page.layout.stars.None? <==> gistData.value.stargazerCount == 0)
    ensures gistData.Ok? ==> (page.layout.forks.None? <==> AsI32(gistData.value.forksTotalCount) == 0)
  {
    match gistData
    case Err(e) => ErrorPage(Render(e))
    case Ok(gist) =>
      var largest := LargestFile(gist.files);
      var language := if largest.Some? then Some(LangText(gist.files[largest.value].languageName, calcWidth, colors)) else None;
      var repo := if largest.Some? then gist.files[largest.value].name else gistId;
      var stars := Counter(gist.stargazerCount, fmtNum);
      var forks := Counter(AsI32(gist.forksTotalCount), fmtNum);
      CardPage(GithubPinLayout(gist.ownerLogin, repo, showOwner, Gist, theme, gist.description, language, stars, forks,
                               wrapRows, calcWidth))
  }

  /** Casting to `i32` twice is casting once, so the gist's fork counter shows the cast count. */
  lemma GistForksShown(total: int, fmtNum: int -> string)
    requires AsI32(total) != 0
    ensures Counter(AsI32(total), fmtNum) == Some(fmtNum(AsI32(total)))
  {
    assert AsI32(AsI32(total)) == AsI32(total);
  }

  /** A fork total that is a non-zero multiple of 2^32 is hidden as if there were none. */
  lemma GistForksWrapHidden()
    ensures Counter(AsI32(TwoTo32), (n: int) => "") == None
  {
  }
}
