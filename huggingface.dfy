/**
 * The Hugging Face Hub's repository records as the pins read them: pipeline tags
 * and Space hardware with their labels, and the accessors shared by models,
 * datasets and Spaces.
 */
module HuggingFace {
  import opened Wrappers
  import opened Casts
  import opened PipelineTags

  datatype SpaceRuntimeStage =
    | NoAppFile
    | ConfigError
    | Building
    | BuildError
    | AppStarting
    | Running
    | RunningBuilding
    | RunningAppStarting
    | RuntimeError
    | Deleting
    | Stopped
    | Paused
    | Sleeping

  datatype SpaceRuntimeHardware =
    | CpuBasic
    | CpuUpgrade
    | CpuPerfomance
    | CpuXL
    | A100Large
    | ZeroA10G
    | A10GLarge
    | A10GLargeX2
    | A10GLargeX4
    | A10GSmall
    | H100
    | H100X8
    | T4Medium
    | T4Small
    | L4X1
    | L4X4
    | L40SX1
    | L40SX4
    | L40SX8

  /** The label a Space's hardware is shown with; size variants share their family's label. */
  function HardwareDisplay(h: SpaceRuntimeHardware): string {
    match h
    case CpuUpgrade => "CPU Upgrade"
    case CpuPerfomance => "CPU Performance"
    case A100Large => "A100 Large"
    case ZeroA10G => "Zero"
    case A10GLarge => "A10G"
    case A10GLargeX2 => "A10G"
    case A10GLargeX4 => "A10G"
    case A10GSmall => "A10G"
    case H100 => "H100"
    case H100X8 => "H100"
    case T4Medium => "T4"
    case T4Small => "T4"
    case L4X1 => "L4"
    case L4X4 => "L4"
    case L40SX1 => "L40S"
    case L40SX4 => "L40S"
    case L40SX8 => "L40S"
    case _ => ""
  }

  /** Only the basic and XL CPU tiers have an empty label. */
  lemma HardwareDisplayEmpty(h: SpaceRuntimeHardware)
    ensures HardwareDisplay(h) == "" <==> h == CpuBasic || h == CpuXL
  {
  }

  /** The four A10G sizes, and nothing else, are all labelled "A10G". */
  lemma HardwareDisplayA10G(h: SpaceRuntimeHardware)
    ensures HardwareDisplay(h) == "A10G" <==> h == A10GLarge || h == A10GLargeX2 || h == A10GLargeX4 || h == A10GSmall
  {
  }

  /** The three L40S sizes, and nothing else, are all labelled "L40S". */
  lemma HardwareDisplayL40S(h: SpaceRuntimeHardware)
    ensures HardwareDisplay(h) == "L40S" <==> h == L40SX1 || h == L40SX4 || h == L40SX8
  {
  }

  datatype CardData = CardData(license: Option<string>, tags: Option<seq<string>>, taskCategories: Option<seq<string>>)

  datatype ModelConfig = ModelConfig(modelType: Option<string>)

  /** The fields every kind of repository carries. */
  datatype BaseData = BaseData(
    internalId: string,
    id: string,
    isPrivate: bool,
    tags: seq<string>,
    likes: U32,
    author: string,
    lastModified: string,
    disabled: bool,
    cardData: CardData,
    createdAt: string)

  datatype Model = Model(
    base: BaseData,
    pipelineTag: Option<PipelineTag>,
    libraryName: Option<string>,
    downloads: U32,
    modelId: string,
    config: Option<ModelConfig>)

  datatype SpaceRuntime = SpaceRuntime(stage: SpaceRuntimeStage, hardware: SpaceRuntimeHardware)

  datatype Space = Space(base: BaseData, subdomain: string, host: string, runtime: SpaceRuntime)

  datatype Dataset = Dataset(base: BaseData, downloads: U32)

  /** A Hub answer: the error object, tried first, or the record asked for. */
  datatype ApiResponse<T> = Failed(error: string) | Valid(value: T)

  datatype RepoResponse =
    | ModelResponse(model: ApiResponse<Model>)
    | DatasetResponse(dataset: ApiResponse<Dataset>)
    | SpaceResponse(space: ApiResponse<Space>)

  /** A model, dataset or Space record. */
  datatype RepoData = ModelData(model: Model) | DatasetData(dataset: Dataset) | SpaceData(space: Space)

  /** The shared base record of any repository. */
  function Base(r: RepoData): BaseData {
    match r
    case ModelData(m) => m.base
    case DatasetData(d) => d.base
    case SpaceData(s) => s.base
  }

  function GetId(r: RepoData): (id: string)
    ensures id == Base(r).id
  {
    match r
    case ModelData(m) => m.base.id
    case DatasetData(d) => d.base.id
    case SpaceData(s) => s.base.id
  }

  /** The like count, cast to `i32` and formatted. */
  function GetLikes(r: RepoData, fmtNum: int -> string): (likes: string)
    ensures likes == fmtNum(AsI32(Base(r).likes))
  {
    var n := match r
      case ModelData(m) => m.base.likes
      case DatasetData(d) => d.base.likes
      case SpaceData(s) => s.base.likes;
    fmtNum(AsI32(n))
  }

  function GetLicense(r: RepoData): (license: Option<string>)
    ensures license == Base(r).cardData.license
  {
    match r
    case ModelData(m) => m.base.cardData.license
    case DatasetData(d) => d.base.cardData.license
    case SpaceData(s) => s.base.cardData.license
  }

  /** Models and datasets show their download count, cast to `i32` and formatted; Spaces show none. */
  function GetDownloadsCount(r: RepoData, fmtNum: int -> string): (downloads: Option<string>)
    ensures downloads.None? <==> r.SpaceData?
    ensures r.ModelData? ==> downloads == Some(fmtNum(AsI32(r.model.downloads)))
    ensures r.DatasetData? ==> downloads == Some(fmtNum(AsI32(r.dataset.downloads)))
  {
    match r
    case ModelData(m) => Some(fmtNum(AsI32(m.downloads)))
    case DatasetData(d) => Some(fmtNum(AsI32(d.downloads)))
    case SpaceData(_) => None
  }

  function GetRepoTags(r: RepoData): (tags: seq<string>)
    ensures tags == Base(r).tags
  {
    match r
    case ModelData(m) => m.base.tags
    case DatasetData(d) => d.base.tags
    case SpaceData(s) => s.base.tags
  }
}
