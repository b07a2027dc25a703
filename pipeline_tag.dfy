/**
 * Pipeline tags of Hugging Face models: the name each is written as in the Hub's
 * JSON and the label a card shows for it.
 */
module PipelineTags {
  import opened Wrappers

  datatype PipelineTag =
    | TextClassification
    | TokenClassification
    | TableQuestionAnswering
    | QuestionAnswering
    | ZeroShotClassification
    | Translation
    | Summarization
    | FeatureExtraction
    | TextGeneration
    | Text2TextGeneration
    | FillMask
    | SentenceSimilarity
    | TexttoSpeech
    | TexttoAudio
    | AutomaticSpeechRecognition
    | AudiotoAudio
    | AudioClassification
    | AudioTexttoText
    | VoiceActivityDetection
    | DepthEstimation
    | ImageClassification
    | ObjectDetection
    | ImageSegmentation
    | TexttoImage
    | ImagetoText
    | ImagetoImage
    | ImagetoVideo
    | UnconditionalImageGeneration
    | VideoClassification
    | ReinforcementLearning
    | Robotics
    | TabularClassification
    | TabularRegression
    | TabulartoText
    | TabletoText
    | MultipleChoice
    | TextRanking
    | TextRetrieval
    | TimeSeriesForecasting
    | TexttoVideo
    | ImageTexttoText
    | VisualQuestionAnswering
    | DocumentQuestionAnswering
    | ZeroShotImageClassification
    | GraphMachineLearning
    | MaskGeneration
    | ZeroShotObjectDetection
    | Textto3D
    | Imageto3D
    | ImageFeatureExtraction
    | VideoTexttoText
    | KeypointDetection
    | VisualDocumentRetrieval
    | AnytoAny
    | Other

  /** The name a pipeline tag is written as in the Hub's JSON (its serde rename). */
  function PipelineTagName(t: PipelineTag): string {
    match t
    case TextClassification => "text-classification"
    case TokenClassification => "token-classification"
    case TableQuestionAnswering => "table-question-answering"
    case QuestionAnswering => "question-answering"
    case ZeroShotClassification => "zero-shot-classification"
    case Translation => "translation"
    case Summarization => "summarization"
    case FeatureExtraction => "feature-extraction"
    case TextGeneration => "text-generation"
    case Text2TextGeneration => "text2text-generation"
    case FillMask => "fill-mask"
    case SentenceSimilarity => "sentence-similarity"
    case TexttoSpeech => "text-to-speech"
    case TexttoAudio => "text-to-audio"
    case AutomaticSpeechRecognition => "automatic-speech-recognition"
    case AudiotoAudio => "audio-to-audio"
    case AudioClassification => "audio-classification"
    case AudioTexttoText => "audio-text-to-text"
    case VoiceActivityDetection => "voice-activity-detection"
    case DepthEstimation => "depth-estimation"
    case ImageClassification => "image-classification"
    case ObjectDetection => "object-detection"
    case ImageSegmentation => "image-segmentation"
    case TexttoImage => "text-to-image"
    case ImagetoText => "image-to-text"
    case ImagetoImage => "image-to-image"
    case ImagetoVideo => "image-to-video"
    case UnconditionalImageGeneration => "unconditional-image-generation"
    case VideoClassification => "video-classification"
    case ReinforcementLearning => "reinforcement-learning"
    case Robotics => "robotics"
    case TabularClassification => "tabular-classification"
    case TabularRegression => "tabular-regression"
    case TabulartoText => "tabular-to-text"
    case TabletoText => "table-to-text"
    case MultipleChoice => "multiple-choice"
    case TextRanking => "text-ranking"
    case TextRetrieval => "text-retrieval"
    case TimeSeriesForecasting => "time-series-forecasting"
    case TexttoVideo => "text-to-video"
    case ImageTexttoText => "image-text-to-text"
    case VisualQuestionAnswering => "visual-question-answering"
    case DocumentQuestionAnswering => "document-question-answering"
    case ZeroShotImageClassification => "zero-shot-image-classification"
    case GraphMachineLearning => "graph-ml"
    case MaskGeneration => "mask-generation"
    case ZeroShotObjectDetection => "zero-shot-object-detection"
    case Textto3D => "text-to-3d"
    case Imageto3D => "image-to-3d"
    case ImageFeatureExtraction => "image-feature-extraction"
    case VideoTexttoText => "video-text-to-text"
    case KeypointDetection => "keypoint-detection"
    case VisualDocumentRetrieval => "visual-document-retrieval"
    case AnytoAny => "any-to-any"
    case Other => "other"
  }

  /**
   * The pipeline tag a JSON name denotes, if any. Names are grouped by length,
   * so each name is compared only with the names of its own length.
   */
  function ParsePipelineTag(s: string): (r: Option<PipelineTag>)
  {
    match |s|
    case 5 =>
      (match s
      case "other" => Some(Other)
      case _ => None)
    case 8 =>
      (match s
      case "robotics" => Some(Robotics)
      case "graph-ml" => Some(GraphMachineLearning)
      case _ => None)
    case 9 =>
      (match s
      case "fill-mask" => Some(FillMask)
      case _ => None)
    case 10 =>
      (match s
      case "text-to-3d" => Some(Textto3D)
      case "any-to-any" => Some(AnytoAny)
      case _ => None)
    case 11 =>
      (match s
      case "translation" => Some(Translation)
      case "image-to-3d" => Some(Imageto3D)
      case _ => None)
    case 12 =>
      (match s
      case "text-ranking" => Some(TextRanking)
      case _ => None)
    case 13 =>
      (match s
      case "summarization" => Some(Summarization)
      case "text-to-audio" => Some(TexttoAudio)
      case "text-to-image" => Some(TexttoImage)
      case "image-to-text" => Some(ImagetoText)
      case "table-to-text" => Some(TabletoText)
      case "text-to-video" => Some(TexttoVideo)
      case _ => None)
    case 14 =>
      (match s
      case "text-to-speech" => Some(TexttoSpeech)
      case "audio-to-audio" => Some(AudiotoAudio)
      case "image-to-image" => Some(ImagetoImage)
      case "image-to-video" => Some(ImagetoVideo)
      case "text-retrieval" => Some(TextRetrieval)
      case _ => None)
    case 15 =>
      (match s
      case "text-generation" => Some(TextGeneration)
      case "tabular-to-text" => Some(TabulartoText)
      case "multiple-choice" => Some(MultipleChoice)
      case "mask-generation" => Some(MaskGeneration)
      case _ => None)
    case 16 =>
      (match s
      case "depth-estimation" => Some(DepthEstimation)
      case "object-detection" => Some(ObjectDetection)
      case _ => None)
    case 18 =>
      (match s
      case "question-answering" => Some(QuestionAnswering)
      case "feature-extraction" => Some(FeatureExtraction)
      case "audio-text-to-text" => Some(AudioTexttoText)
      case "image-segmentation" => Some(ImageSegmentation)
      case "tabular-regression" => Some(TabularRegression)
      case "image-text-to-text" => Some(ImageTexttoText)
      case "video-text-to-text" => Some(VideoTexttoText)
      case "keypoint-detection" => Some(KeypointDetection)
      case _ => None)
    case 19 =>
      (match s
      case "text-classification" => Some(TextClassification)
      case "sentence-similarity" => Some(SentenceSimilarity)
      case _ => None)
    case 20 =>
      (match s
      case "token-classification" => Some(TokenClassification)
      case "text2text-generation" => Some(Text2TextGeneration)
      case "audio-classification" => Some(AudioClassification)
      case "image-classification" => Some(ImageClassification)
      case "video-classification" => Some(VideoClassification)
      case _ => None)
    case 22 =>
      (match s
      case "reinforcement-learning" => Some(ReinforcementLearning)
      case "tabular-classification" => Some(TabularClassification)
      case _ => None)
    case 23 =>
      (match s
      case "time-series-forecasting" => Some(TimeSeriesForecasting)
      case _ => None)
    case 24 =>
      (match s
      case "table-question-answering" => Some(TableQuestionAnswering)
      case "zero-shot-classification" => Some(ZeroShotClassification)
      case "voice-activity-detection" => Some(VoiceActivityDetection)
      case "image-feature-extraction" => Some(ImageFeatureExtraction)
      case _ => None)
    case 25 =>
      (match s
      case "visual-question-answering" => Some(VisualQuestionAnswering)
      case "visual-document-retrieval" => Some(VisualDocumentRetrieval)
      case _ => None)
    case 26 =>
      (match s
      case "zero-shot-object-detection" => Some(ZeroShotObjectDetection)
      case _ => None)
    case 27 =>
      (match s
      case "document-question-answering" => Some(DocumentQuestionAnswering)
      case _ => None)
    case 28 =>
      (match s
      case "automatic-speech-recognition" => Some(AutomaticSpeechRecognition)
      case _ => None)
    case 30 =>
      (match s
      case "unconditional-image-generation" => Some(UnconditionalImageGeneration)
      case "zero-shot-image-classification" => Some(ZeroShotImageClassification)
      case _ => None)
    case _ => None
  }

  /** Every pipeline tag's JSON name is read back as that tag. */
  lemma PipelineTagNameRoundTrip(t: PipelineTag)
    ensures ParsePipelineTag(PipelineTagName(t)) == Some(t)
  {
    match t
    case TextClassification => PipelineTagNameRoundTripGroup0();
    case TokenClassification => PipelineTagNameRoundTripGroup0();
    case TableQuestionAnswering => PipelineTagNameRoundTripGroup0();
    case QuestionAnswering => PipelineTagNameRoundTripGroup0();
    case ZeroShotClassification => PipelineTagNameRoundTripGroup1();
    case Translation => PipelineTagNameRoundTripGroup1();
    case Summarization => PipelineTagNameRoundTripGroup1();
    case FeatureExtraction => PipelineTagNameRoundTripGroup1();
    case TextGeneration => PipelineTagNameRoundTripGroup2();
    case Text2TextGeneration => PipelineTagNameRoundTripGroup2();
    case FillMask => PipelineTagNameRoundTripGroup2();
    case SentenceSimilarity => PipelineTagNameRoundTripGroup2();
    case TexttoSpeech => PipelineTagNameRoundTripGroup3();
    case TexttoAudio => PipelineTagNameRoundTripGroup3();
    case AutomaticSpeechRecognition => PipelineTagNameRoundTripGroup3();
    case AudiotoAudio => PipelineTagNameRoundTripGroup3();
    case AudioClassification => PipelineTagNameRoundTripGroup4();
    case AudioTexttoText => PipelineTagNameRoundTripGroup4();
    case VoiceActivityDetection => PipelineTagNameRoundTripGroup4();
    case DepthEstimation => PipelineTagNameRoundTripGroup5();
    case ImageClassification => PipelineTagNameRoundTripGroup5();
    case ObjectDetection => PipelineTagNameRoundTripGroup5();
    case ImageSegmentation => PipelineTagNameRoundTripGroup6();
    case TexttoImage => PipelineTagNameRoundTripGroup6();
    case ImagetoText => PipelineTagNameRoundTripGroup6();
    case ImagetoImage => PipelineTagNameRoundTripGroup7();
    case ImagetoVideo => PipelineTagNameRoundTripGroup7();
    case UnconditionalImageGeneration => PipelineTagNameRoundTripGroup7();
    case VideoClassification => PipelineTagNameRoundTripGroup8();
    case ReinforcementLearning => PipelineTagNameRoundTripGroup8();
    case Robotics => PipelineTagNameRoundTripGroup8();
    case TabularClassification => PipelineTagNameRoundTripGroup9();
    case TabularRegression => PipelineTagNameRoundTripGroup9();
    case TabulartoText => PipelineTagNameRoundTripGroup9();
    case TabletoText => PipelineTagNameRoundTripGroup10();
    case MultipleChoice => PipelineTagNameRoundTripGroup10();
    case TextRanking => PipelineTagNameRoundTripGroup10();
    case TextRetrieval => PipelineTagNameRoundTripGroup11();
    case TimeSeriesForecasting => PipelineTagNameRoundTripGroup11();
    case TexttoVideo => PipelineTagNameRoundTripGroup11();
    case ImageTexttoText => PipelineTagNameRoundTripGroup12();
    case VisualQuestionAnswering => PipelineTagNameRoundTripGroup12();
    case DocumentQuestionAnswering => PipelineTagNameRoundTripGroup13();
    case ZeroShotImageClassification => PipelineTagNameRoundTripGroup14();
    case GraphMachineLearning => PipelineTagNameRoundTripGroup14();
    case MaskGeneration => PipelineTagNameRoundTripGroup15();
    case ZeroShotObjectDetection => PipelineTagNameRoundTripGroup15();
    case Textto3D => PipelineTagNameRoundTripGroup16();
    case Imageto3D => PipelineTagNameRoundTripGroup16();
    case ImageFeatureExtraction => PipelineTagNameRoundTripGroup17();
    case VideoTexttoText => PipelineTagNameRoundTripGroup17();
    case KeypointDetection => PipelineTagNameRoundTripGroup18();
    case VisualDocumentRetrieval => PipelineTagNameRoundTripGroup18();
    case AnytoAny => PipelineTagNameRoundTripGroup19();
    case Other => PipelineTagNameRoundTripGroup19();
  }

  lemma PipelineTagNameRoundTripGroup0()
    ensures ParsePipelineTag(PipelineTagName(TextClassification)) == Some(TextClassification)
    ensures ParsePipelineTag(PipelineTagName(TokenClassification)) == Some(TokenClassification)
    ensures ParsePipelineTag(PipelineTagName(TableQuestionAnswering)) == Some(TableQuestionAnswering)
    ensures ParsePipelineTag(PipelineTagName(QuestionAnswering)) == Some(QuestionAnswering)
  {
    assert PipelineTagName(TextClassification) == "text-classification";
    assert PipelineTagName(TokenClassification) == "token-classification";
    assert PipelineTagName(TableQuestionAnswering) == "table-question-answering";
    assert PipelineTagName(QuestionAnswering) == "question-answering";
  }

  lemma PipelineTagNameRoundTripGroup1()
    ensures ParsePipelineTag(PipelineTagName(ZeroShotClassification)) == Some(ZeroShotClassification)
    ensures ParsePipelineTag(PipelineTagName(Translation)) == Some(Translation)
    ensures ParsePipelineTag(PipelineTagName(Summarization)) == Some(Summarization)
    ensures ParsePipelineTag(PipelineTagName(FeatureExtraction)) == Some(FeatureExtraction)
  {
    assert PipelineTagName(ZeroShotClassification) == "zero-shot-classification";
    assert PipelineTagName(Translation) == "translation";
    assert PipelineTagName(Summarization) == "summarization";
    assert PipelineTagName(FeatureExtraction) == "feature-extraction";
  }

  lemma PipelineTagNameRoundTripGroup2()
    ensures ParsePipelineTag(PipelineTagName(TextGeneration)) == Some(TextGeneration)
    ensures ParsePipelineTag(PipelineTagName(Text2TextGeneration)) == Some(Text2TextGeneration)
    ensures ParsePipelineTag(PipelineTagName(FillMask)) == Some(FillMask)
    ensures ParsePipelineTag(PipelineTagName(SentenceSimilarity)) == Some(SentenceSimilarity)
  {
    assert PipelineTagName(TextGeneration) == "text-generation";
    assert PipelineTagName(Text2TextGeneration) == "text2text-generation";
    assert PipelineTagName(FillMask) == "fill-mask";
    assert PipelineTagName(SentenceSimilarity) == "sentence-similarity";
  }

  lemma PipelineTagNameRoundTripGroup3()
    ensures ParsePipelineTag(PipelineTagName(TexttoSpeech)) == Some(TexttoSpeech)
    ensures ParsePipelineTag(PipelineTagName(TexttoAudio)) == Some(TexttoAudio)
    ensures ParsePipelineTag(PipelineTagName(AutomaticSpeechRecognition)) == Some(AutomaticSpeechRecognition)
    ensures ParsePipelineTag(PipelineTagName(AudiotoAudio)) == Some(AudiotoAudio)
  {
    assert PipelineTagName(TexttoSpeech) == "text-to-speech";
    assert PipelineTagName(TexttoAudio) == "text-to-audio";
    assert PipelineTagName(AutomaticSpeechRecognition) == "automatic-speech-recognition";
    assert PipelineTagName(AudiotoAudio) == "audio-to-audio";
  }

  lemma PipelineTagNameRoundTripGroup4()
    ensures ParsePipelineTag(PipelineTagName(AudioClassification)) == Some(AudioClassification)
    ensures ParsePipelineTag(PipelineTagName(AudioTexttoText)) == Some(AudioTexttoText)
    ensures ParsePipelineTag(PipelineTagName(VoiceActivityDetection)) == Some(VoiceActivityDetection)
  {
    assert PipelineTagName(AudioClassification) == "audio-classification";
    assert PipelineTagName(AudioTexttoText) == "audio-text-to-text";
    assert PipelineTagName(VoiceActivityDetection) == "voice-activity-detection";
  }

  lemma PipelineTagNameRoundTripGroup5()
    ensures ParsePipelineTag(PipelineTagName(DepthEstimation)) == Some(DepthEstimation)
    ensures ParsePipelineTag(PipelineTagName(ImageClassification)) == Some(ImageClassification)
    ensures ParsePipelineTag(PipelineTagName(ObjectDetection)) == Some(ObjectDetection)
  {
    assert PipelineTagName(DepthEstimation) == "depth-estimation";
    assert PipelineTagName(ImageClassification) == "image-classification";
    assert PipelineTagName(ObjectDetection) == "object-detection";
  }

  lemma PipelineTagNameRoundTripGroup6()
    ensures ParsePipelineTag(PipelineTagName(ImageSegmentation)) == Some(ImageSegmentation)
    ensures ParsePipelineTag(PipelineTagName(TexttoImage)) == Some(TexttoImage)
    ensures ParsePipelineTag(PipelineTagName(ImagetoText)) == Some(ImagetoText)
  {
    assert PipelineTagName(ImageSegmentation) == "image-segmentation";
    assert PipelineTagName(TexttoImage) == "text-to-image";
    assert PipelineTagName(ImagetoText) == "image-to-text";
  }

  lemma PipelineTagNameRoundTripGroup7()
    ensures ParsePipelineTag(PipelineTagName(ImagetoImage)) == Some(ImagetoImage)
    ensures ParsePipelineTag(PipelineTagName(ImagetoVideo)) == Some(ImagetoVideo)
    ensures ParsePipelineTag(PipelineTagName(UnconditionalImageGeneration)) == Some(UnconditionalImageGeneration)
  {
    assert PipelineTagName(ImagetoImage) == "image-to-image";
    assert PipelineTagName(ImagetoVideo) == "image-to-video";
    assert PipelineTagName(UnconditionalImageGeneration) == "unconditional-image-generation";
  }

  lemma PipelineTagNameRoundTripGroup8()
    ensures ParsePipelineTag(PipelineTagName(VideoClassification)) == Some(VideoClassification)
    ensures ParsePipelineTag(PipelineTagName(ReinforcementLearning)) == Some(ReinforcementLearning)
    ensures ParsePipelineTag(PipelineTagName(Robotics)) == Some(Robotics)
  {
    assert PipelineTagName(VideoClassification) == "video-classification";
    assert PipelineTagName(ReinforcementLearning) == "reinforcement-learning";
    assert PipelineTagName(Robotics) == "robotics";
  }

  lemma PipelineTagNameRoundTripGroup9()
    ensures ParsePipelineTag(PipelineTagName(TabularClassification)) == Some(TabularClassification)
    ensures ParsePipelineTag(PipelineTagName(TabularRegression)) == Some(TabularRegression)
    ensures ParsePipelineTag(PipelineTagName(TabulartoText)) == Some(TabulartoText)
  {
    assert PipelineTagName(TabularClassification) == "tabular-classification";
    assert PipelineTagName(TabularRegression) == "tabular-regression";
    assert PipelineTagName(TabulartoText) == "tabular-to-text";
  }

  lemma PipelineTagNameRoundTripGroup10()
    ensures ParsePipelineTag(PipelineTagName(TabletoText)) == Some(TabletoText)
    ensures ParsePipelineTag(PipelineTagName(MultipleChoice)) == Some(MultipleChoice)
    ensures ParsePipelineTag(PipelineTagName(TextRanking)) == Some(TextRanking)
  {
    assert PipelineTagName(TabletoText) == "table-to-text";
    assert PipelineTagName(MultipleChoice) == "multiple-choice";
    assert PipelineTagName(TextRanking) == "text-ranking";
  }

  lemma PipelineTagNameRoundTripGroup11()
    ensures ParsePipelineTag(PipelineTagName(TextRetrieval)) == Some(TextRetrieval)
    ensures ParsePipelineTag(PipelineTagName(TimeSeriesForecasting)) == Some(TimeSeriesForecasting)
    ensures ParsePipelineTag(PipelineTagName(TexttoVideo)) == Some(TexttoVideo)
  {
    assert PipelineTagName(TextRetrieval) == "text-retrieval";
    assert PipelineTagName(TimeSeriesForecasting) == "time-series-forecasting";
    assert PipelineTagName(TexttoVideo) == "text-to-video";
  }

  lemma PipelineTagNameRoundTripGroup12()
    ensures ParsePipelineTag(PipelineTagName(ImageTexttoText)) == Some(ImageTexttoText)
    ensures ParsePipelineTag(PipelineTagName(VisualQuestionAnswering)) == Some(VisualQuestionAnswering)
  {
    assert PipelineTagName(ImageTexttoText) == "image-text-to-text";
    assert PipelineTagName(VisualQuestionAnswering) == "visual-question-answering";
  }

  lemma PipelineTagNameRoundTripGroup13()
    ensures ParsePipelineTag(PipelineTagName(DocumentQuestionAnswering)) == Some(DocumentQuestionAnswering)
  {
    assert PipelineTagName(DocumentQuestionAnswering) == "document-question-answering";
  }

  lemma PipelineTagNameRoundTripGroup14()
    ensures ParsePipelineTag(PipelineTagName(ZeroShotImageClassification)) == Some(ZeroShotImageClassification)
    ensures ParsePipelineTag(PipelineTagName(GraphMachineLearning)) == Some(GraphMachineLearning)
  {
    assert PipelineTagName(ZeroShotImageClassification) == "zero-shot-image-classification";
    assert PipelineTagName(GraphMachineLearning) == "graph-ml";
  }

  lemma PipelineTagNameRoundTripGroup15()
    ensures ParsePipelineTag(PipelineTagName(MaskGeneration)) == Some(MaskGeneration)
    ensures ParsePipelineTag(PipelineTagName(ZeroShotObjectDetection)) == Some(ZeroShotObjectDetection)
  {
    assert PipelineTagName(MaskGeneration) == "mask-generation";
    assert PipelineTagName(ZeroShotObjectDetection) == "zero-shot-object-detection";
  }

  lemma PipelineTagNameRoundTripGroup16()
    ensures ParsePipelineTag(PipelineTagName(Textto3D)) == Some(Textto3D)
    ensures ParsePipelineTag(PipelineTagName(Imageto3D)) == Some(Imageto3D)
  {
    assert PipelineTagName(Textto3D) == "text-to-3d";
    assert PipelineTagName(Imageto3D) == "image-to-3d";
  }

  lemma PipelineTagNameRoundTripGroup17()
    ensures ParsePipelineTag(PipelineTagName(ImageFeatureExtraction)) == Some(ImageFeatureExtraction)
    ensures ParsePipelineTag(PipelineTagName(VideoTexttoText)) == Some(VideoTexttoText)
  {
    assert PipelineTagName(ImageFeatureExtraction) == "image-feature-extraction";
    assert PipelineTagName(VideoTexttoText) == "video-text-to-text";
  }

  lemma PipelineTagNameRoundTripGroup18()
    ensures ParsePipelineTag(PipelineTagName(KeypointDetection)) == Some(KeypointDetection)
    ensures ParsePipelineTag(PipelineTagName(VisualDocumentRetrieval)) == Some(VisualDocumentRetrieval)
  {
    assert PipelineTagName(KeypointDetection) == "keypoint-detection";
    assert PipelineTagName(VisualDocumentRetrieval) == "visual-document-retrieval";
  }

  lemma PipelineTagNameRoundTripGroup19()
    ensures ParsePipelineTag(PipelineTagName(AnytoAny)) == Some(AnytoAny)
    ensures ParsePipelineTag(PipelineTagName(Other)) == Some(Other)
  {
    assert PipelineTagName(AnytoAny) == "any-to-any";
    assert PipelineTagName(Other) == "other";
  }

  /** The label a pipeline tag is shown with on a card (`to_string`). */
  function PipelineTagDisplay(t: PipelineTag): string {
    match t
    case TextClassification => "Text Classification"
    case TokenClassification => "Token Classification"
    case TableQuestionAnswering => "Table Question Answering"
    case QuestionAnswering => "Question Answering"
    case ZeroShotClassification => "Zero-Shot Classification"
    case Translation => "Translation"
    case Summarization => "Summarization"
    case FeatureExtraction => "Feature Extraction"
    case TextGeneration => "Text Generation"
    case Text2TextGeneration => "Text2Text Generation"
    case FillMask => "Fill-Mask"
    case SentenceSimilarity => "Sentence Similarity"
    case TexttoSpeech => "Text-to-Speech"
    case TexttoAudio => "Text-to-Audio"
    case AutomaticSpeechRecognition => "Automatic Speech Recognition"
    case AudiotoAudio => "Audio-to-Audio"
    case AudioClassification => "Audio Classification"
    case AudioTexttoText => "Audio-Text-to-Text"
    case VoiceActivityDetection => "Voice Activity Detection"
    case DepthEstimation => "Depth Estimation"
    case ImageClassification => "Image Classification"
    case ObjectDetection => "Object Detection"
    case ImageSegmentation => "Image Segmentation"
    case TexttoImage => "Text-to-Image"
    case ImagetoText => "Image-to-Text"
    case ImagetoImage => "Image-to-Image"
    case ImagetoVideo => "Image-to-Video"
    case UnconditionalImageGeneration => "Unconditional Image Generation"
    case VideoClassification => "Video Classification"
    case ReinforcementLearning => "Reinforcement Learning"
    case Robotics => "Robotics"
    case TabularClassification => "Tabular Classification"
    case TabularRegression => "Tabular Regression"
    case TabulartoText => "Tabular to Text"
    case TabletoText => "Table to Text"
    case MultipleChoice => "Multiple Choice"
    case TextRanking => "Text Ranking"
    case TextRetrieval => "Text Retrieval"
    case TimeSeriesForecasting => "Time Series Forecasting"
    case TexttoVideo => "Text-to-Video"
    case ImageTexttoText => "Image-Text-to-Text"
    case VisualQuestionAnswering => "Visual Question Answering"
    case DocumentQuestionAnswering => "Document Question Answering"
    case ZeroShotImageClassification => "Zero-Shot Image Classification"
    case GraphMachineLearning => "Graph Machine Learning"
    case MaskGeneration => "Mask Generation"
    case ZeroShotObjectDetection => "Zero-Shot Object Detection"
    case Textto3D => "Text-to-3D"
    case Imageto3D => "Image-to-3D"
    case ImageFeatureExtraction => "Image Feature Extraction"
    case VideoTexttoText => "Video-Text-to-Text"
    case KeypointDetection => "Keypoint Detection"
    case VisualDocumentRetrieval => "Visual Document Retrieval"
    case AnytoAny => "Any-to-Any"
    case Other => "Other"
  }

  /** The pipeline tag shown with label `s`, if any; used to show that labels are distinct. */
  ghost function PipelineTagWithDisplay(s: string): (r: Option<PipelineTag>)
  {
    match |s|
    case 5 =>
      (match s
      case "Other" => Some(Other)
      case _ => None)
    case 8 =>
      (match s
      case "Robotics" => Some(Robotics)
      case _ => None)
    case 9 =>
      (match s
      case "Fill-Mask" => Some(FillMask)
      case _ => None)
    case 10 =>
      (match s
      case "Text-to-3D" => Some(Textto3D)
      case "Any-to-Any" => Some(AnytoAny)
      case _ => None)
    case 11 =>
      (match s
      case "Translation" => Some(Translation)
      case "Image-to-3D" => Some(Imageto3D)
      case _ => None)
    case 12 =>
      (match s
      case "Text Ranking" => Some(TextRanking)
      case _ => None)
    case 13 =>
      (match s
      case "Summarization" => Some(Summarization)
      case "Text-to-Audio" => Some(TexttoAudio)
      case "Text-to-Image" => Some(TexttoImage)
      case "Image-to-Text" => Some(ImagetoText)
      case "Table to Text" => Some(TabletoText)
      case "Text-to-Video" => Some(TexttoVideo)
      case _ => None)
    case 14 =>
      (match s
      case "Text-to-Speech" => Some(TexttoSpeech)
      case "Audio-to-Audio" => Some(AudiotoAudio)
      case "Image-to-Image" => Some(ImagetoImage)
      case "Image-to-Video" => Some(ImagetoVideo)
      case "Text Retrieval" => Some(TextRetrieval)
      case _ => None)
    case 15 =>
      (match s
      case "Text Generation" => Some(TextGeneration)
      case "Tabular to Text" => Some(TabulartoText)
      case "Multiple Choice" => Some(MultipleChoice)
      case "Mask Generation" => Some(MaskGeneration)
      case _ => None)
    case 16 =>
      (match s
      case "Depth Estimation" => Some(DepthEstimation)
      case "Object Detection" => Some(ObjectDetection)
      case _ => None)
    case 18 =>
      (match s
      case "Question Answering" => Some(QuestionAnswering)
      case "Feature Extraction" => Some(FeatureExtraction)
      case "Audio-Text-to-Text" => Some(AudioTexttoText)
      case "Image Segmentation" => Some(ImageSegmentation)
      case "Tabular Regression" => Some(TabularRegression)
      case "Image-Text-to-Text" => Some(ImageTexttoText)
      case "Video-Text-to-Text" => Some(VideoTexttoText)
      case "Keypoint Detection" => Some(KeypointDetection)
      case _ => None)
    case 19 =>
      (match s
      case "Text Classification" => Some(TextClassification)
      case "Sentence Similarity" => Some(SentenceSimilarity)
      case _ => None)
    case 20 =>
      (match s
      case "Token Classification" => Some(TokenClassification)
      case "Text2Text Generation" => Some(Text2TextGeneration)
      case "Audio Classification" => Some(AudioClassification)
      case "Image Classification" => Some(ImageClassification)
      case "Video Classification" => Some(VideoClassification)
      case _ => None)
    case 22 =>
      (match s
      case "Reinforcement Learning" => Some(ReinforcementLearning)
      case "Tabular Classification" => Some(TabularClassification)
      case "Graph Machine Learning" => Some(GraphMachineLearning)
      case _ => None)
    case 23 =>
      (match s
      case "Time Series Forecasting" => Some(TimeSeriesForecasting)
      case _ => None)
    case 24 =>
      (match s
      case "Table Question Answering" => Some(TableQuestionAnswering)
      case "Zero-Shot Classification" => Some(ZeroShotClassification)
      case "Voice Activity Detection" => Some(VoiceActivityDetection)
      case "Image Feature Extraction" => Some(ImageFeatureExtraction)
      case _ => None)
    case 25 =>
      (match s
      case "Visual Question Answering" => Some(VisualQuestionAnswering)
      case "Visual Document Retrieval" => Some(VisualDocumentRetrieval)
      case _ => None)
    case 26 =>
      (match s
      case "Zero-Shot Object Detection" => Some(ZeroShotObjectDetection)
      case _ => None)
    case 27 =>
      (match s
      case "Document Question Answering" => Some(DocumentQuestionAnswering)
      case _ => None)
    case 28 =>
      (match s
      case "Automatic Speech Recognition" => Some(AutomaticSpeechRecognition)
      case _ => None)
    case 30 =>
      (match s
      case "Unconditional Image Generation" => Some(UnconditionalImageGeneration)
      case "Zero-Shot Image Classification" => Some(ZeroShotImageClassification)
      case _ => None)
    case _ => None
  }

  /** Each label leads back to the tag that shows it. */
  lemma PipelineTagDisplayRoundTrip(t: PipelineTag)
    ensures PipelineTagWithDisplay(PipelineTagDisplay(t)) == Some(t)
  {
    match t
    case TextClassification => PipelineTagDisplayRoundTripGroup0();
    case TokenClassification => PipelineTagDisplayRoundTripGroup0();
    case TableQuestionAnswering => PipelineTagDisplayRoundTripGroup0();
    case QuestionAnswering => PipelineTagDisplayRoundTripGroup0();
    case ZeroShotClassification => PipelineTagDisplayRoundTripGroup1();
    case Translation => PipelineTagDisplayRoundTripGroup1();
    case Summarization => PipelineTagDisplayRoundTripGroup1();
    case FeatureExtraction => PipelineTagDisplayRoundTripGroup1();
    case TextGeneration => PipelineTagDisplayRoundTripGroup2();
    case Text2TextGeneration => PipelineTagDisplayRoundTripGroup2();
    case FillMask => PipelineTagDisplayRoundTripGroup2();
    case SentenceSimilarity => PipelineTagDisplayRoundTripGroup2();
    case TexttoSpeech => PipelineTagDisplayRoundTripGroup3();
    case TexttoAudio => PipelineTagDisplayRoundTripGroup3();
    case AutomaticSpeechRecognition => PipelineTagDisplayRoundTripGroup3();
    case AudiotoAudio => PipelineTagDisplayRoundTripGroup4();
    case AudioClassification => PipelineTagDisplayRoundTripGroup4();
    case AudioTexttoText => PipelineTagDisplayRoundTripGroup4();
    case VoiceActivityDetection => PipelineTagDisplayRoundTripGroup5();
    case DepthEstimation => PipelineTagDisplayRoundTripGroup5();
    case ImageClassification => PipelineTagDisplayRoundTripGroup5();
    case ObjectDetection => PipelineTagDisplayRoundTripGroup6();
    case ImageSegmentation => PipelineTagDisplayRoundTripGroup6();
    case TexttoImage => PipelineTagDisplayRoundTripGroup6();
    case ImagetoText => PipelineTagDisplayRoundTripGroup7();
    case ImagetoImage => PipelineTagDisplayRoundTripGroup7();
    case ImagetoVideo => PipelineTagDisplayRoundTripGroup7();
    case UnconditionalImageGeneration => PipelineTagDisplayRoundTripGroup8();
    case VideoClassification => PipelineTagDisplayRoundTripGroup8();
    case ReinforcementLearning => PipelineTagDisplayRoundTripGroup9();
    case Robotics => PipelineTagDisplayRoundTripGroup9();
    case TabularClassification => PipelineTagDisplayRoundTripGroup9();
    case TabularRegression => PipelineTagDisplayRoundTripGroup10();
    case TabulartoText => PipelineTagDisplayRoundTripGroup10();
    case TabletoText => PipelineTagDisplayRoundTripGroup10();
    case MultipleChoice => PipelineTagDisplayRoundTripGroup11();
    case TextRanking => PipelineTagDisplayRoundTripGroup11();
    case TextRetrieval => PipelineTagDisplayRoundTripGroup11();
    case TimeSeriesForecasting => PipelineTagDisplayRoundTripGroup12();
    case TexttoVideo => PipelineTagDisplayRoundTripGroup12();
    case ImageTexttoText => PipelineTagDisplayRoundTripGroup13();
    case VisualQuestionAnswering => PipelineTagDisplayRoundTripGroup13();
    case DocumentQuestionAnswering => PipelineTagDisplayRoundTripGroup14();
    case ZeroShotImageClassification => PipelineTagDisplayRoundTripGroup15();
    case GraphMachineLearning => PipelineTagDisplayRoundTripGroup16();
    case MaskGeneration => PipelineTagDisplayRoundTripGroup16();
    case ZeroShotObjectDetection => PipelineTagDisplayRoundTripGroup17();
    case Textto3D => PipelineTagDisplayRoundTripGroup17();
    case Imageto3D => PipelineTagDisplayRoundTripGroup18();
    case ImageFeatureExtraction => PipelineTagDisplayRoundTripGroup18();
    case VideoTexttoText => PipelineTagDisplayRoundTripGroup19();
    case KeypointDetection => PipelineTagDisplayRoundTripGroup19();
    case VisualDocumentRetrieval => PipelineTagDisplayRoundTripGroup20();
    case AnytoAny => PipelineTagDisplayRoundTripGroup20();
    case Other => PipelineTagDisplayRoundTripGroup21();
  }

  lemma PipelineTagDisplayRoundTripGroup0()
    ensures PipelineTagWithDisplay(PipelineTagDisplay(TextClassification)) == Some(TextClassification)
    ensures PipelineTagWithDisplay(PipelineTagDisplay(TokenClassification)) == Some(TokenClassification)
    ensures PipelineTagWithDisplay(PipelineTagDisplay(TableQuestionAnswering)) == Some(TableQuestionAnswering)
    ensures PipelineTagWithDisplay(PipelineTagDisplay(QuestionAnswering)) == Some(QuestionAnswering)
  {
    assert PipelineTagDisplay(TextClassification) == "Text Classification";
    assert PipelineTagDisplay(TokenClassification) == "Token Classification";
    assert PipelineTagDisplay(TableQuestionAnswering) == "Table Question Answering";
    assert PipelineTagDisplay(QuestionAnswering) == "Question Answering";
  }

  lemma PipelineTagDisplayRoundTripGroup1()
    ensures PipelineTagWithDisplay(PipelineTagDisplay(ZeroShotClassification)) == Some(ZeroShotClassification)
    ensures PipelineTagWithDisplay(PipelineTagDisplay(Translation)) == Some(Translation)
    ensures PipelineTagWithDisplay(PipelineTagDisplay(Summarization)) == Some(Summarization)
    ensures PipelineTagWithDisplay(PipelineTagDisplay(FeatureExtraction)) == Some(FeatureExtraction)
  {
    assert PipelineTagDisplay(ZeroShotClassification) == "Zero-Shot Classification";
    assert PipelineTagDisplay(Translation) == "Translation";
    assert PipelineTagDisplay(Summarization) == "Summarization";
    assert PipelineTagDisplay(FeatureExtraction) == "Feature Extraction";
  }

  lemma PipelineTagDisplayRoundTripGroup2()
    ensures PipelineTagWithDisplay(PipelineTagDisplay(TextGeneration)) == Some(TextGeneration)
    ensures PipelineTagWithDisplay(PipelineTagDisplay(Text2TextGeneration)) == Some(Text2TextGeneration)
    ensures PipelineTagWithDisplay(PipelineTagDisplay(FillMask)) == Some(FillMask)
    ensures PipelineTagWithDisplay(PipelineTagDisplay(SentenceSimilarity)) == Some(SentenceSimilarity)
  {
    assert PipelineTagDisplay(TextGeneration) == "Text Generation";
    assert PipelineTagDisplay(Text2TextGeneration) == "Text2Text Generation";
    assert PipelineTagDisplay(FillMask) == "Fill-Mask";
    assert PipelineTagDisplay(SentenceSimilarity) == "Sentence Similarity";
  }

  lemma PipelineTagDisplayRoundTripGroup3()
    ensures PipelineTagWithDisplay(PipelineTagDisplay(TexttoSpeech)) == Some(TexttoSpeech)
    ensures PipelineTagWithDisplay(PipelineTagDisplay(TexttoAudio)) == Some(TexttoAudio)
    ensures PipelineTagWithDisplay(PipelineTagDisplay(AutomaticSpeechRecognition)) == Some(AutomaticSpeechRecognition)
  {
    assert PipelineTagDisplay(TexttoSpeech) == "Text-to-Speech";
    assert PipelineTagDisplay(TexttoAudio) == "Text-to-Audio";
    assert PipelineTagDisplay(AutomaticSpeechRecognition) == "Automatic Speech Recognition";
  }

  lemma PipelineTagDisplayRoundTripGroup4()
    ensures PipelineTagWithDisplay(PipelineTagDisplay(AudiotoAudio)) == Some(AudiotoAudio)
    ensures PipelineTagWithDisplay(PipelineTagDisplay(AudioClassification)) == Some(AudioClassification)
    ensures PipelineTagWithDisplay(PipelineTagDisplay(AudioTexttoText)) == Some(AudioTexttoText)
  {
    assert PipelineTagDisplay(AudiotoAudio) == "Audio-to-Audio";
    assert PipelineTagDisplay(AudioClassification) == "Audio Classification";
    assert PipelineTagDisplay(AudioTexttoText) == "Audio-Text-to-Text";
  }

  lemma PipelineTagDisplayRoundTripGroup5()
    ensures PipelineTagWithDisplay(PipelineTagDisplay(VoiceActivityDetection)) == Some(VoiceActivityDetection)
    ensures PipelineTagWithDisplay(PipelineTagDisplay(DepthEstimation)) == Some(DepthEstimation)
    ensures PipelineTagWithDisplay(PipelineTagDisplay(ImageClassification)) == Some(ImageClassification)
  {
    assert PipelineTagDisplay(VoiceActivityDetection) == "Voice Activity Detection";
    assert PipelineTagDisplay(DepthEstimation) == "Depth Estimation";
    assert PipelineTagDisplay(ImageClassification) == "Image Classification";
  }

  lemma PipelineTagDisplayRoundTripGroup6()
    ensures PipelineTagWithDisplay(PipelineTagDisplay(ObjectDetection)) == Some(ObjectDetection)
    ensures PipelineTagWithDisplay(PipelineTagDisplay(ImageSegmentation)) == Some(ImageSegmentation)
    ensures PipelineTagWithDisplay(PipelineTagDisplay(TexttoImage)) == Some(TexttoImage)
  {
    assert PipelineTagDisplay(ObjectDetection) == "Object Detection";
    assert PipelineTagDisplay(ImageSegmentation) == "Image Segmentation";
    assert PipelineTagDisplay(TexttoImage) == "Text-to-Image";
  }

  lemma PipelineTagDisplayRoundTripGroup7()
    ensures PipelineTagWithDisplay(PipelineTagDisplay(ImagetoText)) == Some(ImagetoText)
    ensures PipelineTagWithDisplay(PipelineTagDisplay(ImagetoImage)) == Some(ImagetoImage)
    ensures PipelineTagWithDisplay(PipelineTagDisplay(ImagetoVideo)) == Some(ImagetoVideo)
  {
    assert PipelineTagDisplay(ImagetoText) == "Image-to-Text";
    assert PipelineTagDisplay(ImagetoImage) == "Image-to-Image";
    assert PipelineTagDisplay(ImagetoVideo) == "Image-to-Video";
  }

  lemma PipelineTagDisplayRoundTripGroup8()
    ensures PipelineTagWithDisplay(PipelineTagDisplay(UnconditionalImageGeneration)) == Some(UnconditionalImageGeneration)
    ensures PipelineTagWithDisplay(PipelineTagDisplay(VideoClassification)) == Some(VideoClassification)
  {
    assert PipelineTagDisplay(UnconditionalImageGeneration) == "Unconditional Image Generation";
    assert PipelineTagDisplay(VideoClassification) == "Video Classification";
  }

  lemma PipelineTagDisplayRoundTripGroup9()
    ensures PipelineTagWithDisplay(PipelineTagDisplay(ReinforcementLearning)) == Some(ReinforcementLearning)
    ensures PipelineTagWithDisplay(PipelineTagDisplay(Robotics)) == Some(Robotics)
    ensures PipelineTagWithDisplay(PipelineTagDisplay(TabularClassification)) == Some(TabularClassification)
  {
    assert PipelineTagDisplay(ReinforcementLearning) == "Reinforcement Learning";
    assert PipelineTagDisplay(Robotics) == "Robotics";
    assert PipelineTagDisplay(TabularClassification) == "Tabular Classification";
  }

  lemma PipelineTagDisplayRoundTripGroup10()
    ensures PipelineTagWithDisplay(PipelineTagDisplay(TabularRegression)) == Some(TabularRegression)
    ensures PipelineTagWithDisplay(PipelineTagDisplay(TabulartoText)) == Some(TabulartoText)
    ensures PipelineTagWithDisplay(PipelineTagDisplay(TabletoText)) == Some(TabletoText)
  {
    assert PipelineTagDisplay(TabularRegression) == "Tabular Regression";
    assert PipelineTagDisplay(TabulartoText) == "Tabular to Text";
    assert PipelineTagDisplay(TabletoText) == "Table to Text";
  }

  lemma PipelineTagDisplayRoundTripGroup11()
    ensures PipelineTagWithDisplay(PipelineTagDisplay(MultipleChoice)) == Some(MultipleChoice)
    ensures PipelineTagWithDisplay(PipelineTagDisplay(TextRanking)) == Some(TextRanking)
    ensures PipelineTagWithDisplay(PipelineTagDisplay(TextRetrieval)) == Some(TextRetrieval)
  {
    assert PipelineTagDisplay(MultipleChoice) == "Multiple Choice";
    assert PipelineTagDisplay(TextRanking) == "Text Ranking";
    assert PipelineTagDisplay(TextRetrieval) == "Text Retrieval";
  }

  lemma PipelineTagDisplayRoundTripGroup12()
    ensures PipelineTagWithDisplay(PipelineTagDisplay(TimeSeriesForecasting)) == Some(TimeSeriesForecasting)
    ensures PipelineTagWithDisplay(PipelineTagDisplay(TexttoVideo)) == Some(TexttoVideo)
  {
    assert PipelineTagDisplay(TimeSeriesForecasting) == "Time Series Forecasting";
    assert PipelineTagDisplay(TexttoVideo) == "Text-to-Video";
  }

  lemma PipelineTagDisplayRoundTripGroup13()
    ensures PipelineTagWithDisplay(PipelineTagDisplay(ImageTexttoText)) == Some(ImageTexttoText)
    ensures PipelineTagWithDisplay(PipelineTagDisplay(VisualQuestionAnswering)) == Some(VisualQuestionAnswering)
  {
    assert PipelineTagDisplay(ImageTexttoText) == "Image-Text-to-Text";
    assert PipelineTagDisplay(VisualQuestionAnswering) == "Visual Question Answering";
  }

  lemma PipelineTagDisplayRoundTripGroup14()
    ensures PipelineTagWithDisplay(PipelineTagDisplay(DocumentQuestionAnswering)) == Some(DocumentQuestionAnswering)
  {
    assert PipelineTagDisplay(DocumentQuestionAnswering) == "Document Question Answering";
  }

  lemma PipelineTagDisplayRoundTripGroup15()
    ensures PipelineTagWithDisplay(PipelineTagDisplay(ZeroShotImageClassification)) == Some(ZeroShotImageClassification)
  {
    assert PipelineTagDisplay(ZeroShotImageClassification) == "Zero-Shot Image Classification";
  }

  lemma PipelineTagDisplayRoundTripGroup16()
    ensures PipelineTagWithDisplay(PipelineTagDisplay(GraphMachineLearning)) == Some(GraphMachineLearning)
    ensures PipelineTagWithDisplay(PipelineTagDisplay(MaskGeneration)) == Some(MaskGeneration)
  {
    assert PipelineTagDisplay(GraphMachineLearning) == "Graph Machine Learning";
    assert PipelineTagDisplay(MaskGeneration) == "Mask Generation";
  }

  lemma PipelineTagDisplayRoundTripGroup17()
    ensures PipelineTagWithDisplay(PipelineTagDisplay(ZeroShotObjectDetection)) == Some(ZeroShotObjectDetection)
    ensures PipelineTagWithDisplay(PipelineTagDisplay(Textto3D)) == Some(Textto3D)
  {
    assert PipelineTagDisplay(ZeroShotObjectDetection) == "Zero-Shot Object Detection";
    assert PipelineTagDisplay(Textto3D) == "Text-to-3D";
  }

  lemma PipelineTagDisplayRoundTripGroup18()
    ensures PipelineTagWithDisplay(PipelineTagDisplay(Imageto3D)) == Some(Imageto3D)
    ensures PipelineTagWithDisplay(PipelineTagDisplay(ImageFeatureExtraction)) == Some(ImageFeatureExtraction)
  {
    assert PipelineTagDisplay(Imageto3D) == "Image-to-3D";
    assert PipelineTagDisplay(ImageFeatureExtraction) == "Image Feature Extraction";
  }

  lemma PipelineTagDisplayRoundTripGroup19()
    ensures PipelineTagWithDisplay(PipelineTagDisplay(VideoTexttoText)) == Some(VideoTexttoText)
    ensures PipelineTagWithDisplay(PipelineTagDisplay(KeypointDetection)) == Some(KeypointDetection)
  {
    assert PipelineTagDisplay(VideoTexttoText) == "Video-Text-to-Text";
    assert PipelineTagDisplay(KeypointDetection) == "Keypoint Detection";
  }

  lemma PipelineTagDisplayRoundTripGroup20()
    ensures PipelineTagWithDisplay(PipelineTagDisplay(VisualDocumentRetrieval)) == Some(VisualDocumentRetrieval)
    ensures PipelineTagWithDisplay(PipelineTagDisplay(AnytoAny)) == Some(AnytoAny)
  {
    assert PipelineTagDisplay(VisualDocumentRetrieval) == "Visual Document Retrieval";
    assert PipelineTagDisplay(AnytoAny) == "Any-to-Any";
  }

  lemma PipelineTagDisplayRoundTripGroup21()
    ensures PipelineTagWithDisplay(PipelineTagDisplay(Other)) == Some(Other)
  {
    assert PipelineTagDisplay(Other) == "Other";
  }

  /** Every label is shown for exactly one pipeline tag. */
  lemma PipelineTagDisplayInjective(a: PipelineTag, b: PipelineTag)
    ensures PipelineTagDisplay(a) == PipelineTagDisplay(b) <==> a == b
  {
    PipelineTagDisplayRoundTrip(a);
    PipelineTagDisplayRoundTrip(b);
  }

  /** Every JSON name denotes exactly one pipeline tag. */
  lemma PipelineTagNameInjective(a: PipelineTag, b: PipelineTag)
    ensures PipelineTagName(a) == PipelineTagName(b) <==> a == b
  {
    PipelineTagNameRoundTrip(a);
    PipelineTagNameRoundTrip(b);
  }
}
