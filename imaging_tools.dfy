/**
 * health_crew/imaging_tools.py: single-image analysis and timeline comparison
 * through a vision model, and the formatter that turns an analysis result
 * into a report. The vision model, file-existence checks and file reads are
 * oracles; what is modelled is which branch fires, which requests reach the
 * model, and which keys the result dictionary carries.
 */
module ImagingTools {
  import opened Wrappers
  import opened Text

  /** A result dictionary; every value these tools store is a string. */
  type Dict = map<string, string>

  /** The key lookup `d.get(k, default)`. */
  function Get(d: Dict, k: string, default: string): (v: string)
    ensures k in d ==> v == d[k]
    ensures k !in d ==> v == default
  {
    if k in d then d[k] else default
  }

  /** GOOGLE_API_KEY and GEMINI_MODEL, as read from the environment. */
  datatype ImagingConfig = ImagingConfig(googleApiKey: Option<string>, geminiModel: string)

  /** Opening a file in binary mode: it opens, or raises with a message. */
  datatype OpenOutcome = Opened | OpenError(message: string)

  /** Reading an open file in binary mode: its bytes, or the message of the error raised. */
  datatype ReadOutcome = Bytes(data: seq<bv8>) | ReadError(message: string)

  /**
   * The file system as the tools see it: `Path(p).exists()`, `open(p, 'rb')`
   * and `.read()` on the opened file.
   */
  datatype Files = Files(pathExists: string -> bool, open: string -> OpenOutcome, read: string -> ReadOutcome)

  /** `with open(p, 'rb') as f: f.read()`: opening fails first, or the read decides. */
  function Load(files: Files, path: string): (o: ReadOutcome)
    ensures files.open(path).OpenError? ==> o == ReadError(files.open(path).message)
    ensures files.open(path).Opened? ==> o == files.read(path)
  {
    match files.open(path)
    case OpenError(m) => ReadError(m)
    case Opened => files.read(path)
  }

  /**
   * The two prompts. Their wording is left unspecified; what is modelled is
   * the patient-context section spliced into each.
   */
  datatype Prompt = AnalysisPrompt(contextSection: string) | ComparisonPrompt(contextSection: string)

  /** One element of the list handed to `generate_content`. */
  datatype Part = PromptPart(prompt: Prompt) | Caption(text: string) | ImagePart(mimeType: string, data: seq<bv8>)

  type Request = seq<Part>

  /** What `generate_content` does: answer with a text, or raise with a message. */
  datatype VisionOutcome = Responded(text: string) | Failed(message: string)

  const KeyNotConfigured := "GOOGLE_API_KEY not configured"
  const NotFoundLead := "Image file not found: "
  const ContextHeading := "### Patient Context\n"
  const SectionEnd := "\n\n"
  const Jpeg := "image/jpeg"
  const PreviousCaption := "Previous Image:"
  const CurrentCaption := "Current Image:"

  /**
   * The vision client: the model it answers with, the API key it was last
   * configured with, and every request sent to it so far.
   */
  class VisionService {
    const respond: Request -> VisionOutcome
    var apiKey: Option<string>
    var sent: seq<Request>

    constructor(respond: Request -> VisionOutcome)
      ensures this.respond == respond && apiKey == None && sent == []
    {
      this.respond := respond;
      apiKey := None;
      sent := [];
    }

    /** `_configure_genai`: refuses a missing or empty key, otherwise installs it. */
    method Configure(key: Option<string>) returns (err: Option<string>)
      modifies this
      ensures Filled(key) ==> err == None && apiKey == key
      ensures !Filled(key) ==> err == Some(KeyNotConfigured) && apiKey == old(apiKey)
      ensures sent == old(sent)
    {
      if !Filled(key) {
        return Some(KeyNotConfigured);
      }
      apiKey := key;
      return None;
    }

    /** `model.generate_content(parts)`: the request is sent, and the model answers or raises. */
    method GenerateContent(parts: Request) returns (out: VisionOutcome)
      modifies this
      ensures out == respond(parts)
      ensures sent == old(sent) + [parts] && apiKey == old(apiKey)
    {
      sent := sent + [parts];
      out := respond(parts);
    }
  }

  /** The patient-context section of a prompt: present exactly when a context is given. */
  function ContextSection(patientContext: string): (s: string)
    ensures s == "" <==> patientContext == ""
    ensures patientContext != "" ==> |s| == |ContextHeading| + |patientContext| + 2
    ensures patientContext != "" ==> ContextHeading <= s && s[|ContextHeading|..|s| - 2] == patientContext
    ensures patientContext != "" ==> s[|s| - 2..] == SectionEnd
  {
    if patientContext != "" then ContextHeading + patientContext + SectionEnd else ""
  }

  /** Distinct contexts give distinct sections, so the prompt carries the whole context. */
  lemma ContextSectionInjective(c1: string, c2: string)
    requires ContextSection(c1) == ContextSection(c2)
    ensures c1 == c2
  {
  }

  /** The request of a single-image analysis: the prompt, then the image. */
  function AnalysisRequest(patientContext: string, data: seq<bv8>): (q: Request)
    ensures |q| == 2 && q[1] == ImagePart(Jpeg, data)
    ensures q[0].PromptPart? && q[0].prompt.AnalysisPrompt?
    ensures q[0].prompt.contextSection == ContextSection(patientContext)
    ensures q[0].prompt.contextSection == "" <==> patientContext == ""
  {
    [PromptPart(AnalysisPrompt(ContextSection(patientContext))), ImagePart(Jpeg, data)]
  }

  /** The request of a comparison: the prompt, then the previous image, then the current one, each captioned. */
  function ComparisonRequest(patientContext: string, previous: seq<bv8>, current: seq<bv8>): (q: Request)
    ensures |q| == 5 && q[2] == ImagePart(Jpeg, previous) && q[4] == ImagePart(Jpeg, current)
    ensures q[1] == Caption(PreviousCaption) && q[3] == Caption(CurrentCaption)
    ensures q[0].PromptPart? && q[0].prompt.ComparisonPrompt?
    ensures q[0].prompt.contextSection == ContextSection(patientContext)
    ensures q[0].prompt.contextSection == "" <==> patientContext == ""
  {
    [ PromptPart(ComparisonPrompt(ContextSection(patientContext))),
      Caption(PreviousCaption), ImagePart(Jpeg, previous),
      Caption(CurrentCaption), ImagePart(Jpeg, current) ]
  }

  /** The request of an analysis determines the patient context and the image it was built from. */
  lemma AnalysisRequestInjective(c1: string, d1: seq<bv8>, c2: string, d2: seq<bv8>)
    requires AnalysisRequest(c1, d1) == AnalysisRequest(c2, d2)
    ensures c1 == c2 && d1 == d2
  {
    assert AnalysisRequest(c1, d1)[0] == AnalysisRequest(c2, d2)[0];
    ContextSectionInjective(c1, c2);
  }

  /** The request of a comparison determines the patient context and both images, in order. */
  lemma ComparisonRequestInjective(c1: string, p1: seq<bv8>, n1: seq<bv8>, c2: string, p2: seq<bv8>, n2: seq<bv8>)
    requires ComparisonRequest(c1, p1, n1) == ComparisonRequest(c2, p2, n2)
    ensures c1 == c2 && p1 == p2 && n1 == n2
  {
    assert ComparisonRequest(c1, p1, n1)[0] == ComparisonRequest(c2, p2, n2)[0];
    ContextSectionInjective(c1, c2);
  }

  /** A failure result without a path. */
  function Failure(message: string): (d: Dict)
    ensures d.Keys == {"error", "status"} && d["error"] == message && d["status"] == "failed"
  {
    map["error" := message, "status" := "failed"]
  }

  /** A failure result naming the image it was about. */
  function FailureAt(message: string, path: string): (d: Dict)
    ensures d.Keys == {"error", "status", "image_path"}
    ensures d["error"] == message && d["status"] == "failed" && d["image_path"] == path
  {
    map["error" := message, "status" := "failed", "image_path" := path]
  }

  predicate Succeeded(d: Dict) {
    "status" in d && d["status"] == "success"
  }

  predicate HasFailed(d: Dict) {
    "status" in d && d["status"] == "failed"
  }

  /** Every step of a single-image analysis goes through: key set, file present and read, model answered. */
  predicate AnalysisGoesThrough(config: ImagingConfig, files: Files, respond: Request -> VisionOutcome,
                                path: string, patientContext: string) {
    Filled(config.googleApiKey) && files.pathExists(path) && Load(files, path).Bytes?
    && respond(AnalysisRequest(patientContext, Load(files, path).data)).Responded?
  }

  /**
   * What medical_image_analysis returns. A missing key, a failed open or read
   * and a failed model call are all caught and reported with their message
   * and the image path; a nonexistent file is reported without the path; a
   * success carries the model's text, the path and the model name.
   */
  function SingleImageAnalysis(config: ImagingConfig, files: Files, respond: Request -> VisionOutcome,
                               path: string, patientContext: string := ""): (r: Dict)
    ensures Succeeded(r) || HasFailed(r)
    ensures Succeeded(r) <==> AnalysisGoesThrough(config, files, respond, path, patientContext)
    ensures Succeeded(r) ==>
      r.Keys == {"status", "analysis", "image_path", "model_used"} &&
      r["analysis"] == respond(AnalysisRequest(patientContext, Load(files, path).data)).text &&
      r["image_path"] == path && r["model_used"] == config.geminiModel
    ensures HasFailed(r) ==> "error" in r
    ensures HasFailed(r) ==> ("image_path" in r <==> !(Filled(config.googleApiKey) && !files.pathExists(path)))
    ensures !Filled(config.googleApiKey) ==> r == FailureAt(KeyNotConfigured, path)
    ensures Filled(config.googleApiKey) && !files.pathExists(path) ==> r == Failure(NotFoundLead + path)
    ensures Filled(config.googleApiKey) && files.pathExists(path) && Load(files, path).ReadError? ==>
      r == FailureAt(Load(files, path).message, path)
    ensures Filled(config.googleApiKey) && files.pathExists(path) && Load(files, path).Bytes? &&
            respond(AnalysisRequest(patientContext, Load(files, path).data)).Failed? ==>
      r == FailureAt(respond(AnalysisRequest(patientContext, Load(files, path).data)).message, path)
  {
    if !Filled(config.googleApiKey) then FailureAt(KeyNotConfigured, path)
    else if !files.pathExists(path) then Failure(NotFoundLead + path)
    else
      match Load(files, path)
      case ReadError(m) => FailureAt(m, path)
      case Bytes(data) =>
        match respond(AnalysisRequest(patientContext, data))
        case Failed(m) => FailureAt(m, path)
        case Responded(text) =>
          map["status" := "success", "analysis" := text, "image_path" := path, "model_used" := config.geminiModel]
  }

  /** The requests medical_image_analysis sends: one, once the image has been read, and none before. */
  function SingleImageRequests(config: ImagingConfig, files: Files, path: string, patientContext: string := ""): (q: seq<Request>)
    ensures |q| <= 1
    ensures q != [] <==> Filled(config.googleApiKey) && files.pathExists(path) && Load(files, path).Bytes?
    ensures q != [] ==> q[0] == AnalysisRequest(patientContext, Load(files, path).data)
  {
    if Filled(config.googleApiKey) && files.pathExists(path) && Load(files, path).Bytes? then
      [AnalysisRequest(patientContext, Load(files, path).data)]
    else []
  }

  /** medical_image_analysis, step by step against the vision client. */
  method MedicalImageAnalysis(vision: VisionService, config: ImagingConfig, files: Files,
                              path: string, patientContext: string := "") returns (r: Dict)
    modifies vision
    ensures r == SingleImageAnalysis(config, files, vision.respond, path, patientContext)
    ensures vision.sent == old(vision.sent) + SingleImageRequests(config, files, path, patientContext)
    ensures vision.apiKey == if Filled(config.googleApiKey) then config.googleApiKey else old(vision.apiKey)
  {
    var err := vision.Configure(config.googleApiKey);
    if err.Some? {
      return FailureAt(err.value, path);
    }
    if !files.pathExists(path) {
      return Failure(NotFoundLead + path);
    }
    var openError := files.open(path);
    if openError.OpenError? {
      return FailureAt(openError.message, path);
    }
    var image := files.read(path);
    if image.ReadError? {
      return FailureAt(image.message, path);
    }
    var response := vision.GenerateContent(AnalysisRequest(patientContext, image.data));
    if response.Failed? {
      return FailureAt(response.message, path);
    }
    r := map["status" := "success", "analysis" := response.text, "image_path" := path,
             "model_used" := config.geminiModel];
  }

  /** Both files of a comparison open and are read: the previous one opened first, then read first. */
  predicate BothLoaded(files: Files, current: string, previous: string) {
    files.open(previous).Opened? && files.open(current).Opened?
    && files.read(previous).Bytes? && files.read(current).Bytes?
  }

  /** Every step of a two-image comparison goes through: both files opened and read, model answered. */
  predicate ComparisonGoesThrough(files: Files, respond: Request -> VisionOutcome,
                                  current: string, previous: string, patientContext: string) {
    BothLoaded(files, current, previous)
    && respond(ComparisonRequest(patientContext, files.read(previous).data, files.read(current).data)).Responded?
  }

  /**
   * What compare_imaging_timeline returns. A missing key fails before
   * anything else, without a path; a missing or empty previous path hands
   * over to the single-image analysis; otherwise the previous file is opened,
   * then the current one, then both are read in that order, and both images
   * go to the model. The first failure among these steps is reported with its
   * message and without paths. The files' existence is not checked here.
   */
  function TimelineComparison(config: ImagingConfig, files: Files, respond: Request -> VisionOutcome,
                              current: string, previous: Option<string> := None,
                              patientContext: string := ""): (r: Dict)
    ensures Succeeded(r) || HasFailed(r)
    ensures !Filled(config.googleApiKey) ==> r == Failure(KeyNotConfigured)
    ensures Filled(config.googleApiKey) && !Filled(previous) ==>
      r == SingleImageAnalysis(config, files, respond, current, patientContext)
    ensures Filled(config.googleApiKey) && Filled(previous) ==>
      (Succeeded(r) <==> ComparisonGoesThrough(files, respond, current, previous.value, patientContext))
    ensures Filled(config.googleApiKey) && Filled(previous) && Succeeded(r) ==>
      r.Keys == {"status", "comparison", "previous_image", "current_image", "model_used"} &&
      r["comparison"] == respond(ComparisonRequest(patientContext, files.read(previous.value).data,
                                                   files.read(current).data)).text &&
      r["previous_image"] == previous.value && r["current_image"] == current &&
      r["model_used"] == config.geminiModel
    ensures Filled(config.googleApiKey) && Filled(previous) && HasFailed(r) ==> r.Keys == {"error", "status"}
    ensures Filled(config.googleApiKey) && Filled(previous) && files.open(previous.value).OpenError? ==>
      r == Failure(files.open(previous.value).message)
    ensures Filled(config.googleApiKey) && Filled(previous) && files.open(previous.value).Opened? &&
            files.open(current).OpenError? ==>
      r == Failure(files.open(current).message)
    ensures Filled(config.googleApiKey) && Filled(previous) && files.open(previous.value).Opened? &&
            files.open(current).Opened? && files.read(previous.value).ReadError? ==>
      r == Failure(files.read(previous.value).message)
    ensures Filled(config.googleApiKey) && Filled(previous) && files.open(previous.value).Opened? &&
            files.open(current).Opened? && files.read(previous.value).Bytes? && files.read(current).ReadError? ==>
      r == Failure(files.read(current).message)
    ensures Filled(config.googleApiKey) && Filled(previous) && BothLoaded(files, current, previous.value) &&
            respond(ComparisonRequest(patientContext, files.read(previous.value).data,
                                      files.read(current).data)).Failed? ==>
      r == Failure(respond(ComparisonRequest(patientContext, files.read(previous.value).data,
                                             files.read(current).data)).message)
  {
    if !Filled(config.googleApiKey) then Failure(KeyNotConfigured)
    else if !Filled(previous) then SingleImageAnalysis(config, files, respond, current, patientContext)
    else if files.open(previous.value).OpenError? then Failure(files.open(previous.value).message)
    else if files.open(current).OpenError? then Failure(files.open(current).message)
    else
      match files.read(previous.value)
      case ReadError(m) => Failure(m)
      case Bytes(before) =>
        match files.read(current)
        case ReadError(m) => Failure(m)
        case Bytes(after) =>
          match respond(ComparisonRequest(patientContext, before, after))
          case Failed(m) => Failure(m)
          case Responded(text) =>
            map["status" := "success", "comparison" := text, "previous_image" := previous.value,
                "current_image" := current, "model_used" := config.geminiModel]
  }

  /** The requests compare_imaging_timeline sends: at most one, and only once both images are read. */
  function TimelineRequests(config: ImagingConfig, files: Files, current: string, previous: Option<string> := None,
                            patientContext: string := ""): (q: seq<Request>)
    ensures |q| <= 1
    ensures !Filled(previous) ==> q == SingleImageRequests(config, files, current, patientContext)
    ensures Filled(previous) ==>
      (q != [] <==> Filled(config.googleApiKey) && BothLoaded(files, current, previous.value))
    ensures Filled(previous) && q != [] ==>
      q[0] == ComparisonRequest(patientContext, files.read(previous.value).data, files.read(current).data)
  {
    if !Filled(config.googleApiKey) then []
    else if !Filled(previous) then SingleImageRequests(config, files, current, patientContext)
    else if BothLoaded(files, current, previous.value) then
      [ComparisonRequest(patientContext, files.read(previous.value).data, files.read(current).data)]
    else []
  }

  /** compare_imaging_timeline, step by step against the vision client. */
  method CompareImagingTimeline(vision: VisionService, config: ImagingConfig, files: Files,
                                current: string, previous: Option<string> := None, patientContext: string := "")
    returns (r: Dict)
    modifies vision
    ensures r == TimelineComparison(config, files, vision.respond, current, previous, patientContext)
    ensures vision.sent == old(vision.sent) + TimelineRequests(config, files, current, previous, patientContext)
    ensures vision.apiKey == if Filled(config.googleApiKey) then config.googleApiKey else old(vision.apiKey)
  {
    var err := vision.Configure(config.googleApiKey);
    if err.Some? {
      return Failure(err.value);
    }
    if !Filled(previous) {
      r := MedicalImageAnalysis(vision, config, files, current, patientContext);
      return;
    }
    var openedBefore := files.open(previous.value);
    if openedBefore.OpenError? {
      return Failure(openedBefore.message);
    }
    var openedAfter := files.open(current);
    if openedAfter.OpenError? {
      return Failure(openedAfter.message);
    }
    var before := files.read(previous.value);
    if before.ReadError? {
      return Failure(before.message);
    }
    var after := files.read(current);
    if after.ReadError? {
      return Failure(after.message);
    }
    var response := vision.GenerateContent(ComparisonRequest(patientContext, before.data, after.data));
    if response.Failed? {
      return Failure(response.message);
    }
    r := map["status" := "success", "comparison" := response.text, "previous_image" := previous.value,
             "current_image" := current, "model_used" := config.geminiModel];
  }

  /** With the key set and a nonexistent file, no request reaches the model. */
  lemma MissingFileSendsNothing(config: ImagingConfig, files: Files, path: string, patientContext: string)
    requires !files.pathExists(path)
    ensures SingleImageRequests(config, files, path, patientContext) == []
  {
  }

  /**
   * A missing key is reported differently by the two tools: the single-image
   * analysis names the image, the comparison does not, even when it would
   * have handed over to the single-image analysis.
   */
  lemma MissingKeyShapesDiffer(config: ImagingConfig, files: Files, respond: Request -> VisionOutcome,
                               current: string, previous: Option<string>, patientContext: string)
    requires !Filled(config.googleApiKey)
    ensures "image_path" in SingleImageAnalysis(config, files, respond, current, patientContext)
    ensures "image_path" !in TimelineComparison(config, files, respond, current, previous, patientContext)
    ensures SingleImageRequests(config, files, current, patientContext) == []
    ensures TimelineRequests(config, files, current, previous, patientContext) == []
  {
  }

  // ---------------------------------------------------------------------------
  // extract_imaging_findings

  const FailedLead := "Imaging analysis failed: "
  const SummaryTitle := "### Medical Imaging Summary\n\n**Status**: "
  const ModelLabel := "\n**Model**: "
  const Disclaimer := "\n\n---\n*This analysis was generated by AI and should be reviewed by a qualified radiologist.*"

  /** The report up to the analysis text: title, status and model. */
  function ReportLead(status: string, model: string): (s: string)
    ensures |s| == |SummaryTitle| + |status| + |ModelLabel| + |model| + 2
    ensures SummaryTitle <= s
    ensures s[|SummaryTitle|..|SummaryTitle| + |status|] == status
    ensures s[|SummaryTitle| + |status|..] == ModelLabel + model + SectionEnd
  {
    SummaryTitle + status + ModelLabel + model + SectionEnd
  }

  /** The report body: title, status, model, the analysis text, and the closing disclaimer. */
  function Report(status: string, model: string, analysis: string): (s: string)
    ensures |s| == |ReportLead(status, model)| + |analysis| + |Disclaimer|
    ensures ReportLead(status, model) <= s
    ensures s[|ReportLead(status, model)|..|s| - |Disclaimer|] == analysis
    ensures s[|s| - |Disclaimer|..] == Disclaimer
  {
    ReportLead(status, model) + analysis + Disclaimer
  }

  /** The report is trimmed: it opens with the title's '#' and closes with the disclaimer's '*'. */
  lemma ReportTrimmed(status: string, model: string, analysis: string)
    ensures Trimmed(Report(status, model, analysis))
  {
    var s := Report(status, model, analysis);
    assert s[0] == SummaryTitle[0] == '#';
    assert s[|s| - 1] == Disclaimer[|Disclaimer| - 1] == '*';
  }

  /** For a fixed status and model, the analysis text can be read back from the report. */
  lemma ReportRecoversAnalysis(status: string, model: string, a1: string, a2: string)
    requires Report(status, model, a1) == Report(status, model, a2)
    ensures a1 == a2
  {
    var n, r := |ReportLead(status, model)|, Report(status, model, a1);
    assert a1 == r[n..|r| - |Disclaimer|] == a2;
  }

  /**
   * extract_imaging_findings: a failed result becomes one line naming its
   * error ('Unknown error' when there is none); anything else becomes the
   * report of its status (default 'unknown'), model (default 'N/A') and
   * analysis text (default empty), framed by one newline on each side and
   * then stripped, which removes exactly that frame.
   */
  function ExtractImagingFindings(result: Dict): (s: string)
    ensures HasFailed(result) ==> s == FailedLead + Get(result, "error", "Unknown error")
    ensures !HasFailed(result) ==>
      s == Report(Get(result, "status", "unknown"), Get(result, "model_used", "N/A"), Get(result, "analysis", ""))
  {
    if HasFailed(result) then FailedLead + Get(result, "error", "Unknown error")
    else
      var body := Report(Get(result, "status", "unknown"), Get(result, "model_used", "N/A"),
                         Get(result, "analysis", ""));
      ReportTrimmed(Get(result, "status", "unknown"), Get(result, "model_used", "N/A"),
                    Get(result, "analysis", ""));
      StripOf("\n", body, "\n");
      Strip("\n" + body + "\n")
  }

  /**
   * The report of a single-image analysis: a success shows status 'success',
   * the model name and the model's text; a failure shows its error.
   */
  lemma FindingsOfAnalysis(config: ImagingConfig, files: Files, respond: Request -> VisionOutcome,
                           path: string, patientContext: string)
    ensures var r := SingleImageAnalysis(config, files, respond, path, patientContext);
      ExtractImagingFindings(r) ==
        if Succeeded(r) then Report("success", config.geminiModel, r["analysis"])
        else FailedLead + r["error"]
  {
  }

  /**
   * The formatter reads the `analysis` key, which a comparison result does
   * not have: the report of a successful comparison shows an empty analysis,
   * whatever the model said.
   */
  lemma FindingsOfComparison(config: ImagingConfig, files: Files, respond: Request -> VisionOutcome,
                             current: string, previous: string, patientContext: string)
    requires Filled(config.googleApiKey) && previous != ""
    requires ComparisonGoesThrough(files, respond, current, previous, patientContext)
    ensures ExtractImagingFindings(TimelineComparison(config, files, respond, current, Some(previous), patientContext))
         == Report("success", config.geminiModel, "")
  {
    var r := TimelineComparison(config, files, respond, current, Some(previous), patientContext);
    assert Succeeded(r) && "analysis" !in r && r["model_used"] == config.geminiModel;
  }
}
