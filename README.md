# Health-diagnosis crew: a Dafny model

This project models the deterministic core of a multi-agent medical
diagnosis assistant. A "crew" of seven language-model agents runs seven
tasks in sequence: symptom analysis, history review, treatment
recommendation, referral assessment, drug-safety check, follow-up scheduling
and patient communication. Optionally an imaging stage is added. The agents
call tools. These are stubbed knowledge and guideline lookups, a
drug-interaction rule, a recommendation validator, an emergency alert,
record and scheduling stubs, and imaging tools that go through a vision
model.

What the model covers:

- **Tools** (`tools.dfy`, `safety.dfy`, `imaging_tools.dfy`):
  - the input normalisation of the tools and the fallbacks of those that have one, as functions;
  - the recommendation validator, as a method with a loop, proved against a
    predicate;
  - the imaging tools, as methods that drive a `VisionService` class. The
    class records every request sent to the vision model. Each method is
    proved equal to a pure function that says which branch fires and which
    keys the result dictionary carries.
- **Configuration records** (`agents.dfy`, `tasks.dfy`): the seven agent
  records and the seven task records as constant data, with lemmas on tool
  sets, delegation flags, task-to-agent binding and template fields.
- **Crew builders** (`crew.dfy`, `workflows.dfy`, `crew_workflows.dfy`):
  - the original builder, as a function;
  - the newer builder, as a method. Like the source, it splices the imaging
    pair in with Python's `list.insert`. That operation is modelled with its
    negative-index and clamping rules, and the model proves that the agent
    and task lists stay index-aligned.
- **Python semantics** (`text.dfy`): the parts of Python string semantics
  the tools depend on. These are `str.strip()` over the full `isspace` set,
  `str.rstrip(c)`, `str.lower()` and truthiness.

External effects are parameters:

- the guideline HTTP service: a function from the request to an outcome;
- the vision model: a function from the request to the answer or the
  error message, held by `VisionService`;
- the file system: an existence test, an open step that may raise, and a
  read of the opened file;
- configuration values: record fields.

Two behaviours of the code are worth stating outright:

- The imaging pair is inserted with `insert(1, …)`
  (health_crew/workflows.py:53-54), so the imaging analyst sits at index 1,
  right after the symptom analyzer, as the comment on line 53 says ("Add
  after symptom analyzer"). Every later agent and task shifts up by one
  (`Crews.InsertAtOne`, `CrewWorkflows.BuildDiagnosisCrew`).
- `compare_imaging_timeline` without a previous path returns the
  single-image result only when the API key is set. With no key it fails in
  its own body (health_crew/imaging_tools.py:182), and its result then has
  no `image_path` key (`ImagingTools.MissingKeyShapesDiffer`).

The Python default arguments are Dafny default parameter values: `verbose`
is true and `include_imaging` false for the builders, `patient_context` is
empty and `previous_image_path` None for the imaging tools, and `query` and
`condition` are the empty string for the two search tools.

`ImagingTools.FindingsOfComparison` proves one observation about how the
imaging tools fit together. `extract_imaging_findings` reads the
`analysis` key, and a comparison result does not have one. So the report
of a successful comparison shows an empty analysis.

## Model

| member | source | states |
|---|---|---|
| Text.IsSpace | tools.py:20 | the character set `str.isspace()` accepts and `strip()` removes: ASCII space, tab, line feed, vertical tab, form feed, carriage return, the separators U+001C to U+001F, and the Unicode spaces and line and paragraph separators |
| Text.Filled | tools.py:73 | Python truthiness of an optional string, as in the tests of the guideline settings, the API key and the previous image path: set and non-empty |
| Text.StripLeft | tools.py:20 | the result is a suffix of the input; everything dropped is whitespace; the result does not start with whitespace |
| Text.StripRight | tools.py:20 | the result is a prefix of the input; everything dropped is whitespace; the result does not end with whitespace |
| Text.Strip | tools.py:20 | the result is trimmed at both ends and no longer than the input |
| Text.StripLeftOf | tools.py:20 | lstrip removes exactly a whitespace prefix and nothing more |
| Text.StripRightOf | tools.py:20 | rstrip removes exactly a whitespace suffix and nothing more |
| Text.StripOf | tools.py:20 | stripping any whitespace padding around a trimmed text gives back that text |
| Text.StripIdempotent | tools.py:20 | stripping twice is stripping once |
| Text.StripEmptyIff | tools.py:20-22 | the stripped text is empty exactly when the input is all whitespace (both directions) |
| Text.StripRightChar | tools.py:76 | rstrip('/') keeps a prefix; every dropped character is '/'; the kept part does not end in '/' |
| Text.StripRightCharAppended | tools.py:76 | appending any run of '/' does not change the rstrip('/') result |
| Text.LowerChar | tools.py:45-46 | the result is never an ASCII capital; a capital maps to the small letter at the same alphabet position; any other character is unchanged |
| Text.Lower | tools.py:45-46 | the modelled lower() maps each character on its own by `LowerChar`, so it keeps the length (Python's full Unicode mapping need not; see Left out) |
| Text.LowerIdempotent | tools.py:45-46 | lower-casing twice is lower-casing once |
| Tools.Normalise | tools.py:20-22 | None gives the default; a printable value gives its stripped text, or the default when that is empty; a value whose str() raises gives no result |
| Tools.KnowledgeHeading | tools.py:25 | the opening of a knowledge summary is the lead, the query verbatim, then a colon |
| Tools.MedicalKnowledgeSearch | tools.py:19-34 | the answer is never empty; if str() raises it is the fixed fallback; otherwise it opens with "Knowledge summary for " + the non-empty trimmed query + ":" |
| Tools.KnowledgeQueryRecoverable | tools.py:24-28 | equal answers come from equal normalised queries: the query can be read back from the answer |
| Tools.KnowledgeSearchIgnoresPadding | tools.py:20 | surrounding whitespace of the query does not change the answer |
| Tools.Severity.Label | tools.py:51 | the severity string is "low" exactly for Low and "moderate" exactly for Moderate |
| Tools.DrugInteractionCheck | tools.py:39-51 | at most one warning; a warning exactly when some entry lower-cases to "ibuprofen" and some entry to "aspirin"; severity is moderate exactly when there is a warning |
| Tools.ShortListNoWarning | tools.py:43-51 | a list of fewer than two entries gets no warning and severity "low" |
| Tools.InteractionIgnoresCase | tools.py:45-46 | lower-casing the list first gives the same report |
| Tools.InteractionMatchIsExact | tools.py:45-46 | mixed case matches; trailing space or an extra word does not |
| Tools.GuidelinesUrl | tools.py:76 | the request URL ends in "/guidelines"; what comes before is a prefix of the base that does not end in '/', and every character of the base after that prefix is '/' |
| Tools.GuidelinesUrlIgnoresTrailingSlashes | tools.py:76 | any number of trailing slashes on the base gives the same URL |
| Tools.Configured | tools.py:73 | the service is tried only when both the URL and the key are set and non-empty |
| Tools.RequestFor | tools.py:75-80 | the GET goes to the `/guidelines` URL of the base, with the condition as `q`, the header "Bearer " followed by the key verbatim, and a 10-second timeout |
| Tools.RemoteGuideline | tools.py:86 | the remote answer is the heading for the condition followed by the service's summary verbatim |
| Tools.LocalGuideline | tools.py:93-96 | the fallback answer is the heading for the condition followed by the fixed advice |
| Tools.ClinicalGuidelinesSearch | tools.py:65-102 | the remote summary is used exactly when URL and key are set, the response is OK and the summary is non-empty; every other path gives the local text for the normalised condition; an unprintable condition gives the fixed error text |
| Tools.GuidelineAlwaysSummary | tools.py:86-102 | on every path the answer starts with "Guideline summary" |
| Tools.UnconfiguredIgnoresService | tools.py:73 | without both URL and key, the service's behaviour cannot change the answer |
| Tools.ElectronicHealthRecordAccess | tools.py:107-116 | the record echoes the patient id, and all other fields are the fixed demo lists |
| Tools.HealthRecordOnlyEchoesId | tools.py:110-116 | two records differ only in the patient id |
| Tools.AppointmentScheduling | tools.py:120-129 | the confirmation echoes specialty and urgency, is scheduled, and has the fixed date and notes |
| Tools.AppointmentOnlyEchoesRequest | tools.py:123-129 | two confirmations differ only in specialty and urgency |
| Safety.Rejects | safety.py:21-25 | an entry stops the walk when it is not a mapping (`.get` raises), when its dose is a truthy negative number, or when its dose is truthy but not a number (the comparison raises) |
| Safety.Passes | safety.py:19-30 | the verdict is true exactly when the recommendation is a mapping, its medications are absent or iterable, and no entry stops the walk |
| Safety.ValidateMedicalRecommendation | safety.py:8-30 | the loop answers exactly the verdict: the medications can be walked and no entry has a truthy negative dose or makes the check raise |
| Safety.NegativeDoseFails | safety.py:21-25 | a negative dose anywhere in the list fails |
| Safety.HarmlessDoses | safety.py:22-23 | a missing, null, zero, positive or falsy dose never fails |
| Safety.NothingToCheckPasses | safety.py:20-27 | no medications key, or an empty list, passes |
| Safety.ErrorsFail | safety.py:19-30 | a non-mapping entry, a non-numeric truthy dose, a non-iterable list or a non-mapping recommendation fails instead of raising |
| Safety.VerdictIgnoresOrder | safety.py:21-27 | any reordering of the medications gets the same verdict |
| Safety.VerdictSplits | safety.py:21-27 | validating two lists joined is validating each |
| Safety.EmergencyAlertSystem | safety.py:34-40 | the alert is the fixed lead followed by the condition |
| Safety.AlertNamesCondition | safety.py:38 | the text after the lead is exactly the condition |
| Safety.AlertInjective | safety.py:38 | distinct conditions give distinct alerts |
| Agents.ToolSets | agents.py:21-95 | each agent's tool set is exactly as declared |
| Agents.ToolsAreCore | agents.py:2-9 | every agent tool is one of the seven imported tools, and none is an imaging tool |
| Agents.EveryCoreToolIsUsed | agents.py:21-95 | each of the seven tools is given to some agent |
| Agents.DelegationFlags | agents.py:22-96 | only the symptom analyzer and the treatment agent may delegate |
| Agents.SharedClient | agents.py:23-97 | all seven agents run on the one cached client |
| Agents.RolesDistinct | agents.py:15-90 | there are seven agents and their role names are pairwise distinct |
| Tasks.Bindings | tasks.py:23-102 | each task is bound to its stage's agent; the imaging task to the imaging analyst |
| Tasks.BindingsFollowDeclarationOrder | tasks.py:23-102 | task i is run by agent i, and no agent runs two tasks |
| Tasks.Placeholders | tasks.py:20-100 | the set of inputs the template carries a `{key}` field for |
| Tasks.PlaceholdersAreFields | tasks.py:20-100 | an input is a placeholder of a template exactly when the template carries a field for it |
| Tasks.KeysDistinct | tasks.py:20-100 | no two caller inputs share a `{key}` name |
| Tasks.SymptomAnalysisFields | tasks.py:20-21 | the symptom template asks for exactly symptoms and demographics |
| Tasks.HistoryReviewFields | tasks.py:35-36 | the history template asks for exactly history and medications |
| Tasks.TreatmentRecommendationFields | tasks.py:50 | the treatment template asks for exactly the working differential |
| Tasks.ReferralAssessmentFields | tasks.py:63 | the referral template asks for exactly the diagnosis summary |
| Tasks.DrugSafetyCheckFields | tasks.py:73-75 | the drug-safety template asks for exactly proposed medications, allergies and conditions |
| Tasks.FollowUpSchedulingFields | tasks.py:85-86 | the follow-up template asks for exactly treatment plan and referral plan |
| Tasks.PatientCommunicationFields | tasks.py:100 | the communication template asks for exactly the clinical summary |
| Tasks.PlaceholderSets | tasks.py:20-100 | the seven field sets, all together |
| Tasks.TemplatesInOrder | tasks.py:13-104 | task i carries template i |
| Tasks.AllPlaceholders | tasks.py:20-100 | the union contains every template's fields and nothing else |
| Tasks.OwnerIsUnique | tasks.py:20-100 | each caller input is asked for by exactly one template: the one at its owner's position |
| Tasks.PlaceholdersCoverInputs | tasks.py:20-100 | the union of all fields is all twelve caller inputs |
| Tasks.PlaceholdersDisjoint | tasks.py:20-100 | no input is asked for by two tasks |
| Tasks.ExpectedOutputsNonEmpty | tasks.py:24-103 | every task has a non-empty expected output |
| Crews.Aligned | health_crew/workflows.py:56 | the agent and task lists handed to `Crew` have equal length and task i is run by agent i |
| Crews.InsertionPoint | health_crew/workflows.py:53-54 | `list.insert` puts the element at the index when it is in range, at the end when past it, and counts a negative index from the end, clamped at 0 |
| Crews.Insert | health_crew/workflows.py:53-54 | the list grows by one; the new element is at the insertion point; elements before it stay and elements after it shift by one |
| Crews.InsertRemoved | health_crew/workflows.py:53-54 | removing the inserted element gives back the original list |
| Crews.InsertAtOne | health_crew/workflows.py:53-54 | inserting at 1 keeps the head, puts the element second and shifts the rest |
| Crews.InsertPreservesAlignment | health_crew/workflows.py:52-54 | inserting an agent and a task it runs at the same index keeps task i run by agent i |
| Workflows.BuildDiagnosisCrew | workflows.py:22-42 | seven distinct agents and seven tasks, index-aligned, sequential, with the caller's verbosity |
| Workflows.LegacyCrewTools | workflows.py:23-31 | the crew's agents use exactly the seven core tools |
| CrewWorkflows.BuildDiagnosisCrew | health_crew/workflows.py:24-57 | both lists have length 8 with imaging and 7 without; the lists stay aligned; sequential with the caller's verbosity; without imaging the crew equals the original builder's; with imaging the pair sits at index 1, and removing it gives back the core lists |
| ImagingTools.VisionService.Configure | health_crew/imaging_tools.py:17-21 | a missing or empty key is refused with "GOOGLE_API_KEY not configured" and leaves the client as it was; otherwise the key is installed |
| ImagingTools.VisionService.GenerateContent | health_crew/imaging_tools.py:105-108 | the request is recorded as sent, and the answer is the model's |
| ImagingTools.ContextSection | health_crew/imaging_tools.py:61 | the section is empty exactly when the context is; otherwise it is the heading, the whole context and then "\n\n" as its last two characters |
| ImagingTools.ContextSectionInjective | health_crew/imaging_tools.py:190 | distinct contexts give distinct sections |
| ImagingTools.AnalysisRequest | health_crew/imaging_tools.py:105-108 | an analysis prompt whose context section is the section built from the patient context (empty exactly when the context is), then the image as JPEG |
| ImagingTools.AnalysisRequestInjective | health_crew/imaging_tools.py:61-108 | the analysis request determines both the patient context and the image: the whole context reaches the model |
| ImagingTools.ComparisonRequest | health_crew/imaging_tools.py:219-225 | a comparison prompt whose context section is the section built from the patient context (empty exactly when the context is), the caption "Previous Image:", the previous image, the caption "Current Image:", the current image, both as JPEG |
| ImagingTools.ComparisonRequestInjective | health_crew/imaging_tools.py:190-225 | the comparison request determines the patient context and both images, in order |
| ImagingTools.Get | health_crew/imaging_tools.py:140-148 | `d.get(k, default)`: the stored value when the key is present, the default otherwise |
| ImagingTools.Load | health_crew/imaging_tools.py:101-102 | opening and then reading a file: an open error is reported with its message, otherwise the read decides |
| ImagingTools.Failure | health_crew/imaging_tools.py:235-240 | a failure carries exactly the keys error and status, with status "failed" |
| ImagingTools.FailureAt | health_crew/imaging_tools.py:120-126 | a failure carries exactly the keys error, status and image_path |
| ImagingTools.SingleImageAnalysis | health_crew/imaging_tools.py:47-126 | status is success or failed; success exactly when key, file, read and model call all go through, and then the keys are status, analysis, image_path, model_used; a failure has an error key and names the image except when the file does not exist; a missing key, a nonexistent file, a failed open or read, and a failed model call each give their exact dictionary, with the raised message as the error |
| ImagingTools.SingleImageRequests | health_crew/imaging_tools.py:98-108 | at most one request is sent; one exactly when the key is set and the file exists and was read; it carries the image read |
| ImagingTools.MedicalImageAnalysis | health_crew/imaging_tools.py:31-126 | the method returns the single-image result, sends exactly those requests, and leaves the key installed when it is set |
| ImagingTools.BothLoaded | health_crew/imaging_tools.py:215-217 | both files of a comparison open and both reads return bytes |
| ImagingTools.TimelineComparison | health_crew/imaging_tools.py:181-240 | a missing key gives exactly {error, status}; a falsy previous path gives exactly the single-image result; otherwise success exactly when both opens, both reads and the model call go through, and then the five keys status, comparison, previous_image, current_image, model_used; any own failure carries only error and status, and its error is the message of the first step that raised, in the order open previous, open current, read previous, read current, model call |
| ImagingTools.TimelineRequests | health_crew/imaging_tools.py:214-225 | at most one request; with a falsy previous path the single-image requests, with or without a key; otherwise one exactly when the key is set and both images were opened and read, and it is the comparison request for the context and the two images read |
| ImagingTools.CompareImagingTimeline | health_crew/imaging_tools.py:165-240 | the method returns the comparison result and sends exactly those requests |
| ImagingTools.MissingFileSendsNothing | health_crew/imaging_tools.py:51-55 | a nonexistent image sends no request to the model |
| ImagingTools.MissingKeyShapesDiffer | health_crew/imaging_tools.py:181-186 | with no key, the single-image failure names the image while the comparison failure does not, and neither tool sends a request |
| ImagingTools.ReportLead | health_crew/imaging_tools.py:146-150 | the report opens with the title, then the status, then the model label, the model and a blank line |
| ImagingTools.Report | health_crew/imaging_tools.py:146-156 | the report is the lead, then the analysis text verbatim, then the disclaimer |
| ImagingTools.ReportTrimmed | health_crew/imaging_tools.py:146-157 | the report has no surrounding whitespace, whatever its fields contain |
| ImagingTools.ReportRecoversAnalysis | health_crew/imaging_tools.py:152 | the analysis text can be read back from the report |
| ImagingTools.ExtractImagingFindings | health_crew/imaging_tools.py:130-161 | a failed result gives "Imaging analysis failed: " + its error (default "Unknown error"); anything else gives the report of status (default "unknown"), model (default "N/A") and analysis (default empty), and stripping removes only the framing newlines |
| ImagingTools.FindingsOfAnalysis | health_crew/imaging_tools.py:110-157 | the report of a single-image result shows "success", the model and the model's text, or the error |
| ImagingTools.FindingsOfComparison | health_crew/imaging_tools.py:144-157 | the report of a successful comparison shows an empty analysis |

## Left out

- Agent-framework execution: CrewAI runs the agents, tasks and LLM, and how they run is not modelled. Only the records and lists handed to the framework are.
- `Crew` construction: the framework's own validation of the record is not modelled.
- Prompt wording is left unspecified: agent goals and backstories, the instruction text before each task's labelled fields, and the two imaging prompts. Only the context section spliced into the imaging prompts is modelled.
- The imaging analyst and the imaging task are imported by health_crew/workflows.py but not defined in the files modelled. They are unspecified constants, and the task is taken to be bound to the analyst.
- Tools.DrugInteractionCheck: the argument is a sequence of strings by its type. In the source, None or an argument without `len()` raises at tools.py:44; with two or more entries, an entry without `.lower()` raises at tools.py:45; a one-entry list never reaches `.lower()`. Those raising inputs are not modelled. Any other sized iterable of strings behaves like the list of its items, which is what `seq<string>` models.
- Text.LowerChar: lower-casing is modelled for ASCII letters only. Python's full Unicode case mapping is not modelled.
- Tools.ClinicalGuidelinesSearch: a JSON `summary` that is not a string is not modelled. Its truthiness and its `str()` form would matter there.
- Tools.ClinicalGuidelinesSearch: the query parameter, the bearer header and the 10-second timeout are request data handed to the service. The HTTP call, JSON decoding and timing are the service's business.
- Safety.Rejects: doses are modelled as reals, NaN excluded. Comparing a non-number with 0 is modelled as raising.
- ImagingTools.ExtractImagingFindings: a non-mapping argument is not modelled, so the "Error extracting findings" path never fires. Neither are dictionary values that are not strings.
- ImagingTools.CompareImagingTimeline: the delegation calls the single-image analysis as a plain function. Whether the framework's tool wrapper allows a direct call is not modelled.
- ImagingTools.MedicalImageAnalysis and ImagingTools.CompareImagingTimeline: constructing `genai.GenerativeModel` (health_crew/imaging_tools.py:58 and 188) is assumed to succeed in both, and the existence check of the single-image analysis is assumed not to raise.
- `genai` state is modelled as the installed key and the requests sent. Nothing else in the library is modelled, and the service's answers are a fixed function of the request.
- `_encode_image` (health_crew/imaging_tools.py:24-27) is unused. It is a base64 encoding of a file read, and is not modelled.
- config.py, health_crew/llm.py and all logging are not part of this model. Configuration values are record fields. The cached language-model client is the single shared handle `Agents.SharedLlm`.
