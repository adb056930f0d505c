/** The prompts of the coding model: the one that writes the initial
    website from an instruction, and the two that ask for a revision, one
    driven by failed tasks and one by unsupported tasks. */
module CoderPrompts {
  import opened Wrappers
  import opened Text

  // ---- The initial website ----

  const V0Head: string := @"Create a single-page web application based on the following specification:

"

  const V0Requirements: string :=
    "\n" +
    "\n" +
    "Requirements:\n" +
    "1. Create a complete HTML file with embedded CSS and JavaScript\n" +
    "2. The app should be fully functional and interactive\n" +
    "3. Use modern HTML5, CSS3, and vanilla JavaScript (no external libraries)\n" +
    "4. Include proper semantic HTML structure\n" +
    "5. Make the UI clean, responsive, and user-friendly\n" +
    "6. Add unique IDs to interactive elements for easier automation testing\n" +
    "7. Ensure the app works in a 1280x720 viewport\n" +
    "\n" +
    "Please generate the complete HTML file:"

  /** `build_coder_v0_prompt`. */
  function V0Prompt(instruction: string): string {
    V0Head + instruction + V0Requirements
  }

  // ---- Shared sections ----

  /** The line reporting the size of the initial website, whitespace
      around it not counted. */
  function LengthLine(v0Html: string): string {
    "Original initial HTML Length: " + NatToString(|Strip(v0Html)|) + " characters"
  }

  /** The initial website, whole, in a fenced html block. */
  function HtmlBlock(v0Html: string): string {
    "```html\n" + v0Html + "\n```"
  }

  /** A non-regression contract as the prompts show it: stripped, empty
      when there is none. */
  function ContractText(contract: Option<string>): string {
    Strip(contract.GetOr(""))
  }

  /** The closing request of both revision prompts. */
  const CloseRequest: string := "Please generate the complete improved HTML file:"

  // ---- Revision from failed tasks ----

  const FailureIntro: string := @"You are tasked with improving a web application based on detailed failure analysis from automated testing.

## CONTEXT
Application: "

  /** From the reported length to the opening fence of the website. */
  const LengthRequirements: string := @"

## LENGTH REQUIREMENTS
**CRITICAL**: Generate a COMPLETE, FULL-LENGTH HTML file that is comparable to or longer than the original initial website.
The output should be a fully functional web application with complete CSS and JavaScript.
DO NOT truncate, abbreviate, or use placeholders in the HTML code.
Generate the ENTIRE HTML file from <!DOCTYPE html> to </html>.

## ORIGINAL INITIAL WEBSITE (FULL)
"

  /** The requirements closing the f-string of the failure prompt: the
      given text, then the last numbered requirement. */
  function FailureRequirementsOf(t: RevisionTexts): string {
    t.failureRequirementsLead + LastOutputRequirement
  }

  const FailureRequirementsLead: string := @"

## IMPROVEMENT REQUIREMENTS

### 1. Core Issues to Address
Based on the failure analysis, you must:
- Identify missing DOM elements that tasks expect to exist
- Add missing JavaScript functionality for user interactions
- Fix timing issues that prevent task completion
- Ensure proper event handling and state management
- Add missing visual feedback and UI updates

### 2. Specific Fixes Needed
For each failed task category:
- **basic_usage**: Ensure fundamental interactions work (clicking, displaying, updating)
- **workflow**: Support complete user workflows and multi-step processes
- **advanced_feature**: Implement sophisticated UI behaviors and animations
- **edge_case**: Handle unusual inputs and boundary conditions properly

### 3. Technical Implementation Guidelines
- Preserve ALL existing working functionality from the initial version
- Add missing HTML elements with unique IDs for automation
- Implement complete JavaScript event handlers and state updates
- Ensure synchronous UI updates for immediate feedback
- Do NOT introduce new input constraints that would block task inputs implied by the tasks (e.g., accept plain text or non-HTTP payloads if tasks need them). Validation must be permissive and never reduce what the initial version allowed.
- Do NOT auto-trigger flows on page load that would change initial states relied upon by tasks (e.g., auto-generation, auto-download, auto-navigation). Initial state should be neutral and idle.
- Keep critical controls visible within a 1280x720 viewport without scrolling. Avoid multi-panel ""hub"" layouts; prefer single-view, compact layouts that fit important controls on screen.
- Avoid adding non-essential animations/transitions; prioritize high visibility and clarity over decoration.
- Make sure timers, counters, and dynamic content work correctly

### 4. DOM Structure Requirements
- Every interactive element MUST have a unique ID
- Form controls must have proper event listeners
- Dynamic content areas must update immediately on state changes
- Visual feedback must be implemented for all user actions

### 5. JavaScript Functionality Requirements
- All user interactions mentioned in failed tasks must be fully implemented
- State changes must be reflected in the DOM immediately
- Event handlers must properly update all related UI elements
- Any game logic, scoring, timing must be complete and functional

Surgical Revision Policy
- Preserve existing IDs; do not rename or remove working elements from the initial version.
- Avoid large rewrites. Patch only the functions, event handlers, and minimal markup necessary to satisfy the failed/unsupported tasks.
- Preserve working logic from the initial version; do not regress features that already work.
- Reuse existing elements/IDs for state wherever possible; only add new IDs if strictly necessary to expose the state of new logic.
- Preserve initial immediacy semantics. Do NOT introduce extra confirmation steps as prerequisites where the initial version achieved completion via immediate interactions. Implement functional logic first, then expose proxies from the same code path; never update proxies without the underlying state change.

Commenter JSON (if provided)
- If the COMMENTER UI ANALYSIS is a JSON object, prioritize applying entries in `actionable_changes` precisely.
- Keep changes surgical and bounded by those actionable suggestions; do not broaden scope beyond them.

## OUTPUT REQUIREMENTS
Generate a COMPLETE, FULLY FUNCTIONAL HTML file that:
1. Addresses ALL failure points identified in the analysis
2. Maintains existing successful functionality from the initial version
3. Implements missing features causing task failures
4. Provides proper DOM elements for automation testing
5. Ensures immediate UI feedback for all user actions
6. Contains COMPLETE CSS styling and JavaScript functionality
"

  const LastOutputRequirement: string := "7. Is a full-length, complete web application (not truncated)"

  const NoAnalysis: string := "No visual UI analysis available"

  /** The commenter's analysis, or the fixed notice when it is missing or
      empty; stripped either way. */
  function AnalysisText(analysis: Option<string>): string {
    Strip(if analysis.Some? && analysis.value != "" then analysis.value else NoAnalysis)
  }

  function AnalysisSection(analysis: Option<string>): string {
    "## COMMENTER UI ANALYSIS\n" + AnalysisText(analysis)
  }

  /** Python's `str()` of a list of category names (names without quotes
      or backslashes). */
  function CategoriesRepr(keys: seq<string>): string {
    "[" + Join(", ", Quoted(keys)) + "]"
  }

  /** Each name between single quotes. */
  function Quoted(keys: seq<string>): (r: seq<string>)
    ensures |r| == |keys|
  {
    if keys == [] then [] else ["'" + keys[0] + "'"] + Quoted(keys[1..])
  }

  /** The f-string of `build_coder_v1_failure_prompt`, in slot order. */
  function FailureParts(t: RevisionTexts, appName: string, modelName: string, v0Html: string, failedTasksLen: int,
                        categoryKeys: seq<string>, contract: Option<string>, analysis: Option<string>): seq<string> {
    [t.failureIntro + appName,
     "\nModel: " + modelName,
     "\nTotal Failed Tasks: " + IntToString(failedTasksLen) + "\nFailure Categories: " + CategoriesRepr(categoryKeys) + "\n",
     LengthLine(v0Html) + t.lengthRequirements,
     HtmlBlock(v0Html),
     "\n\n" + AnalysisSection(analysis) + "\n\n" + ContractText(contract) + FailureRequirementsOf(t)]
  }

  /** The destylization block: the given text, then section K. */
  function DestylizationOf(t: RevisionTexts): string {
    t.destylizationLead + StableIds
  }

  const DestylizationLead: string := @"

You must apply strict destylization and viewport optimization while improving functionality.

Destylization And Viewport Optimization

A. Visual Simplification
- Use #ffffff background and #000000 primary text; limit accents to a small, consistent palette.
- No gradients, animations, transitions, shadows, decorative borders, or rounded corners.
- Maintain a clear visual hierarchy via weight, size, and spacing.

- Behavior preservation: Reducing visual style MUST NOT delay, throttle, or gate state updates/animations behind confirmations. Preserve interaction‑to‑state immediacy; simplify visuals only.
- Live parity: Any user action that was immediate in the initial version MUST remain immediate in the revised version. Do not convert an immediate success condition into a confirm‑gated flow.

B. Action Affordances
- Minimum target size: all primary controls (buttons, toggles, sliders, actionable links) ≥ 44×44 px.
- Clear labels: every primary action uses a visible text label (e.g., ""Generate"", ""Solve"", ""Download PNG"").
- Primary action placement: position near the related input, in the upper-left or central region of the control panel.
- Spacing: keep 12–16 px between controls to avoid accidental clicks.

C. Input And Submission Behavior
- Non-destructive changes (text edits, sliders, toggles, color picks) MUST immediately update functionality and completion proxies. Enter/blur triggers the same updates by default.
- Explicit primary actions are reserved for irreversible or multi‑step submissions. They MUST NOT be the only path to reach the completion state. Both the live path (immediate changes) and any confirm path MUST drive the same proxy/attribute changes.

D. Completion Feedback And Status Indicators
- When an action completes (e.g., a result is produced, a preview is ready, or a download becomes available), update a visible status indicator synchronously with that change.
  - Example: set ""#downloadStatus"" to ""enabled"" when the download link becomes available.
  - Example: set ""#solveStatus"" to ""done"" when the solution summary is populated.
- These indicators must be meaningful to users and update exactly when the underlying state changes.

E. Layout Density Guardrail
- Fit within a 1280×720 viewport without cramming controls. Prefer a two-column layout on desktop (controls left, preview/result right).
- Keep the preview/result area fully visible and not overlapped; allow scrolling only for long histories/logs.
- Do not reduce control sizes below the 44×44 px target.

F. Keyboard And Hints
- Provide short keyboard hints for both live and confirm paths (e.g., ""Edits update live · Enter applies"").
- Ensure obvious focus styles and that Enter/blur trigger the same live updates as mouse/touch.
 
G. Interactive Controls (Operator-Friendly)
- For sliders/continuous controls, add adjacent +/- step buttons and arrow-key handling (Left/Right or Up/Down) with visible focus styles.
- ""Apply/Confirm"" MAY exist as an optional consolidation step, but live adjustments MUST already update the underlying state and completion proxies without requiring Apply. Apply SHOULD mirror the same updates (and may set ""#applyStatus"").
- Avoid making drag the only way to change values; a click/keyboard path must exist.

H. Landing & Navigation Proxies
- After in-page navigation (e.g., scrollIntoView or clicking a nav item), set ""#activeSection"" to the target section id or title.
- When a CTA opens an external page, set ""#lastLinkClicked"" to a human-readable label; external links should use target=""_blank"" and be visible as anchors with href.

I. Tool/Utility Preview & Export Proxies
- When a preview is ready, expose it via attributes (e.g., ""<img id='preview' src='data:image/...'>"", or ""<canvas id='previewCanvas' data-ready='true'>"") and set a visible proxy ""#previewStatus"" to ""ready"".
- When a download is ready, ensure an anchor exists with data href (e.g., ""<a id='download' href='data:...' download>"") and set ""#downloadStatus"" to ""enabled"".
- Both the immediate (live) interaction path and any confirm path MUST trigger these signals. Do NOT require ""Confirm/Generate"" to enable preview/download if content is valid; live edits MUST produce the same ready/enabled state.

J. Input Trigger Boundaries
- Enter/blur auto-apply is limited to safe transforms (e.g., hex normalization, live preview refresh). It must not submit multi-step processes, navigate away, or dismiss dialogs.

"

  /** Section K of the destylization block. */
  const StableIds: string := @"K. ID Stability And Rerenders
- All primary interactive elements and proxies must have unique, stable ids. Rerenders must preserve these ids; do not replace them with transient ids or remove them.
"

  /** The DOM-proxy block: the given rules, then the closing request. */
  function DomProxiesOf(t: RevisionTexts): string {
    t.domProxyRules + "\n\n" + CloseRequest
  }

  const DomProxyRules: string := @"

MANDATORY DOM COMPLETION PROXIES
- For every user-visible success event, provide both of the following in the DOM:
  1) An attribute predicate signal on the real element (e.g., ""#download[href^='data:']"", ""#btnSubmit[aria-disabled='false']"", ""#chartType[value='Line']"", ""#resultValue[data-ready='true']"").
  2) A visible proxy with a stable id and text/number (e.g., ""#downloadStatus"" contains ""enabled"", ""#solveStatus"" == ""done"", ""#chartTypeLabel"" == ""Line"").
- Update both signals synchronously with the state change (no timers). Never remove these proxies.
- Signal sources MUST be wired to the functional code paths used by live interactions. Never restrict proxy updates to only the confirm action; the same code path MUST drive both attribute predicates and visible proxies for live and confirm flows."

  /** `build_coder_v1_failure_prompt` over given fixed texts: the
      f-string, then the destylization block when asked for, then the
      DOM-proxy block. */
  function FailurePromptOf(t: RevisionTexts, appName: string, modelName: string, v0Html: string, failedTasksLen: int,
                           categoryKeys: seq<string>, contract: Option<string>, analysis: Option<string>,
                           applyDestylization: bool): string {
    FailureHead(t, appName, modelName, v0Html, failedTasksLen, categoryKeys, contract, analysis)
    + AppendedBlocks(t, applyDestylization)
  }

  /** The f-string of `build_coder_v1_failure_prompt`: its parts in order. */
  function FailureHead(t: RevisionTexts, appName: string, modelName: string, v0Html: string, failedTasksLen: int,
                       categoryKeys: seq<string>, contract: Option<string>, analysis: Option<string>): string {
    Concat(FailureParts(t, appName, modelName, v0Html, failedTasksLen, categoryKeys, contract, analysis))
  }

  /** What is appended to the f-string: the destylization block when
      asked for, then, always, the DOM-proxy block. */
  function AppendedBlocks(t: RevisionTexts, applyDestylization: bool): string {
    (if applyDestylization then DestylizationOf(t) else "") + DomProxiesOf(t)
  }

  /** `build_coder_v1_failure_prompt` with the source's own texts. */
  function FailurePrompt(appName: string, modelName: string, v0Html: string, failedTasksLen: int,
                         categoryKeys: seq<string>, contract: Option<string>, analysis: Option<string>,
                         applyDestylization: bool): string {
    FailurePromptOf(SourceTexts, appName, modelName, v0Html, failedTasksLen, categoryKeys, contract, analysis,
                    applyDestylization)
  }

  // ---- Revision from unsupported tasks ----

  const UnsupportedIntro: string := @"You are tasked with improving a web application to support additional tasks that are currently unsupported.

## CONTEXT
Application: "

  const ContractHeading: string := "## CODE PRESERVATION CONTRACT (Non-Regression)\n"

  /** The requirements closing the unsupported-task prompt: the given
      rules, then the closing request. */
  function UnsupportedRequirementsOf(t: RevisionTexts): string {
    t.unsupportedRules + "\n\n" + CloseRequest
  }

  const UnsupportedRules: string := @"

## IMPROVEMENT REQUIREMENTS

### 1. Task Support Issues to Address
Based on the unsupported task analysis, you must ADD missing functionality:
- Add missing DOM elements that tasks expect to exist
- Implement missing JavaScript functionality for user interactions
- Add missing form controls and input handling
- Implement missing display areas and visual feedback
- Add missing navigation and UI components

### 2. Implementation Guidelines
- PRESERVE all existing working functionality from the initial version
- ADD new HTML elements with unique IDs for automation
- IMPLEMENT complete JavaScript event handlers for new features
- ENSURE new UI elements are properly styled and visible
- DO NOT introduce new input constraints that would block task inputs implied by tasks; validation must be permissive and must not reduce what the initial version allowed.
- DO NOT auto-trigger flows on load that change initial states (no auto-generation, auto-download, auto-navigation). Start in a neutral, idle state.
- FIT critical controls within a 1280x720 viewport without scrolling. Avoid multi-panel hub layouts and unnecessary panels that push controls below the fold.
- IMPLEMENT missing workflows and user interaction patterns

### 3. DOM Structure Requirements
- Every new interactive element MUST have a unique ID
- New form controls must have proper event listeners
- New content areas must update appropriately on state changes
- New visual feedback must be implemented for added interactions

### 4. JavaScript Functionality Requirements
- All new user interactions mentioned in unsupported tasks must be fully implemented
- New state changes must be reflected in the DOM immediately
- New event handlers must properly update all related UI elements
- Any new game logic, scoring, timing must be complete and functional

## OUTPUT REQUIREMENTS
Generate a COMPLETE, FULLY FUNCTIONAL HTML file that:
1. Maintains ALL existing functionality from the initial version
2. ADDS missing functionality to support the unsupported tasks
3. Implements new DOM elements and JavaScript for task support
4. Ensures all new features are testable and functional
5. Contains COMPLETE CSS styling for all new elements
6. Is a full-length, complete web application (not truncated)

Commenter JSON (if provided)
- If upstream provides a commenter JSON analysis with `actionable_changes`, follow those changes first, precisely and surgically.

Surgical Revision Policy
- Preserve existing IDs; do not rename or remove working elements from the initial version.
- Avoid large rewrites. Patch only the functions, event handlers, and minimal markup necessary to satisfy the failed/unsupported tasks.
- Preserve working logic from the initial version; do not regress features that already work.
- Reuse existing elements/IDs for state wherever possible; only add new IDs if strictly necessary to expose the state of new logic.
- Preserve initial immediacy semantics. Do NOT introduce extra confirmation steps as prerequisites where the initial version achieved completion via immediate interactions. Implement functional logic first, then expose proxies from the same code path; never update proxies without the underlying state change."

  /** The number of tasks a summary lists: its occurrences of "Task ID:". */
  function TaskCount(summary: string): nat {
    Count(summary, "Task ID:")
  }

  function CountLine(summary: string): string {
    "Total Unsupported Tasks: " + NatToString(TaskCount(summary))
  }

  /** The contract section: empty when the contract is ablated. */
  function ContractSection(contract: Option<string>, ablateNoContract: bool): string {
    if ablateNoContract then "" else ContractText(contract)
  }

  /** The f-string of `build_coder_v1_unsupported_prompt`, in slot order. */
  function UnsupportedParts(t: RevisionTexts, appName: string, modelName: string, v0Html: string, summary: string,
                            contract: Option<string>, ablateNoContract: bool): seq<string> {
    [t.unsupportedIntro + appName,
     "\nModel: " + modelName,
     "\n" + CountLine(summary) + "\n",
     LengthLine(v0Html) + "\n\n## ORIGINAL INITIAL WEBSITE (FULL)\n",
     HtmlBlock(v0Html),
     "\n\n## UNSUPPORTED TASKS ANALYSIS\n" + summary,
     "\n\n" + (ContractHeading + ContractSection(contract, ablateNoContract)) + UnsupportedRequirementsOf(t)]
  }

  /** `build_coder_v1_unsupported_prompt` over given fixed texts. */
  function UnsupportedPromptOf(t: RevisionTexts, appName: string, modelName: string, v0Html: string, summary: string,
                               contract: Option<string>, ablateNoContract: bool): string {
    Concat(UnsupportedParts(t, appName, modelName, v0Html, summary, contract, ablateNoContract))
  }

  /** `build_coder_v1_unsupported_prompt` with the source's own texts. */
  function UnsupportedPrompt(appName: string, modelName: string, v0Html: string, summary: string,
                             contract: Option<string>, ablateNoContract: bool): string {
    UnsupportedPromptOf(SourceTexts, appName, modelName, v0Html, summary, contract, ablateNoContract)
  }

  // ---- The fixed texts ----

  /** The long fixed texts of the two revision prompts. The blocks built
      from them end with the closing request and with the short last
      lines above, so the properties below hold whatever these texts
      are, the source's own included. */
  datatype RevisionTexts = RevisionTexts(
    failureIntro: string, lengthRequirements: string, failureRequirementsLead: string,
    destylizationLead: string, domProxyRules: string,
    unsupportedIntro: string, unsupportedRules: string)

  const SourceTexts: RevisionTexts :=
    RevisionTexts(FailureIntro, LengthRequirements, FailureRequirementsLead, DestylizationLead, DomProxyRules,
                  UnsupportedIntro, UnsupportedRules)

  // ---- Properties ----

  /** The failure prompt's f-string ends with ')', the destylization
      block with a line break, and both closing blocks with the request
      for the improved file. */
  lemma BlockEndings(t: RevisionTexts)
    ensures FailureRequirementsOf(t) != [] && FailureRequirementsOf(t)[|FailureRequirementsOf(t)| - 1] == ')'
    ensures DestylizationOf(t) != [] && DestylizationOf(t)[|DestylizationOf(t)| - 1] == '\n'
    ensures EndsWith(DomProxiesOf(t), CloseRequest) && EndsWith(UnsupportedRequirementsOf(t), CloseRequest)
  {
    assert LastOutputRequirement[|LastOutputRequirement| - 1] == ')';
    assert StableIds[|StableIds| - 1] == '\n';
    LastOfAppend(t.failureRequirementsLead, LastOutputRequirement);
    LastOfAppend(t.destylizationLead, StableIds);
    assert EndsWith(CloseRequest, CloseRequest);
    EndsWithAppend(t.domProxyRules + "\n\n", CloseRequest, CloseRequest);
    EndsWithAppend(t.unsupportedRules + "\n\n", CloseRequest, CloseRequest);
  }

  /** The last character of a concatenation is that of its second part. */
  lemma LastOfAppend(a: string, b: string)
    requires b != []
    ensures (a + b)[|a + b| - 1] == b[|b| - 1]
  {
  }

  /** The instruction sits verbatim between the fixed header and the
      requirements list, and is read back from there. */
  lemma V0PromptRoundTrip(instruction: string)
    ensures var p := V0Prompt(instruction);
      && StartsWith(p, V0Head) && EndsWith(p, V0Requirements)
      && p[|V0Head|..|p| - |V0Requirements|] == instruction
  {
    var p := V0Prompt(instruction);
    assert p[..|V0Head|] == V0Head;
    assert p[|p| - |V0Requirements|..] == V0Requirements;
    assert p[|V0Head|..|p| - |V0Requirements|] == instruction;
  }

  /** A missing or empty analysis becomes the fixed notice; a given one
      is shown stripped; either way the text shown is its own strip. */
  lemma AnalysisTextCases(analysis: Option<string>)
    ensures analysis.None? || analysis.value == "" ==> AnalysisText(analysis) == NoAnalysis
    ensures analysis.Some? && analysis.value != "" ==> AnalysisText(analysis) == Strip(analysis.value)
    ensures Strip(AnalysisText(analysis)) == AnalysisText(analysis)
  {
    StripUnchanged(NoAnalysis);
    StripIdempotent(if analysis.Some? && analysis.value != "" then analysis.value else NoAnalysis);
  }

  /** The contract section is empty when ablated or when there is no
      contract, and otherwise the stripped contract; it is always its own
      strip. */
  lemma ContractSectionCases(contract: Option<string>, ablateNoContract: bool)
    ensures ablateNoContract || contract.None? ==> ContractSection(contract, ablateNoContract) == ""
    ensures !ablateNoContract && contract.Some? ==> ContractSection(contract, ablateNoContract) == Strip(contract.value)
    ensures Strip(ContractSection(contract, ablateNoContract)) == ContractSection(contract, ablateNoContract)
  {
    StripUnchanged("");
    StripIdempotent(contract.GetOr(""));
  }

  /** Whitespace around the initial website does not change the length
      reported. */
  lemma LengthIgnoresSurroundingSpace(v0Html: string)
    ensures LengthLine(Strip(v0Html)) == LengthLine(v0Html)
  {
    StripIdempotent(v0Html);
  }

  /** The DOM-proxy block always closes the failure prompt, which thus
      ends with the request for the improved file; the destylization
      block comes right before it exactly when it is asked for. */
  lemma FailurePromptBlocks(t: RevisionTexts, appName: string, modelName: string, v0Html: string, failedTasksLen: int,
                            categoryKeys: seq<string>, contract: Option<string>, analysis: Option<string>,
                            applyDestylization: bool)
    ensures var p := FailurePromptOf(t, appName, modelName, v0Html, failedTasksLen, categoryKeys, contract, analysis,
                                     applyDestylization);
      && EndsWith(p, DomProxiesOf(t))
      && EndsWith(p, CloseRequest)
      && (EndsWithThen(p, DestylizationOf(t), DomProxiesOf(t)) <==> applyDestylization)
  {
    FailureHeadEnds(t, appName, modelName, v0Html, failedTasksLen, categoryKeys, contract, analysis);
    BlockEndings(t);
    OptionalBlock(FailureHead(t, appName, modelName, v0Html, failedTasksLen, categoryKeys, contract, analysis),
                  DestylizationOf(t), DomProxiesOf(t), CloseRequest, applyDestylization);
  }

  /** The f-string ends with the requirements text, so with its closing
      parenthesis. */
  lemma FailureHeadEnds(t: RevisionTexts, appName: string, modelName: string, v0Html: string, failedTasksLen: int,
                        categoryKeys: seq<string>, contract: Option<string>, analysis: Option<string>)
    ensures var head := FailureHead(t, appName, modelName, v0Html, failedTasksLen, categoryKeys, contract, analysis);
      head != [] && head[|head| - 1] == ')'
  {
    var parts := FailureParts(t, appName, modelName, v0Html, failedTasksLen, categoryKeys, contract, analysis);
    var last := "\n\n" + AnalysisSection(analysis) + "\n\n" + ContractText(contract);
    BlockEndings(t);
    assert parts[|parts| - 1] == last + FailureRequirementsOf(t);
    LastCharOfConcat(parts, last, FailureRequirementsOf(t));
  }

  /** A concatenation ends with the last character of its last part. */
  lemma LastCharOfConcat(parts: seq<string>, last: string, req: string)
    requires |parts| > 0 && parts[|parts| - 1] == last + req && req != []
    ensures Concat(parts) != [] && Concat(parts)[|Concat(parts)| - 1] == req[|req| - 1]
  {
    var init := parts[..|parts| - 1];
    assert Concat(parts) == Concat(init) + (last + req);
  }

  /** A text ending with a non-empty text ends with its last character. */
  lemma EndsWithLast(s: string, t: string)
    requires EndsWith(s, t) && t != []
    ensures s != [] && s[|s| - 1] == t[|t| - 1]
  {
    assert s[|s| - |t|..][|t| - 1] == s[|s| - 1];
  }

  /** Appending an optional block and a closing block to a text that does
      not end like the optional block: the closing block ends the result,
      and the optional block precedes it exactly when it was appended. */
  lemma OptionalBlock(base: string, block: string, closing: string, close: string, flag: bool)
    requires EndsWith(closing, close)
    requires block != [] && (base == [] || base[|base| - 1] != block[|block| - 1])
    ensures var p := base + ((if flag then block else "") + closing);
      && EndsWith(p, closing) && EndsWith(p, close)
      && (EndsWithThen(p, block, closing) <==> flag)
  {
    var middle := if flag then block else "";
    var head := base + middle;
    var p := base + (middle + closing);
    assert p == head + closing;
    assert p[|p| - |closing|..] == closing;
    EndsWithTrans(p, closing, close);
    assert p[..|p| - |closing|] == head;
    if flag {
      assert head[|base|..] == block;
    } else {
      assert head == base;
      if EndsWith(base, block) {
        EndsWithLast(base, block);
      }
    }
  }

  /** The failure prompt reports the stripped length of the initial
      website, then shows the website whole, then the commenter's
      analysis section. */
  lemma FailurePromptContext(t: RevisionTexts, appName: string, modelName: string, v0Html: string, failedTasksLen: int,
                             categoryKeys: seq<string>, contract: Option<string>, analysis: Option<string>,
                             applyDestylization: bool)
    ensures var p := FailurePromptOf(t, appName, modelName, v0Html, failedTasksLen, categoryKeys, contract, analysis,
                                     applyDestylization);
      exists i, j, k :: (i < j < k
        && OccursAt(p, LengthLine(v0Html), i)
        && OccursAt(p, HtmlBlock(v0Html), j)
        && OccursAt(p, AnalysisSection(analysis), k))
  {
    var parts := FailureParts(t, appName, modelName, v0Html, failedTasksLen, categoryKeys, contract, analysis);
    var p := FailurePromptOf(t, appName, modelName, v0Html, failedTasksLen, categoryKeys, contract, analysis,
                             applyDestylization);
    var tail := AppendedBlocks(t, applyDestylization);
    assert p == Concat(parts) + tail;
    assert |parts| == 6 && parts[3] == LengthLine(v0Html) + t.lengthRequirements && parts[4] == HtmlBlock(v0Html);
    assert parts[5] == "\n\n" + AnalysisSection(analysis) + "\n\n" + ContractText(contract) + FailureRequirementsOf(t);
    assert LengthLine(v0Html) != [] && HtmlBlock(v0Html) != [];
    ContextInOrder(parts, tail, LengthLine(v0Html), t.lengthRequirements, HtmlBlock(v0Html),
                   AnalysisSection(analysis), ContractText(contract), FailureRequirementsOf(t));
  }

  lemma ContextInOrder(parts: seq<string>, tail: string, lengthLine: string, lengthRest: string,
                       html: string, section: string, contract: string, req: string)
    requires |parts| == 6 && parts[3] == lengthLine + lengthRest && parts[4] == html
    requires parts[5] == "\n\n" + section + "\n\n" + contract + req && html != [] && lengthLine != []
    ensures exists i, j, k :: (i < j < k
        && OccursAt(Concat(parts) + tail, lengthLine, i)
        && OccursAt(Concat(parts) + tail, html, j)
        && OccursAt(Concat(parts) + tail, section, k))
  {
    var base := Concat(parts);
    var i, j, k := ContextInBase(parts, lengthLine, lengthRest, html, section, contract, req);
    OccursExtended(base, tail, lengthLine, i);
    OccursExtended(base, tail, html, j);
    OccursExtended(base, tail, section, k);
  }

  lemma ContextInBase(parts: seq<string>, lengthLine: string, lengthRest: string,
                      html: string, section: string, contract: string, req: string) returns (i: int, j: int, k: int)
    requires |parts| == 6 && parts[3] == lengthLine + lengthRest && parts[4] == html
    requires parts[5] == "\n\n" + section + "\n\n" + contract + req && html != [] && lengthLine != []
    ensures i < j < k
    ensures OccursAt(Concat(parts), lengthLine, i) && OccursAt(Concat(parts), html, j) && OccursAt(Concat(parts), section, k)
  {
    assert parts[3] == "" + lengthLine + lengthRest;
    i := PartMiddle(parts, 3, "", lengthLine, lengthRest);
    assert parts[4] == "" + html + "";
    j := PartMiddle(parts, 4, "", html, "");
    assert parts[5] == "\n\n" + section + ("\n\n" + contract + req);
    k := PartMiddle(parts, 5, "\n\n", section, "\n\n" + contract + req);
    ConcatOrder(parts, 3, 4);
    ConcatOrder(parts, 4, 5);
  }

  /** The unsupported-task prompt opens with its fixed introduction, ends
      with the request for the improved file, and carries in order the
      task count, the stripped length, the website whole and the contract
      section under its heading. */
  lemma UnsupportedPromptShape(t: RevisionTexts, appName: string, modelName: string, v0Html: string, summary: string,
                               contract: Option<string>, ablateNoContract: bool)
    ensures var p := UnsupportedPromptOf(t, appName, modelName, v0Html, summary, contract, ablateNoContract);
      && StartsWith(p, t.unsupportedIntro)
      && EndsWith(p, CloseRequest)
      && (exists i, j :: i < j
           && OccursAt(p, CountLine(summary), i)
           && OccursAt(p, LengthLine(v0Html), j))
      && (exists j, k :: j < k
           && OccursAt(p, HtmlBlock(v0Html), j)
           && OccursAt(p, ContractHeading + ContractSection(contract, ablateNoContract), k))
  {
    var parts := UnsupportedParts(t, appName, modelName, v0Html, summary, contract, ablateNoContract);
    var p := Concat(parts);
    var section := ContractSection(contract, ablateNoContract);
    StartsWithAppend(t.unsupportedIntro, appName);
    BlockEndings(t);
    EndsWithAppend("\n\n" + (ContractHeading + section), UnsupportedRequirementsOf(t), CloseRequest);
    FramedBy(parts, t.unsupportedIntro, CloseRequest);
    assert |parts| == 7;
    assert p == Concat(parts);
    assert parts[2] == "\n" + CountLine(summary) + "\n";
    assert parts[3] == LengthLine(v0Html) + "\n\n## ORIGINAL INITIAL WEBSITE (FULL)\n";
    assert LengthLine(v0Html) != [];
    UnsupportedCounts(parts, p, CountLine(summary), LengthLine(v0Html), "\n\n## ORIGINAL INITIAL WEBSITE (FULL)\n");
    UnsupportedContract(parts, p, v0Html, section, UnsupportedRequirementsOf(t));
  }

  lemma UnsupportedCounts(parts: seq<string>, p: string, countLine: string, lengthLine: string, heading: string)
    requires |parts| == 7 && p == Concat(parts)
    requires parts[2] == "\n" + countLine + "\n"
    requires parts[3] == lengthLine + heading && lengthLine != []
    ensures exists i, j :: (i < j
      && OccursAt(p, countLine, i)
      && OccursAt(p, lengthLine, j))
  {
    ConcatThreeInOrder(parts, 2, 3, 4);
    var i, j, k :| i < j < k && i + |parts[2]| <= j && OccursAt(p, parts[2], i) && OccursAt(p, parts[3], j) && OccursAt(p, parts[4], k);
    OccursMiddle(p, "\n", countLine, "\n", i);
    OccursPrefix(p, parts[3], lengthLine, j);
  }

  lemma UnsupportedContract(parts: seq<string>, p: string, v0Html: string, section: string, rest: string)
    requires |parts| == 7 && p == Concat(parts)
    requires parts[4] == HtmlBlock(v0Html) && parts[5] != []
    requires parts[6] == "\n\n" + (ContractHeading + section) + rest
    ensures exists j, k :: (j < k
      && OccursAt(p, HtmlBlock(v0Html), j)
      && OccursAt(p, ContractHeading + section, k))
  {
    ConcatThreeInOrder(parts, 4, 5, 6);
    var j, k, l :| j < k < l && OccursAt(p, parts[4], j) && OccursAt(p, parts[5], k) && OccursAt(p, parts[6], l);
    OccursMiddle(p, "\n\n", ContractHeading + section, rest, l);
  }

  /** A concatenation starts as its first part starts and ends as its
      last part ends. */
  lemma FramedBy(parts: seq<string>, head: string, tail: string)
    requires |parts| > 0 && StartsWith(parts[0], head) && EndsWith(parts[|parts| - 1], tail)
    ensures StartsWith(Concat(parts), head) && EndsWith(Concat(parts), tail)
  {
    ConcatEnds(parts);
    StartsWithTrans(Concat(parts), parts[0], head);
    EndsWithTrans(Concat(parts), parts[|parts| - 1], tail);
  }

  /** A summary of task blocks, each "Task ID: <id>" on a line of its own. */
  function TaskBlocks(ids: seq<string>): string
    decreases |ids|
  {
    if ids == [] then "" else "Task ID: " + ids[0] + "\n" + TaskBlocks(ids[1..])
  }

  /** The count reported is the number of task blocks, when no id holds a
      capital 'T' that could start another "Task ID:". */
  lemma {:induction false} TaskCountOfBlocks(ids: seq<string>)
    requires forall k, c :: 0 <= k < |ids| && 0 <= c < |ids[k]| ==> ids[k][c] != 'T'
    ensures TaskCount(TaskBlocks(ids)) == |ids|
    decreases |ids|
  {
    if ids != [] {
      var rest := TaskBlocks(ids[1..]);
      TaskCountOfBlocks(ids[1..]);
      var pre := " " + ids[0] + "\n";
      assert TaskBlocks(ids) == "Task ID:" + (pre + rest);
      CountLeading("Task ID:", pre + rest);
      CountSkipsPrefix(pre, rest, "Task ID:");
    }
  }
}
