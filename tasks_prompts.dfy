/** The task-generation prompts: the focus block chosen by an app's first
    tag, and the base prompt that asks for thirty tasks. */
module TasksPrompts {
  import opened Text

  /** The fixed lines between the description and the focus block. */
  const BaseConstraints: string :=
    "\n" +
    "\n" +
    "IMPORTANT CONSTRAINTS:\n" +
    "- External system interactions such as file uploads and downloads are not " +
    "available\n" +
    "\n" +
    "Each task should be:\n" +
    "- Clear and specific in its description\n" +
    "- Represent realistic user scenarios\n" +
    "- Cover different complexity levels and use cases\n" +
    "- Include proper expected outcomes for verification\n" +
    "- Avoid single element grounding (focus on complete workflows)\n" +
    "- Test the application's core functionality effectively\n" +
    "\n"

  /** The opening sentence, naming the tag type. */
  function Opening(tagType: string): string {
    "Generate 30 diverse, realistic user tasks for the following " + tagType + " application:"
  }

  /** The closing sentence, naming the primary tag. */
  function Closing(primaryTag: string): string {
    "Generate exactly 30 tasks with tag-specific focus on " + primaryTag + " testing philosophy."
  }

  /** `build_base_prompt`, in the order the template fills its slots. */
  function BaseParts(tagType: string, appTitle: string, appDescription: string,
                     tagContent: string, primaryTag: string): seq<string> {
    [Opening(tagType) + "\n\n",
     "Application: " + appTitle + "\n",
     "Description: " + appDescription + BaseConstraints,
     tagContent,
     "\n\n" + Closing(primaryTag)]
  }

  function BasePrompt(tagType: string, appTitle: string, appDescription: string,
                      tagContent: string, primaryTag: string): string {
    Concat(BaseParts(tagType, appTitle, appDescription, tagContent, primaryTag))
  }

  // ---- The focus blocks ----

  const GameBody: string := @"1. Playing complete game rounds or levels
2. Achieving high scores and personal bests
3. Completing specific game objectives or challenges
4. Using game controls and input methods
5. Navigating game menus and settings
6. Restarting games and trying different strategies
7. Progressing through difficulty levels

Additional task requirements:
- Focus on actual gameplay actions and goals
- Include winning and losing scenarios
- Cover different skill levels and strategies
- Test game restart and replay functionality
- Emphasize user enjoyment and engagement"

  const ToolBody: string := @"1. Creating or generating content using the tool
2. Inputting data in various formats and types (typed/pasted text or on-page controls)
3. Transforming and processing information
4. Previewing results in-page (no file uploads/downloads)
5. Using tool-specific features and options
6. Working with both simple and complex inputs
7. Completing end-to-end workflows within the page

Additional task requirements:
- Focus on practical use cases and workflows
- Include both basic and advanced tool usage
- Cover different input types and scenarios without external files
- Verify visible in-page outputs or status changes in the DOM
- Emphasize real-world problem solving"

  const UtilityBody: string := @"1. Setting up and configuring the utility for personal use
2. Adding, organizing, and managing data or items
3. Tracking progress and monitoring status over time
4. Using timers, reminders, and scheduling features
5. Customizing settings and preferences
6. Completing daily or routine activities
7. Accessing and updating information quickly

Additional task requirements:
- Focus on everyday productivity scenarios
- Include setup and personalization tasks
- Cover routine and habitual usage patterns
- Test organization and tracking features
- Emphasize practical daily life applications"

  const InteractiveBody: string := @"1. Exploring and experimenting with interactive elements
2. Creating and manipulating visual or audio content
3. Adjusting parameters and settings in real-time
4. Playing with creative tools and features
5. Experiencing immersive visual or audio effects
6. Using touch, click, and gesture interactions
7. Customizing appearance and behavior

Additional task requirements:
- Focus on creative and exploratory activities
- Include experimentation and play scenarios
- Cover different interaction methods
- Test customization and personalization
- Emphasize sensory and aesthetic experiences"

  const LandingBody: string := @"1. Browsing and exploring page content and sections
2. Reading and understanding key information
3. Clicking on call-to-action buttons and links
4. Navigating through different page sections
5. Finding contact information and ways to engage
6. Viewing team, product, or service details
7. Accessing additional resources and links

Additional task requirements:
- Focus on visitor browsing and exploration
- Include information-seeking behaviors
- Cover engagement and conversion actions
- Test navigation and content discovery
- Emphasize typical visitor journey scenarios"

  const AppBody: string := @"1. Creating, editing, and managing content or data
2. Using multiple features in combination
3. Setting up and personalizing the application
4. Completing complex multi-step workflows
5. Organizing and categorizing information
6. Accessing and updating saved information

Additional task requirements:
- Focus on practical in-app usage
- Include multi-feature workflows and combinations
- Cover content creation and management
- Test personalization and customization
- Verify completion via visible state changes in the DOM (no external integrations)"

  /** A focus block: its heading line, then its body. */
  function Focus(heading: string, body: string): string {
    "Focus on " + heading + "-SPECIFIC user tasks:\n" + body
  }

  /** The tags with a focus block of their own, in the order they are
      tried; the generic block comes last. */
  const KnownTags: seq<string> := ["game", "tool", "utility", "interactive", "landing"]
  const Headings: seq<string> := ["GAME", "TOOL", "UTILITY", "INTERACTIVE", "LANDING", "APP"]

  /** The bodies of the six focus blocks, one per heading. */
  datatype FocusBodies = FocusBodies(game: string, tool: string, utility: string,
                                     interactive: string, landing: string, app: string)

  const SourceBodies: FocusBodies :=
    FocusBodies(GameBody, ToolBody, UtilityBody, InteractiveBody, LandingBody, AppBody)

  /** The body under `Headings[c]`. */
  function Body(b: FocusBodies, c: nat): string {
    if c == 0 then b.game
    else if c == 1 then b.tool
    else if c == 2 then b.utility
    else if c == 3 then b.interactive
    else if c == 4 then b.landing
    else b.app
  }

  /** The tag that decides: the first one, lower-cased; "app" when there is none. */
  function PrimaryTag(tags: seq<string>): string {
    Lower(if tags == [] then "app" else tags[0])
  }

  /** `get_tag_based_prompt_template` over given block bodies. */
  function TagTemplateOf(b: FocusBodies, tags: seq<string>): string {
    var primary := PrimaryTag(tags);
    if primary == "game" then Focus("GAME", b.game)
    else if primary == "tool" then Focus("TOOL", b.tool)
    else if primary == "utility" then Focus("UTILITY", b.utility)
    else if primary == "interactive" then Focus("INTERACTIVE", b.interactive)
    else if primary == "landing" then Focus("LANDING", b.landing)
    else Focus("APP", b.app)
  }

  /** `get_tag_based_prompt_template` with the source's own bodies; the
      properties below hold whatever the bodies are. */
  function TagTemplate(tags: seq<string>): string {
    TagTemplateOf(SourceBodies, tags)
  }

  /** The position of a primary tag among the known ones, 5 for any other. */
  function Choice(primary: string): (c: nat)
    ensures c <= |KnownTags|
    ensures c < |KnownTags| <==> primary in KnownTags
    ensures c < |KnownTags| ==> KnownTags[c] == primary
  {
    if primary == "game" then 0
    else if primary == "tool" then 1
    else if primary == "utility" then 2
    else if primary == "interactive" then 3
    else if primary == "landing" then 4
    else 5
  }

  /** Reading the heading back from a focus block. */
  function FocusHeading(block: string): string {
    if StartsWith(block, "Focus on ") then Before(block[9..], "-SPECIFIC") else ""
  }

  /** The heading of a block is recovered from it when it holds no '-'. */
  lemma FocusHeadingRoundTrip(heading: string, body: string)
    requires forall k :: 0 <= k < |heading| ==> heading[k] != '-'
    ensures FocusHeading(Focus(heading, body)) == heading
  {
    var rest := " user tasks:\n" + body;
    var block := Focus(heading, body);
    assert block == "Focus on " + (heading + "-SPECIFIC" + rest);
    assert block[..9] == "Focus on ";
    assert block[9..] == heading + "-SPECIFIC" + rest;
    var s := heading + "-SPECIFIC" + rest;
    assert s == heading + ("-SPECIFIC" + rest);
    FindPastPrefix(heading, "-SPECIFIC" + rest, "-SPECIFIC");
    assert s[..|heading|] == heading;
  }

  /** Each of the five known tags gets the block headed by its own
      upper-case name, every other primary tag the generic APP block. */
  lemma TagTemplateChoice(b: FocusBodies, tags: seq<string>)
    ensures var c := Choice(PrimaryTag(tags));
      TagTemplateOf(b, tags) == Focus(Headings[c], Body(b, c)) && FocusHeading(TagTemplateOf(b, tags)) == Headings[c]
  {
    var c := Choice(PrimaryTag(tags));
    assert forall k :: 0 <= k < |Headings[c]| ==> Headings[c][k] != '-';
    FocusHeadingRoundTrip(Headings[c], Body(b, c));
  }

  /** The heading of the block names the tag that chose it: no two tags
      of the dispatch share a heading. */
  lemma HeadingNamesTag(b: FocusBodies, tags: seq<string>, tags': seq<string>)
    ensures FocusHeading(TagTemplateOf(b, tags)) == FocusHeading(TagTemplateOf(b, tags')) <==>
            Choice(PrimaryTag(tags)) == Choice(PrimaryTag(tags'))
  {
    TagTemplateChoice(b, tags);
    TagTemplateChoice(b, tags');
    HeadingsDistinct(Choice(PrimaryTag(tags)), Choice(PrimaryTag(tags')));
  }

  lemma HeadingsDistinct(c: nat, c': nat)
    requires c < |Headings| && c' < |Headings|
    ensures Headings[c] == Headings[c'] <==> c == c'
  {
    if Headings[c] == Headings[c'] {
      assert Headings[c][0] == Headings[c'][0];
    }
  }

  /** No tags at all is the same as the single tag "app". */
  lemma NoTagsIsApp(b: FocusBodies)
    ensures TagTemplateOf(b, []) == TagTemplateOf(b, ["app"]) == Focus("APP", b.app)
  {
    assert Lower("app") == "app";
  }

  /** Only the first tag counts, and its letter case does not. */
  lemma FirstTagDecides(b: FocusBodies, tags: seq<string>)
    requires tags != []
    ensures TagTemplateOf(b, tags) == TagTemplateOf(b, [tags[0]]) == TagTemplateOf(b, [Lower(tags[0])])
  {
    LowerIdempotent(tags[0]);
  }

  lemma LowerIdempotent(s: string)
    ensures Lower(Lower(s)) == Lower(s)
  {
    var l := Lower(s);
    forall k | 0 <= k < |s| ensures Lower(l)[k] == l[k] {
      assert LowerChar(LowerChar(s[k])) == LowerChar(s[k]);
    }
  }

  /** The base prompt opens by naming the tag type and closes by asking
      for exactly thirty tasks in the spirit of the primary tag. */
  lemma BasePromptEnds(tagType: string, appTitle: string, appDescription: string,
                       tagContent: string, primaryTag: string)
    ensures StartsWith(BasePrompt(tagType, appTitle, appDescription, tagContent, primaryTag), Opening(tagType))
    ensures EndsWith(BasePrompt(tagType, appTitle, appDescription, tagContent, primaryTag), Closing(primaryTag))
  {
    var parts := BaseParts(tagType, appTitle, appDescription, tagContent, primaryTag);
    var p := Concat(parts);
    ConcatEnds(parts);
    var head := Opening(tagType);
    assert parts[0][..|head|] == head;
    assert p[..|head|] == parts[0][..|head|];
    var tail := Closing(primaryTag);
    assert parts[4][|parts[4]| - |tail|..] == tail;
    assert p[|p| - |tail|..] == parts[4][|parts[4]| - |tail|..];
  }

  /** In between, it carries the title line, the description and the
      focus block, in that order. */
  lemma BasePromptOrder(tagType: string, appTitle: string, appDescription: string,
                        tagContent: string, primaryTag: string)
    ensures var p := BasePrompt(tagType, appTitle, appDescription, tagContent, primaryTag);
      exists i, j, k :: i < j < k
        && OccursAt(p, "Application: " + appTitle + "\n", i)
        && OccursAt(p, "Description: " + appDescription, j)
        && OccursAt(p, tagContent, k)
  {
    var parts := BaseParts(tagType, appTitle, appDescription, tagContent, primaryTag);
    var i, j, k := PartsInOrder(parts, "Application: " + appTitle + "\n", "Description: " + appDescription,
                                BaseConstraints, tagContent);
    var p := BasePrompt(tagType, appTitle, appDescription, tagContent, primaryTag);
    assert OccursAt(p, "Application: " + appTitle + "\n", i) && OccursAt(p, "Description: " + appDescription, j);
  }

  /** The second part, the head of the third and the fourth occur in that
      order in a concatenation of parts. */
  lemma PartsInOrder(parts: seq<string>, title: string, desc: string, rest: string, content: string)
    returns (i: int, j: int, k: int)
    requires |parts| == 5 && parts[1] == title && parts[2] == desc + rest && parts[3] == content
    requires title != [] && desc != []
    ensures i < j < k
    ensures OccursAt(Concat(parts), title, i) && OccursAt(Concat(parts), desc, j)
    ensures OccursAt(Concat(parts), content, k)
  {
    ConcatPartAt(parts, 1);
    ConcatPartAt(parts, 2);
    ConcatPartAt(parts, 3);
    ConcatOrder(parts, 1, 2);
    ConcatOrder(parts, 2, 3);
    i, j, k := |Concat(parts[..1])|, |Concat(parts[..2])|, |Concat(parts[..3])|;
    StartsWithAppend(desc, rest);
    OccursPrefix(Concat(parts), parts[2], desc, j);
  }
}
