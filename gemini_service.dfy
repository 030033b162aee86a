/** The fixed sentences of `getTechStackPreference`, and the phrases that
    tell them apart. */
module TechStackSentences {
  import opened Text

  const PREFERENCE_REACT: string :=
    "The user has a preference for a modern stack: "
    + "React (with Vite)"
    + (" and Tailwind CSS for the "
       + "frontend, and a Node.js (Express) backend.")
  const PREFERENCE_VUE: string :=
    "The user has a preference for a modern stack: "
    + "Vue.js"
    + (" (with Vite) and Tailwind CSS for the "
       + "frontend, and a Node.js (Express) backend.")
  const PREFERENCE_MOBILE: string :=
    "The user has a preference for a mobile-focused "
    + "stack using "
    + "React Native"
    + (" for cross-platform "
       + "development and Firebase for backend services.")

  /** The opening the three classic sentences share, and the three endings. */
  const CLASSIC_OPENING: string :=
    "The user has a " + "preference for a "
    + "classic web stack: " + "standard HTML, CSS, and "
    + "vanilla JavaScript"
  const CLASSIC_SINGLE_TAIL: string :=
    ". CRITICAL REQUIREMENT: " + "All code (HTML, CSS, JS) "
    + "must be contained " + "within a "
    + "SINGLE index.html"
    + " file for portability."
  const CLASSIC_SEPARATE_TAIL: string :=
    ". Requirement: Use "
    + "SEPARATE files"
    + (" for structure " + "(index.html), "
       + "styles (style.css), " + "and logic (script.js).")
  const CLASSIC_GENERIC_TAIL: string :=
    ", likely with a simple " + "backend if needed."

  const PREFERENCE_CLASSIC_SINGLE: string := CLASSIC_OPENING + CLASSIC_SINGLE_TAIL
  const PREFERENCE_CLASSIC_SEPARATE: string := CLASSIC_OPENING + CLASSIC_SEPARATE_TAIL
  const PREFERENCE_CLASSIC: string := CLASSIC_OPENING + CLASSIC_GENERIC_TAIL

  /** The two modern-stack sentences name their frontend framework. */
  lemma ModernSentencesNameFrameworks()
    ensures Contains(PREFERENCE_REACT, "React (with Vite)") && Contains(PREFERENCE_VUE, "Vue.js")
  {
    InfixContained("The user has a preference for a modern stack: ", "React (with Vite)",
                   " and Tailwind CSS for the " + "frontend, and a Node.js (Express) backend.");
    InfixContained("The user has a preference for a modern stack: ", "Vue.js",
                   " (with Vite) and Tailwind CSS for the " + "frontend, and a Node.js (Express) backend.");
  }

  /** The mobile sentence names React Native. */
  lemma MobileSentenceNamesFramework()
    ensures Contains(PREFERENCE_MOBILE, "React Native")
  {
    InfixContained("The user has a preference for a mobile-focused " + "stack using ", "React Native",
                   " for cross-platform " + "development and Firebase for backend services.");
  }

  /** The classic opening names vanilla JavaScript. */
  lemma ClassicOpeningNamesVanilla()
    ensures Contains(CLASSIC_OPENING, "vanilla JavaScript")
  {
    EndContained("The user has a " + "preference for a " + "classic web stack: " + "standard HTML, CSS, and ",
                 "vanilla JavaScript");
  }

  /** The classic opening has no capital `G` or `P`, the letters that tell
      the two file mandates apart. */
  lemma ClassicOpeningLacksMandateLetters()
    ensures 'G' !in CLASSIC_OPENING && 'P' !in CLASSIC_OPENING
  {
    ClassicOpeningLacks('G');
    ClassicOpeningLacks('P');
  }

  /** The opening lacks either letter, checked piece by piece. */
  lemma ClassicOpeningLacks(c: char)
    requires c == 'G' || c == 'P'
    ensures c !in CLASSIC_OPENING
  {
    assert c !in "The user has a ";
    assert c !in "preference for a ";
    assert c !in "classic web stack: ";
    assert c !in "standard HTML, CSS, and ";
    assert c !in "vanilla JavaScript";
  }

  /** The single-file ending mandates one `index.html` and has no capital `P`. */
  lemma SingleTailFacts()
    ensures Contains(CLASSIC_SINGLE_TAIL, "SINGLE index.html") && 'P' !in CLASSIC_SINGLE_TAIL
  {
    InfixContained(". CRITICAL REQUIREMENT: " + "All code (HTML, CSS, JS) " + "must be contained " + "within a ",
                   "SINGLE index.html", " file for portability.");
    assert 'P' !in ". CRITICAL REQUIREMENT: " && 'P' !in "All code (HTML, CSS, JS) ";
    assert 'P' !in "must be contained " && 'P' !in "within a ";
    assert 'P' !in "SINGLE index.html" && 'P' !in " file for portability.";
  }

  /** The split-files ending mandates separate files and has no capital `G`. */
  lemma SeparateTailFacts()
    ensures Contains(CLASSIC_SEPARATE_TAIL, "SEPARATE files") && 'G' !in CLASSIC_SEPARATE_TAIL
  {
    InfixContained(". Requirement: Use ", "SEPARATE files",
                   " for structure " + "(index.html), " + "styles (style.css), " + "and logic (script.js).");
    assert 'G' !in ". Requirement: Use " && 'G' !in "SEPARATE files";
    assert 'G' !in " for structure " && 'G' !in "(index.html), ";
    assert 'G' !in "styles (style.css), " && 'G' !in "and logic (script.js).";
  }

  /** The generic ending has neither capital `G` nor `P`. */
  lemma GenericTailFacts()
    ensures 'G' !in CLASSIC_GENERIC_TAIL && 'P' !in CLASSIC_GENERIC_TAIL
  {
    assert 'G' !in ", likely with a simple " && 'P' !in ", likely with a simple ";
    assert 'G' !in "backend if needed." && 'P' !in "backend if needed.";
  }

  /** The `'single'` sentence mandates one file and never separate ones. */
  lemma SingleSentenceMandatesOneFile()
    ensures Contains(PREFERENCE_CLASSIC_SINGLE, "vanilla JavaScript")
    ensures Contains(PREFERENCE_CLASSIC_SINGLE, "SINGLE index.html")
    ensures !Contains(PREFERENCE_CLASSIC_SINGLE, "SEPARATE files")
  {
    ClassicOpeningNamesVanilla();
    ClassicOpeningLacksMandateLetters();
    SingleTailFacts();
    ContainedInFront(CLASSIC_OPENING, CLASSIC_SINGLE_TAIL, "vanilla JavaScript");
    ContainedInBack(CLASSIC_OPENING, CLASSIC_SINGLE_TAIL, "SINGLE index.html");
    MissingCharNotContained(PREFERENCE_CLASSIC_SINGLE, "SEPARATE files", 'P');
  }

  /** The `'separate'` sentence mandates separate files and never a single one. */
  lemma SeparateSentenceMandatesSplitFiles()
    ensures Contains(PREFERENCE_CLASSIC_SEPARATE, "vanilla JavaScript")
    ensures Contains(PREFERENCE_CLASSIC_SEPARATE, "SEPARATE files")
    ensures !Contains(PREFERENCE_CLASSIC_SEPARATE, "SINGLE index.html")
  {
    ClassicOpeningNamesVanilla();
    ClassicOpeningLacksMandateLetters();
    SeparateTailFacts();
    ContainedInFront(CLASSIC_OPENING, CLASSIC_SEPARATE_TAIL, "vanilla JavaScript");
    ContainedInBack(CLASSIC_OPENING, CLASSIC_SEPARATE_TAIL, "SEPARATE files");
    MissingCharNotContained(PREFERENCE_CLASSIC_SEPARATE, "SINGLE index.html", 'G');
  }

  /** The generic classic sentence mandates neither file layout. */
  lemma GenericClassicSentenceMandatesNothing()
    ensures Contains(PREFERENCE_CLASSIC, "vanilla JavaScript")
    ensures !Contains(PREFERENCE_CLASSIC, "SINGLE index.html")
    ensures !Contains(PREFERENCE_CLASSIC, "SEPARATE files")
  {
    ClassicOpeningNamesVanilla();
    ClassicOpeningLacksMandateLetters();
    GenericTailFacts();
    ContainedInFront(CLASSIC_OPENING, CLASSIC_GENERIC_TAIL, "vanilla JavaScript");
    MissingCharNotContained(PREFERENCE_CLASSIC, "SINGLE index.html", 'G');
    MissingCharNotContained(PREFERENCE_CLASSIC, "SEPARATE files", 'P');
  }
}

/** The prompt builder and the streaming client. A prompt is the template
    literal of `buildPrompt`: its fixed texts with the input values
    interpolated between them, then trimmed. The fixed texts are gathered in
    one record, `PromptTexts`, so that the properties of the template are
    proved for any texts of the right shape and then hold for the texts the
    application ships. */
module GeminiService {
  import opened Types
  import opened Text
  import CustomTechStackForm
  import opened TechStackSentences

  // ---------------------------------------------------------------------
  // Preset technology sentences (`getTechStackPreference`)
  // ---------------------------------------------------------------------

  /** `getTechStackPreference`: the fixed sentence of a preset; `''` and
      `'none'` fall into the default branch and give no sentence. */
  function TechStackPreference(stack: TechStack, vanillaStructure: VanillaStructure): (r: string)
    ensures r == "" <==> stack == NoStack || stack == NoneStack
  {
    match stack
    case React => PREFERENCE_REACT
    case Vue => PREFERENCE_VUE
    case Classic =>
      if vanillaStructure == Single then PREFERENCE_CLASSIC_SINGLE
      else if vanillaStructure == Separate then PREFERENCE_CLASSIC_SEPARATE
      else PREFERENCE_CLASSIC
    case MobileStack => PREFERENCE_MOBILE
    case _ => ""
  }

  /** The vanilla structure as far as the classic sentence can tell: anything
      but `'separate'` and `'single'` reads as the generic variant. */
  function StructureChoice(v: VanillaStructure): VanillaStructure {
    if v == Single || v == Separate then v else NoStructure
  }

  /** The sentence identifies the preset, and for `classic` also which of the
      three structure variants was chosen: no two choices share a sentence. */
  lemma {:induction false} TechStackPreferenceIdentifiesChoice(s1: TechStack, v1: VanillaStructure, s2: TechStack, v2: VanillaStructure)
    requires TechStackPreference(s1, v1) != ""
    requires TechStackPreference(s1, v1) == TechStackPreference(s2, v2)
    ensures s1 == s2
    ensures s1 == Classic ==> StructureChoice(v1) == StructureChoice(v2)
  {
    var n := |TechStackPreference(s1, v1)|;
    assert |PREFERENCE_REACT| == 131 && |PREFERENCE_VUE| == 132 && |PREFERENCE_CLASSIC_SINGLE| == 208;
    assert |PREFERENCE_CLASSIC_SEPARATE| == 197 && |PREFERENCE_CLASSIC| == 134 && |PREFERENCE_MOBILE| == 137;
    assert n == |TechStackPreference(s2, v2)|;
  }

  /** Each preset's sentence names its technology, and under `classic` the
      single-file mandate appears exactly for `'single'` and the split-files
      mandate exactly for `'separate'`; any other structure gets neither. */
  lemma TechStackPreferenceNamesChoice(stack: TechStack, vanillaStructure: VanillaStructure)
    ensures stack == React ==> Contains(TechStackPreference(stack, vanillaStructure), "React (with Vite)")
    ensures stack == Vue ==> Contains(TechStackPreference(stack, vanillaStructure), "Vue.js")
    ensures stack == MobileStack ==> Contains(TechStackPreference(stack, vanillaStructure), "React Native")
    ensures stack == Classic ==> Contains(TechStackPreference(stack, vanillaStructure), "vanilla JavaScript")
    ensures stack == Classic ==>
              (Contains(TechStackPreference(stack, vanillaStructure), "SINGLE index.html") <==> vanillaStructure == Single)
    ensures stack == Classic ==>
              (Contains(TechStackPreference(stack, vanillaStructure), "SEPARATE files") <==> vanillaStructure == Separate)
  {
    match stack
    case React => ModernSentencesNameFrameworks();
    case Vue => ModernSentencesNameFrameworks();
    case MobileStack => MobileSentenceNamesFramework();
    case Classic =>
      if vanillaStructure == Single {
        SingleSentenceMandatesOneFile();
      } else if vanillaStructure == Separate {
        SeparateSentenceMandatesSplitFiles();
      } else {
        GenericClassicSentenceMandatesNothing();
      }
    case _ =>
  }

  // ---------------------------------------------------------------------
  // Custom technology stack block
  // ---------------------------------------------------------------------

  const CUSTOM_STACK_HEADER: string := "The user has provided a custom technology stack preference:"

  /** The four custom values, in the order the record declares them. */
  function CustomValues(c: CustomTechStack): seq<string> {
    [c.frontend, c.backend, c.database, c.deployment]
  }

  /** The test of `buildPrompt` for a custom stack: at least one custom
      value is non-empty. */
  predicate HasCustomStack(c: CustomTechStack) {
    |NonEmpty(CustomValues(c))| > 0
  }

  /** A custom stack counts exactly when some field is non-empty, that is,
      when it is not the blank record. */
  lemma {:induction false} HasCustomStackIffNotBlank(c: CustomTechStack)
    ensures HasCustomStack(c) <==> c != EmptyCustomStack
  {
    var v := CustomValues(c);
    var r := NonEmpty(v);
    if c != EmptyCustomStack {
      var x := if c.frontend != "" then c.frontend else if c.backend != "" then c.backend
               else if c.database != "" then c.database else c.deployment;
      assert x in v && x != "";
      assert x in r;
    } else {
      NonEmptyNil(v);
    }
  }

  /** `stackDetails`: a `Label: value` line for each non-empty custom field,
      in the order of the record. */
  function StackDetailLines(c: CustomTechStack): seq<string> {
    NonEmpty([InputLine("Frontend: ", c.frontend), InputLine("Backend: ", c.backend),
              InputLine("Database: ", c.database), InputLine("Deployment: ", c.deployment)])
  }

  /** The custom-stack preference: a fixed header, then the detail lines
      joined by line feeds. */
  function CustomStackBlock(c: CustomTechStack): string {
    CUSTOM_STACK_HEADER + "\n" + Join(StackDetailLines(c), "\n")
  }

  /** A custom stack with some value set reads as the header followed by one
      `Label: value` line per non-empty field, in the order of the form's
      field list. */
  lemma {:induction false} CustomStackBlockIsHeaderAndLines(c: CustomTechStack)
    requires c != EmptyCustomStack
    ensures CustomStackBlock(c) + "\n"
            == CUSTOM_STACK_HEADER + "\n" + Lines(DetailLinesFor(c, CustomTechStackForm.StackFields))
  {
    var ds := [InputLine("Frontend: ", c.frontend), InputLine("Backend: ", c.backend),
               InputLine("Database: ", c.database), InputLine("Deployment: ", c.deployment)];
    var x := if c.frontend != "" then ds[0] else if c.backend != "" then ds[1]
             else if c.database != "" then ds[2] else ds[3];
    assert x in ds && x != "";
    assert x in StackDetailLines(c);
    JoinIsLines(StackDetailLines(c));
    StackDetailLinesFollowFields(c);
  }

  /** One `Label: value` line per non-empty field of `fs`, in the order of `fs`. */
  function DetailLinesFor(c: CustomTechStack, fs: seq<CustomTechStackForm.StackField>): (r: seq<string>)
    ensures forall x :: x in r ==> x != ""
  {
    if fs == [] then []
    else
      var f := fs[|fs| - 1];
      var v := CustomTechStackForm.FieldValue(c, f);
      DetailLinesFor(c, fs[..|fs| - 1]) + (if v == "" then [] else [CustomTechStackForm.FieldLabel(f) + ": " + v])
  }

  /** The line a single field contributes to the detail lines. */
  function DetailLine(c: CustomTechStack, f: CustomTechStackForm.StackField): seq<string> {
    var v := CustomTechStackForm.FieldValue(c, f);
    if v == "" then [] else [CustomTechStackForm.FieldLabel(f) + ": " + v]
  }

  lemma {:induction false} DetailLinesForPrefix(c: CustomTechStack, fs: seq<CustomTechStackForm.StackField>, k: nat)
    requires k < |fs|
    ensures DetailLinesFor(c, fs[..k + 1]) == DetailLinesFor(c, fs[..k]) + DetailLine(c, fs[k])
  {
    assert fs[..k + 1][..k] == fs[..k];
  }

  lemma {:induction false} NonEmptyAppendOne(fs: seq<string>, x: string)
    ensures NonEmpty(fs + [x]) == NonEmpty(fs) + (if x == "" then [] else [x])
  {
    assert (fs + [x])[..|fs|] == fs;
  }

  /** The filter on a list of four. */
  lemma {:induction false} NonEmptyFour(w: string, x: string, y: string, z: string)
    ensures NonEmpty([w, x, y, z]) == (if w == "" then [] else [w]) + (if x == "" then [] else [x])
                                      + (if y == "" then [] else [y]) + (if z == "" then [] else [z])
  {
    NonEmptyAppendOne([], w);
    NonEmptyAppendOne([w], x);
    NonEmptyAppendOne([w, x], y);
    NonEmptyAppendOne([w, x, y], z);
    assert [] + [w] == [w] && [w] + [x] == [w, x] && [w, x] + [y] == [w, x, y] && [w, x, y] + [z] == [w, x, y, z];
  }

  /** The detail lines of the form's four fields, one field at a time. */
  lemma {:induction false} DetailLinesForStackFields(c: CustomTechStack)
    ensures DetailLinesFor(c, CustomTechStackForm.StackFields)
            == DetailLine(c, CustomTechStackForm.FrontendField) + DetailLine(c, CustomTechStackForm.BackendField)
               + DetailLine(c, CustomTechStackForm.DatabaseField) + DetailLine(c, CustomTechStackForm.DeploymentField)
  {
    var fs := CustomTechStackForm.StackFields;
    assert fs[..0] == [] && fs[..4] == fs;
    DetailLinesForPrefix(c, fs, 0);
    DetailLinesForPrefix(c, fs, 1);
    DetailLinesForPrefix(c, fs, 2);
    DetailLinesForPrefix(c, fs, 3);
  }

  /** A hand-written detail line with the field's label is the line the
      field list gives for it. */
  lemma {:induction false} DetailLineByLabel(c: CustomTechStack, f: CustomTechStackForm.StackField, heading: string)
    requires heading == CustomTechStackForm.FieldLabel(f) + ": "
    ensures DetailLine(c, f) == (var x := InputLine(heading, CustomTechStackForm.FieldValue(c, f)); if x == "" then [] else [x])
  {
  }

  /** The detail lines are exactly one non-empty `Label: value` line per
      non-empty field, in the display order of the form's field list. */
  lemma {:induction false} StackDetailLinesFollowFields(c: CustomTechStack)
    ensures StackDetailLines(c) == DetailLinesFor(c, CustomTechStackForm.StackFields)
  {
    NonEmptyFour(InputLine("Frontend: ", c.frontend), InputLine("Backend: ", c.backend),
                 InputLine("Database: ", c.database), InputLine("Deployment: ", c.deployment));
    DetailLinesForStackFields(c);
    DetailLineByLabel(c, CustomTechStackForm.FrontendField, "Frontend: ");
    DetailLineByLabel(c, CustomTechStackForm.BackendField, "Backend: ");
    DetailLineByLabel(c, CustomTechStackForm.DatabaseField, "Database: ");
    DetailLineByLabel(c, CustomTechStackForm.DeploymentField, "Deployment: ");
  }

  /** `techStackPreference`: the custom block when any custom field is set,
      otherwise the preset sentence (none for `''` and `'none'`). */
  function TechPreference(stack: TechStack, custom: CustomTechStack, structure: VanillaStructure): (r: string)
    ensures HasCustomStack(custom) ==> r == CustomStackBlock(custom)
    ensures !HasCustomStack(custom) ==> r == TechStackPreference(stack, structure)
    ensures r == "" <==> !HasCustomStack(custom) && (stack == NoStack || stack == NoneStack)
  {
    if HasCustomStack(custom) then CustomStackBlock(custom)
    else if stack != NoStack then TechStackPreference(stack, structure)
    else ""
  }

  /** The technology preference of a form submission. */
  function TechPreferenceOf(d: PrdInput): string {
    TechPreference(d.techStack, d.customTechStack, d.vanillaStructure)
  }

  // ---------------------------------------------------------------------
  // The texts of the prompt template
  // ---------------------------------------------------------------------

  /** The words both role sentences begin with; the frontend sentence is
      written in two pieces only so that its first word after them is short. */
  const ROLE_OPENING: string := "Act as an expert Product Manager "
  const ROLE_ARCHITECT: string := ROLE_OPENING + "and Lead Software Architect."
  const ROLE_FRONTEND: string := ROLE_OPENING + "specializing in " + "Frontend Architecture and UI/UX Design."

  const OUTLINE_ITEM_MONETIZATION: string := "5. **Monetization Strategy** (UI Implications)"
  const OUTLINE_ITEM_SUCCESS_METRICS: string := "6. **Success Metrics** (UX KPIs)"

  /** The text between the role definition and the idea line. */
  const PROMPT_INTRO: string :=
    " Your task is to generate a comprehensive, \"Golden Source of Truth\" Product Requirements Document (PRD).\n"
    + "\n"
    + "**Target Audience for this Document:**\n"
    + "1.  **Human Developers:** Needs to be readable, professional, and clear.\n"
    + "2.  **AI Coding Assistants (LLMs):** The output must be structured, precise, and unambiguous so that it can be pasted into an AI IDE (like Cursor, Copilot, or Windsurf) to generate the actual codebase without further prompting.\n"
    + "\n"
    + "**User's Input:**\n"

  /** The frontend-only scope block. */
  const SCOPE_FRONTEND: string :=
    "\n"
    + "    **GENERATION SCOPE: FRONTEND PROTOTYPE (NO BACKEND)**\n"
    + "    The user has explicitly requested a **Frontend-only** specification.\n"
    + "    - **Focus:** UI Components, Client-side State Management, UX Flows, Mock Data, Routing, and Styling.\n"
    + "    - **Exclude:** Database Schemas, Server-side API logic, DevOps/Deployment (unless static hosting).\n"
    + "    - **Mocking:** Describe how to mock the backend data (e.g. using JSON files or simple fetch wrappers) to make the prototype functional.\n"
    + "    - **Tech Stack Note:** Ensure the Technology Preference is applied specifically to the Frontend Scope (ignore backend tech in the stack if irrelevant, or use it only for context).\n"
    + "    "

  /** The full-stack scope block. */
  const SCOPE_FULLSTACK: string :=
    "**GENERATION SCOPE: PRODUCTION READY FULL-STACK**\n"
    + "Include all backend, database, and devops requirements."

  /** The frontend section outline up to item 4. */
  const OUTLINE_FRONTEND_HEAD: string :=
    "\n"
    + "    **Structure Adaptation (FRONTEND MODE):**\n"
    + "    Instead of the Standard PRD structure, use this Frontend-Specific structure:\n"
    + "    1. **Product Overview**\n"
    + "    2. **Product Vision & UI/UX Goals**\n"
    + "    3. **Target Audience**\n"
    + "    4. **Key Features (Frontend Focus)**\n"
    + "    "

  /** The frontend section outline between the slots of items 5 and 6. */
  const OUTLINE_FRONTEND_MID: string :=
    "\n    "

  /** The frontend section outline from item 7 on. */
  const OUTLINE_FRONTEND_TAIL: string :=
    "\n"
    + "    7. **Tech Stack (Frontend Only)**\n"
    + "    8. **Frontend Architecture** (Folder Structure, Routing, State Management)\n"
    + "    9. **Component Hierarchy & Specifications** (Detailed breakdown of key components)\n"
    + "    10. **Data Layer & Mocking Strategy** (Interfaces, Mock Data shape)\n"
    + "    11. **UI Design System** (Colors, Typography, Responsiveness)\n"
    + "    12. **User Flows**\n"
    + "    13. **Future Backend Integration Notes**\n"
    + "    "

  /** The full-stack structure instruction. */
  const STRUCTURE_FULLSTACK: string :=
    "\n"
    + "      **Structure:** You MUST follow the exact section numbering, titles, and depth of the REFERENCE EXAMPLE below, but you must ADD specific sections for \"Monetization Strategy\" and \"Success Metrics\" if the user provided input for them.\n"
    + "      "

  /** The strict output rules. */
  const OUTPUT_RULES: string :=
    "\n"
    + "\n"
    + "**Strict Output Rules (CRITICAL):**\n"
    + "1.  **Raw Markdown Only:** Output *only* valid Markdown. Do NOT wrap the response in a code block (e.g., do NOT use ```markdown at the start).\n"
    + "2.  **No Conversational Filler:** Do NOT include \"Here is your PRD,\" \"I hope this helps,\" or any other conversational text. Start directly with the document title.\n"
    + "3.  **Precise Terminology:** Use standard technical naming conventions (camelCase for JSON, PascalCase for components, etc.) in the technical sections.\n"

  /** The heading that introduces the reference example. */
  const REFERENCE_HEADER: string :=
    "\n\n**REFERENCE EXAMPLE (GOLD STANDARD):**\n"

  /** The horizontal rules that fence the reference example, each with the
      line feed that separates it from the example. */
  const FENCE_OPEN: string := "---\n"
  const FENCE_CLOSE: string := "\n---"

  /** The closing instruction after the reference example. */
  const CLOSING: string :=
    "\n"
    + "\n"
    + "**Generate the PRD for the User's Input following the Reference Example structure (unless overridden by Scope instructions above). If Monetization or Success Metrics are provided in the input, create dedicated sections for them.**"

  /** The reference example document, embedded verbatim. */
  const PRD_EXAMPLE: string :=
    "\n"
    + "# Product Requirements Document: YBT AI Image Generator\n"
    + "\n"
    + "## 1. Product Overview\n"
    + "- **Product Name:** YBT AI Image Generator\n"
    + "- **Type:** SaaS Web Application\n"
    + "- **Platform:** Web (Responsive), Mobile Web\n"
    + "- **Tech Stack:** Next.js 14 (App Router), Tailwind CSS, Python (FastAPI) for AI orchestration, PostgreSQL (Supabase).\n"
    + "\n"
    + "## 2. Product Vision\n"
    + "- **Goal:** Empower digital marketers to create brand-consistent visual assets in seconds without complex prompting.\n"
    + "- **Tagline:** \"Enterprise-grade visuals, zero learning curve.\"\n"
    + "\n"
    + "## 3. Target Audience\n"
    + "- **Primary:** Social Media Managers and Digital Marketers.\n"
    + "- **Secondary:** Small Business Owners and Content Creators.\n"
    + "\n"
    + "## 4. Key Features\n"
    + "- **Smart Prompting:** AI assists in refining simple keywords into complex image generation prompts.\n"
    + "- **Style Presets:** One-click application of artistic styles (e.g., \"Cinematic,\" \"Isometric,\" \"Watercolor\").\n"
    + "- **Workspace Management:** Organize generations into project folders with team access controls.\n"
    + "\n"
    + "## 5. UI/UX Design Guidelines\n"
    + "- **Theme:** Dark mode default ('Midnight Blue' palette). Clean, distraction-free canvas.\n"
    + "- **Navigation:** Collapsible sidebar (left) for tools; Property inspector (right) for fine-tuning.\n"
    + "- **Key Components:**\n"
    + "  - `CanvasArea`: The central interactive zone for image generation.\n"
    + "  - `PromptBar`: Floating input component with auto-complete suggestions.\n"
    + "\n"
    + "## 6. System Architecture\n"
    + "- **Frontend:** React-based SPA handling state via Zustand. Optimistic UI updates for generation status.\n"
    + "- **Backend:**\n"
    + "  - **API Layer:** FastAPI service handling request validation and rate limiting.\n"
    + "  - **Worker Layer:** Celery workers processing generation jobs asynchronously.\n"
    + "- **Infrastructure:** Vercel (Frontend), AWS ECS (Backend Containers), S3 (Asset Storage).\n"
    + "\n"
    + "## 7. Database Schema\n"
    + "```prisma\n"
    + "model User {\n"
    + "  id        String   @id @default(uuid())\n"
    + "  email     String   @unique\n"
    + "  tier      Tier     @default(FREE)\n"
    + "  projects  Project[]\n"
    + "}\n"
    + "\n"
    + "model Project {\n"
    + "  id        String   @id @default(uuid())\n"
    + "  name      String\n"
    + "  userId    String\n"
    + "  user      User     @relation(fields: [userId], references: [id])\n"
    + "  images    Image[]\n"
    + "}\n"
    + "\n"
    + "model Image {\n"
    + "  id          String   @id @default(uuid())\n"
    + "  url         String\n"
    + "  promptUsed  String\n"
    + "  createdAt   DateTime @default(now())\n"
    + "  projectId   String\n"
    + "  project     Project  @relation(fields: [projectId], references: [id])\n"
    + "}\n"
    + "```\n"
    + "\n"
    + "## 8. API Endpoints\n"
    + "| Method | Endpoint | Description |\n"
    + "| :--- | :--- | :--- |\n"
    + "| POST | `/api/v1/generate` | Enqueues a generation job. Returns `jobId`. |\n"
    + "| GET | `/api/v1/jobs/{jobId}` | Polls status of generation (PENDING, PROCESSING, COMPLETED). |\n"
    + "| GET | `/api/v1/projects` | Lists all user projects. |\n"
    + "\n"
    + "## 9. Security Considerations\n"
    + "- **Authentication:** OAuth 2.0 via Google/GitHub.\n"
    + "- **Input Validation:** All prompts checked against a banned word list to prevent TOS violations.\n"
    + "- **Storage:** Signed URLs for S3 access to prevent public scraping of user assets.\n"
    + "\n"
    + "## 10. Core Logic Example (Job Polling)\n"
    + "1. Client sends POST to `/generate`. Receives `jobId`.\n"
    + "2. Client initiates `setInterval` polling `/jobs/{jobId}` every 2s.\n"
    + "3. If status is `COMPLETED`, client renders image from returned URL.\n"
    + "4. If status is `FAILED`, client displays error toast.\n"
    + "\n"
    + "## 11. Future Enhancements (Phase 2)\n"
    + "- **In-painting:** Allow users to redraw specific regions.\n"
    + "- **API Access:** Public API for 3rd party integrations.\n"
    + "\n"
    + "## 12. Privacy Policy (Summary)\n"
    + "- User generated content is private by default.\n"
    + "- No data training on user images without explicit opt-in.\n"
    + "\n"
    + "## 13. Example User Flow\n"
    + "1. User logs in -> Dashboard.\n"
    + "2. Clicks \"New Project\" -> Enters \"Summer Campaign\".\n"
    + "3. Types \"Beach sunset with product\" -> Selects \"Photorealistic\" style.\n"
    + "4. Clicks Generate -> Waits 5s -> Views result -> Downloads.\n"
    + "\n"
    + "## 14. Deliverables\n"
    + "- Fully functional Next.js application.\n"
    + "- Dockerized backend service.\n"
    + "- CI/CD pipeline config (GitHub Actions).\n"


  // ---------------------------------------------------------------------
  // The template texts
  // ---------------------------------------------------------------------

  /** The fixed texts of the prompt template. The prompt is defined for any
      texts; `PROMPT_TEXTS` holds the ones `buildPrompt` writes out. */
  datatype PromptTexts = PromptTexts(
    roleFrontend: string, roleArchitect: string, intro: string,
    scopeFrontend: string, scopeFullstack: string,
    outlineHead: string, monetizationItem: string, outlineMid: string,
    successMetricsItem: string, outlineTail: string,
    structureFullstack: string, outputRules: string,
    referenceHeader: string, example: string, closing: string)

  const PROMPT_TEXTS: PromptTexts :=
    PromptTexts(ROLE_FRONTEND, ROLE_ARCHITECT, PROMPT_INTRO,
                SCOPE_FRONTEND, SCOPE_FULLSTACK,
                OUTLINE_FRONTEND_HEAD, OUTLINE_ITEM_MONETIZATION, OUTLINE_FRONTEND_MID,
                OUTLINE_ITEM_SUCCESS_METRICS, OUTLINE_FRONTEND_TAIL,
                STRUCTURE_FULLSTACK, OUTPUT_RULES,
                REFERENCE_HEADER, PRD_EXAMPLE, CLOSING)

  /** What the prompt lemmas need of the texts: both roles begin, and the
      closing ends, with a visible character, and neither role sentence is a
      prefix of the other. */
  predicate WellShaped(t: PromptTexts) {
    t.roleFrontend != "" && !IsWhitespace(t.roleFrontend[0])
    && t.roleArchitect != "" && !IsWhitespace(t.roleArchitect[0])
    && t.closing != "" && !IsWhitespace(t.closing[|t.closing| - 1])
    && !(t.roleFrontend <= t.roleArchitect) && !(t.roleArchitect <= t.roleFrontend)
  }

  /** The texts of `buildPrompt` have that shape: both roles start with `A`
      and part at index 33, and the closing ends with `*`. */
  lemma {:induction false} PromptTextsWellShaped()
    ensures WellShaped(PROMPT_TEXTS)
  {
    assert |ROLE_OPENING| == 33 && ROLE_OPENING[0] == 'A';
    assert ROLE_FRONTEND[0] == 'A' && ROLE_ARCHITECT[0] == 'A';
    assert ROLE_FRONTEND[33] == 's' && ROLE_ARCHITECT[33] == 'a';
    PrefixesPart(ROLE_FRONTEND, ROLE_FRONTEND, ROLE_ARCHITECT, 33);
    PrefixesPart(ROLE_ARCHITECT, ROLE_ARCHITECT, ROLE_FRONTEND, 33);
    assert CLOSING[|CLOSING| - 1] == '*';
  }

  // ---------------------------------------------------------------------
  // Scope blocks
  // ---------------------------------------------------------------------

  function RoleDefinition(t: PromptTexts, scope: PrdScope): string {
    if scope == Frontend then t.roleFrontend else t.roleArchitect
  }

  function ScopeInstructions(t: PromptTexts, scope: PrdScope): string {
    if scope == Frontend then t.scopeFrontend else t.scopeFullstack
  }

  /** An outline item: the fixed text when the input it depends on is set,
      nothing otherwise. Unlike an input line, the text does not contain the
      input's value. */
  function IfPresent(cond: string, text: string): string {
    if cond == "" then "" else text
  }

  /** The frontend outline; items 5 and 6 appear only when the monetization
      and success-metrics inputs are set. */
  function FrontendOutline(t: PromptTexts, monetization: string, successMetrics: string): string {
    t.outlineHead + IfPresent(monetization, t.monetizationItem)
    + t.outlineMid + IfPresent(successMetrics, t.successMetricsItem)
    + t.outlineTail
  }

  function StructureInstructions(t: PromptTexts, scope: PrdScope, monetization: string, successMetrics: string): string {
    if scope == Frontend then FrontendOutline(t, monetization, successMetrics) else t.structureFullstack
  }

  // ---------------------------------------------------------------------
  // The prompt
  // ---------------------------------------------------------------------

  const IDEA_LABEL: string := "- **Core App Idea:** "
  const PLATFORM_LABEL: string := "- **Target Platform:** "
  const FEATURES_LABEL: string := "- **Key Features Requested:** "
  const AUDIENCE_LABEL: string := "- **Target Audience:** "
  const MONETIZATION_LABEL: string := "- **Monetization Strategy:** "
  const SUCCESS_METRICS_LABEL: string := "- **Success Metrics / KPIs:** "
  const TECH_LABEL: string := "- **Technology Preference:** "

  /** A labelled line of the prompt or of the custom-stack details: the
      label followed by the value when the value is set, nothing otherwise. */
  function InputLine(prefix: string, value: string): string {
    if value == "" then "" else prefix + value
  }

  /** The role, the introduction and the idea line, which are always present. */
  function PromptHead(t: PromptTexts, scope: PrdScope, idea: string): string {
    RoleDefinition(t, scope) + t.intro + IdeaLine(idea)
  }

  /** The idea line: its label, the idea as typed, and a line feed. */
  function IdeaLine(idea: string): string {
    IDEA_LABEL + idea + "\n"
  }

  /** The six optional input lines, each empty when its input is unset. */
  function InputLines(d: PrdInput): seq<string> {
    [InputLine(PLATFORM_LABEL, PlatformText(d.platform)), InputLine(FEATURES_LABEL, d.features),
     InputLine(AUDIENCE_LABEL, d.audience), InputLine(MONETIZATION_LABEL, d.monetization),
     InputLine(SUCCESS_METRICS_LABEL, d.successMetrics), InputLine(TECH_LABEL, TechPreferenceOf(d))]
  }

  /** The scope block, the output rules and the structure block. */
  function PromptInstructions(t: PromptTexts, scope: PrdScope, monetization: string, successMetrics: string): string {
    ScopeInstructions(t, scope) + t.outputRules + StructureInstructions(t, scope, monetization, successMetrics)
  }

  /** The reference example between two horizontal rules. */
  function ReferenceBlock(t: PromptTexts): string {
    FENCE_OPEN + t.example + FENCE_CLOSE
  }

  /** Everything after the instructions, which no input changes. */
  function PromptTail(t: PromptTexts): string {
    t.referenceHeader + ReferenceBlock(t) + t.closing
  }

  /** The template literal without the line feed that opens it and the line
      feed and indentation that close it. */
  function PromptBody(t: PromptTexts, d: PrdInput): string {
    PromptHead(t, d.scope, d.idea) + PromptMiddle(t, d) + PromptTail(t)
  }

  /** The input lines, the empty line after them and the instructions. */
  function PromptMiddle(t: PromptTexts, d: PrdInput): string {
    Lines(InputLines(d)) + "\n" + PromptInstructions(t, d.scope, d.monetization, d.successMetrics)
  }

  /** The trimmed template literal over the texts `t`. */
  function PromptOf(t: PromptTexts, d: PrdInput): string {
    Trim("\n" + PromptBody(t, d) + "\n  ")
  }

  /** `buildPrompt`: the template over the texts the application ships. */
  function BuildPrompt(d: PrdInput): string {
    PromptOf(PROMPT_TEXTS, d)
  }

  /** Trimming removes exactly the line feed that opens the template literal
      and the line feed and indentation that close it. */
  lemma {:induction false} PromptIsBody(t: PromptTexts, d: PrdInput)
    requires WellShaped(t)
    ensures PromptOf(t, d) == PromptBody(t, d)
  {
    var head, tail := PromptHead(t, d.scope, d.idea), PromptTail(t);
    assert head[0] == RoleDefinition(t, d.scope)[0];
    assert tail[|tail| - 1] == t.closing[|t.closing| - 1];
    TrimPaddedThree("\n", head, PromptMiddle(t, d), tail, "\n  ");
  }

  /** The prompt opens with the role of the chosen scope. */
  lemma {:induction false} PromptStartsWithRole(t: PromptTexts, d: PrdInput)
    requires WellShaped(t)
    ensures RoleDefinition(t, d.scope) <= PromptOf(t, d)
  {
    PromptIsBody(t, d);
    StartsWithFirst(RoleDefinition(t, d.scope), t.intro, IdeaLine(d.idea), PromptMiddle(t, d), PromptTail(t));
  }

  /** The prompt opens with the frontend role exactly in frontend scope, so
      the two scopes give prompts that differ from the first sentence on. */
  lemma {:induction false} PromptRoleShowsScope(t: PromptTexts, d: PrdInput)
    requires WellShaped(t)
    ensures t.roleFrontend <= PromptOf(t, d) <==> d.scope == Frontend
  {
    PromptStartsWithRole(t, d);
    if d.scope == Fullstack && t.roleFrontend <= PromptOf(t, d) {
      PrefixesCompare(PromptOf(t, d), t.roleFrontend, t.roleArchitect);
    }
  }

  /** The reference example appears verbatim, between two horizontal rules. */
  lemma {:induction false} PromptEmbedsExample(t: PromptTexts, d: PrdInput)
    requires WellShaped(t)
    ensures Contains(PromptOf(t, d), FENCE_OPEN + t.example + FENCE_CLOSE)
  {
    PromptIsBody(t, d);
    InfixContainedRight(PromptHead(t, d.scope, d.idea) + PromptMiddle(t, d), t.referenceHeader, ReferenceBlock(t), t.closing);
  }

  /** `buildPrompt` embeds the example document between two rules. */
  lemma {:induction false} BuildPromptEmbedsExample(d: PrdInput)
    ensures Contains(BuildPrompt(d), FENCE_OPEN + PRD_EXAMPLE + FENCE_CLOSE)
  {
    PromptTextsWellShaped();
    PromptEmbedsExample(PROMPT_TEXTS, d);
  }

  /** The idea is always given, on a line of its own after its label, even
      when it is empty. */
  lemma {:induction false} PromptStatesIdea(t: PromptTexts, d: PrdInput)
    requires WellShaped(t)
    ensures Contains(PromptOf(t, d), IDEA_LABEL + d.idea + "\n")
  {
    PromptIsBody(t, d);
    ContainsThird(RoleDefinition(t, d.scope), t.intro, IdeaLine(d.idea), PromptMiddle(t, d), PromptTail(t));
  }

  /** The prompt carries, in one piece, the scope block, the output rules and
      the structure block of the chosen scope. */
  lemma {:induction false} PromptStatesScope(t: PromptTexts, d: PrdInput)
    requires WellShaped(t)
    ensures Contains(PromptOf(t, d), PromptInstructions(t, d.scope, d.monetization, d.successMetrics))
  {
    PromptIsBody(t, d);
    ContainsInMiddle(PromptHead(t, d.scope, d.idea), Lines(InputLines(d)) + "\n",
                     PromptInstructions(t, d.scope, d.monetization, d.successMetrics), PromptTail(t));
  }

  // The shapes of text the prompt lemmas rely on, stated for any strings.

  lemma {:induction false} StartsWithFirst(a: string, b: string, c: string, m: string, t: string)
    ensures a <= a + b + c + m + t
  {
    assert a + b + c + m + t == a + (b + c + m + t);
  }

  lemma {:induction false} PrefixesPart(s: string, p: string, q: string, k: nat)
    requires p <= s && k < |p| && k < |q| && p[k] != q[k]
    ensures !(q <= s)
  {
    assert s[k] == p[k];
  }

  /** Two prefixes of one text: the shorter is a prefix of the longer. */
  lemma {:induction false} PrefixesCompare(s: string, p: string, q: string)
    requires p <= s && q <= s
    ensures p <= q || q <= p
  {
    if |p| <= |q| {
      assert p == q[..|p|];
    } else {
      assert q == p[..|q|];
    }
  }

  lemma {:induction false} ContainsThird(a: string, b: string, c: string, m: string, t: string)
    ensures Contains(a + b + c + m + t, c)
  {
    InfixContained(a + b, c, m + t);
    assert a + b + c + m + t == a + b + c + (m + t);
  }

  lemma {:induction false} ContainsInMiddle(h: string, l: string, i: string, t: string)
    ensures Contains(h + (l + i) + t, i)
  {
    InfixContained(h + l, i, t);
    assert h + (l + i) + t == h + l + i + t;
  }

  // ---------------------------------------------------------------------
  // The optional input lines
  // ---------------------------------------------------------------------

  /** The inputs that the prompt mentions only when they are set. */
  datatype OptionalInput = PlatformInput | FeaturesInput | AudienceInput | MonetizationInput | SuccessMetricsInput | TechInput

  function InputLabel(f: OptionalInput): string {
    match f
    case PlatformInput => PLATFORM_LABEL
    case FeaturesInput => FEATURES_LABEL
    case AudienceInput => AUDIENCE_LABEL
    case MonetizationInput => MONETIZATION_LABEL
    case SuccessMetricsInput => SUCCESS_METRICS_LABEL
    case TechInput => TECH_LABEL
  }

  /** The text the prompt interpolates for an input. */
  function InputText(d: PrdInput, f: OptionalInput): string {
    match f
    case PlatformInput => PlatformText(d.platform)
    case FeaturesInput => d.features
    case AudienceInput => d.audience
    case MonetizationInput => d.monetization
    case SuccessMetricsInput => d.successMetrics
    case TechInput => TechPreferenceOf(d)
  }

  /** The position of the input's line among the optional lines. */
  function InputIndex(f: OptionalInput): nat {
    match f
    case PlatformInput => 0
    case FeaturesInput => 1
    case AudienceInput => 2
    case MonetizationInput => 3
    case SuccessMetricsInput => 4
    case TechInput => 5
  }

  /** The same form data with the input left at its initial, empty value. */
  function Without(d: PrdInput, f: OptionalInput): PrdInput {
    match f
    case PlatformInput => d.(platform := NoPlatform)
    case FeaturesInput => d.(features := "")
    case AudienceInput => d.(audience := "")
    case MonetizationInput => d.(monetization := "")
    case SuccessMetricsInput => d.(successMetrics := "")
    case TechInput => d.(techStack := NoStack, customTechStack := EmptyCustomStack)
  }

  /** In frontend scope, monetization and success metrics also switch on an
      item of the outline. */
  predicate InOutline(d: PrdInput, f: OptionalInput) {
    d.scope == Frontend && (f == MonetizationInput || f == SuccessMetricsInput)
  }

  /** The outline item that an input switches on. */
  function OutlineItem(t: PromptTexts, f: OptionalInput): string {
    if f == MonetizationInput then t.monetizationItem else t.successMetricsItem
  }

  /** Emptying an input empties its line, and a set input's line is its label
      followed by its text; nothing else among the lines changes, and the head
      and, outside the outline case, the instructions stay as they were. */
  lemma {:induction false} InputLinesWithout(t: PromptTexts, d: PrdInput, f: OptionalInput)
    ensures InputLines(Without(d, f))[InputIndex(f)] == ""
    ensures InputText(d, f) == "" ==> InputLines(Without(d, f)) == InputLines(d)
    ensures InputText(d, f) != "" ==>
              InputLines(d) == InputLines(Without(d, f))[InputIndex(f) := InputLabel(f) + InputText(d, f)]
    ensures Without(d, f).scope == d.scope && Without(d, f).idea == d.idea
    ensures !InOutline(d, f) ==>
              PromptInstructions(t, Without(d, f).scope, Without(d, f).monetization, Without(d, f).successMetrics)
              == PromptInstructions(t, d.scope, d.monetization, d.successMetrics)
  {
    match f
    case PlatformInput =>
    case FeaturesInput =>
    case AudienceInput =>
    case MonetizationInput =>
    case SuccessMetricsInput =>
    case TechInput =>
      HasCustomStackIffNotBlank(EmptyCustomStack);
      assert TechPreferenceOf(Without(d, f)) == "";
  }

  /** A set input adds exactly its labelled line to the prompt, on a line of
      its own; outside the outline case nothing else changes. */
  lemma {:induction false} SetInputAddsLine(t: PromptTexts, d: PrdInput, f: OptionalInput)
    requires WellShaped(t) && InputText(d, f) != "" && !InOutline(d, f)
    ensures exists pre, post ::
              PromptOf(t, Without(d, f)) == pre + post
              && PromptOf(t, d) == pre + (InputLabel(f) + InputText(d, f)) + post
              && EndsWith(pre, "\n") && "\n" <= post
  {
    PromptIsBody(t, d);
    PromptIsBody(t, Without(d, f));
    BodyWithLine(t, d, f);
  }

  lemma {:induction false} BodyWithLine(t: PromptTexts, d: PrdInput, f: OptionalInput)
    requires InputText(d, f) != "" && !InOutline(d, f)
    ensures exists pre, post ::
              PromptBody(t, Without(d, f)) == pre + post
              && PromptBody(t, d) == pre + (InputLabel(f) + InputText(d, f)) + post
              && EndsWith(pre, "\n") && "\n" <= post
  {
    InputLinesWithout(t, d, f);
    PromptHeadEndsWithLineFeed(t, d.scope, d.idea);
    LineInserted(PromptHead(t, d.scope, d.idea), InputLines(Without(d, f)), InputIndex(f), InputLabel(f) + InputText(d, f),
                 PromptInstructions(t, d.scope, d.monetization, d.successMetrics), PromptTail(t));
  }

  /** In frontend scope a set monetization or success-metrics input adds its
      labelled line and its outline item, and changes nothing else. */
  lemma {:induction false} SetOutlineInputAddsLineAndItem(t: PromptTexts, d: PrdInput, f: OptionalInput)
    requires WellShaped(t) && InputText(d, f) != "" && InOutline(d, f)
    ensures exists p1, p2, p3 ::
              PromptOf(t, Without(d, f)) == p1 + p2 + p3
              && PromptOf(t, d) == p1 + (InputLabel(f) + InputText(d, f)) + p2 + OutlineItem(t, f) + p3
  {
    PromptIsBody(t, d);
    PromptIsBody(t, Without(d, f));
    BodyWithLineAndItem(t, d, f);
  }

  lemma {:induction false} BodyWithLineAndItem(t: PromptTexts, d: PrdInput, f: OptionalInput)
    requires InputText(d, f) != "" && InOutline(d, f)
    ensures exists p1, p2, p3 ::
              PromptBody(t, Without(d, f)) == p1 + p2 + p3
              && PromptBody(t, d) == p1 + (InputLabel(f) + InputText(d, f)) + p2 + OutlineItem(t, f) + p3
  {
    InputLinesWithout(t, d, f);
    OutlineAround(t, f, d.monetization, d.successMetrics);
    LineAndTextInserted(PromptHead(t, d.scope, d.idea), InputLines(Without(d, f)), InputIndex(f),
                        InputLabel(f) + InputText(d, f), OutlineBefore(t, f, d.monetization), OutlineItem(t, f),
                        OutlineAfter(t, f, d.successMetrics), PromptTail(t));
  }

  /** The frontend instructions before the outline item an input switches on. */
  function OutlineBefore(t: PromptTexts, f: OptionalInput, monetization: string): string {
    if f == MonetizationInput then t.scopeFrontend + t.outputRules + t.outlineHead
    else t.scopeFrontend + t.outputRules + t.outlineHead + IfPresent(monetization, t.monetizationItem) + t.outlineMid
  }

  /** The frontend instructions after the outline item an input switches on. */
  function OutlineAfter(t: PromptTexts, f: OptionalInput, successMetrics: string): string {
    if f == MonetizationInput then t.outlineMid + IfPresent(successMetrics, t.successMetricsItem) + t.outlineTail
    else t.outlineTail
  }

  /** The frontend instructions with the input's outline item off and on. */
  lemma {:induction false} OutlineAround(t: PromptTexts, f: OptionalInput, monetization: string, successMetrics: string)
    requires f == MonetizationInput || f == SuccessMetricsInput
    ensures f == MonetizationInput ==>
              PromptInstructions(t, Frontend, "", successMetrics)
              == OutlineBefore(t, f, monetization) + OutlineAfter(t, f, successMetrics)
    ensures f == SuccessMetricsInput ==>
              PromptInstructions(t, Frontend, monetization, "")
              == OutlineBefore(t, f, monetization) + OutlineAfter(t, f, successMetrics)
    ensures monetization != "" && f == MonetizationInput ==>
              PromptInstructions(t, Frontend, monetization, successMetrics)
              == OutlineBefore(t, f, monetization) + OutlineItem(t, f) + OutlineAfter(t, f, successMetrics)
    ensures successMetrics != "" && f == SuccessMetricsInput ==>
              PromptInstructions(t, Frontend, monetization, successMetrics)
              == OutlineBefore(t, f, monetization) + OutlineItem(t, f) + OutlineAfter(t, f, successMetrics)
  {
    var mi, si := IfPresent(monetization, t.monetizationItem), IfPresent(successMetrics, t.successMetricsItem);
    if f == MonetizationInput {
      RegroupOutline(t.scopeFrontend, t.outputRules, t.outlineHead, "", t.outlineMid, si, t.outlineTail);
      RegroupOutline(t.scopeFrontend, t.outputRules, t.outlineHead, mi, t.outlineMid, si, t.outlineTail);
    } else {
      RegroupOutline(t.scopeFrontend, t.outputRules, t.outlineHead, mi, t.outlineMid, "", t.outlineTail);
      RegroupOutline(t.scopeFrontend, t.outputRules, t.outlineHead, mi, t.outlineMid, si, t.outlineTail);
    }
  }

  /** The frontend instructions regrouped around either outline slot. */
  lemma {:induction false} RegroupOutline(a: string, b: string, c: string, x: string, d: string, y: string, e: string)
    ensures a + b + (c + x + d + y + e) == (a + b + c) + x + (d + y + e)
    ensures a + b + (c + x + d + y + e) == (a + b + c + x + d) + y + e
    ensures x == "" ==> a + b + (c + x + d + y + e) == (a + b + c) + (d + y + e)
    ensures y == "" ==> a + b + (c + x + d + y + e) == (a + b + c + x + d) + e
  {
    if x == "" {
      assert c + x == c;
    }
    if y == "" {
      assert c + x + d + y == c + x + d;
    }
  }

  lemma {:induction false} PromptHeadEndsWithLineFeed(t: PromptTexts, scope: PrdScope, idea: string)
    ensures EndsWith(PromptHead(t, scope, idea), "\n")
  {
    var h := PromptHead(t, scope, idea);
    assert h[|h| - 1] == '\n';
    assert h[|h| - 1..] == "\n";
  }

  /** With a custom stack present, the preset and its structure do not
      matter: changing them leaves the prompt as it was. */
  lemma {:induction false} CustomStackOverridesPreset(t: PromptTexts, d: PrdInput, stack: TechStack, structure: VanillaStructure)
    requires HasCustomStack(d.customTechStack)
    ensures PromptOf(t, d.(techStack := stack, vanillaStructure := structure)) == PromptOf(t, d)
  {
    var e := d.(techStack := stack, vanillaStructure := structure);
    assert TechPreferenceOf(e) == TechPreferenceOf(d);
    assert InputLines(e) == InputLines(d);
  }

  /** `'none'` takes the default branch of the preset sentence, so it gives
      the same prompt as no preset at all. */
  lemma {:induction false} NoSentencePresetIsNoPreset(t: PromptTexts, d: PrdInput)
    requires d.techStack == NoneStack
    ensures PromptOf(t, d) == PromptOf(t, d.(techStack := NoStack))
  {
    var e := d.(techStack := NoStack);
    assert TechPreferenceOf(e) == TechPreferenceOf(d);
    assert InputLines(e) == InputLines(d);
  }

  /** Only the classic sentence reads the vanilla structure: under any other
      preset, or none, the structure does not change the prompt. */
  lemma {:induction false} StructureMattersOnlyForClassic(t: PromptTexts, d: PrdInput, v: VanillaStructure)
    requires d.techStack != Classic
    ensures PromptOf(t, d.(vanillaStructure := v)) == PromptOf(t, d)
  {
    var e := d.(vanillaStructure := v);
    assert TechPreferenceOf(e) == TechPreferenceOf(d);
    assert InputLines(e) == InputLines(d);
  }

  /** The optional inputs that hold a typed text. */
  predicate IsTextInput(f: OptionalInput) {
    f == FeaturesInput || f == AudienceInput || f == MonetizationInput || f == SuccessMetricsInput
  }

  /** The form data with the text input `f` holding `v`. */
  function WithText(d: PrdInput, f: OptionalInput, v: string): (e: PrdInput)
    requires IsTextInput(f)
    ensures InputText(e, f) == v && e.scope == d.scope
  {
    if f == FeaturesInput then d.(features := v)
    else if f == AudienceInput then d.(audience := v)
    else if f == MonetizationInput then d.(monetization := v)
    else d.(successMetrics := v)
  }

  /** Typing a text into an empty input inserts exactly its labelled line into
      the prompt, on a line of its own; outside the outline case nothing else
      changes. */
  lemma {:induction false} FillingInputAddsLine(t: PromptTexts, d: PrdInput, f: OptionalInput, v: string)
    requires WellShaped(t) && IsTextInput(f) && InputText(d, f) == "" && v != "" && !InOutline(d, f)
    ensures exists pre, post ::
              PromptOf(t, d) == pre + post
              && PromptOf(t, WithText(d, f, v)) == pre + (InputLabel(f) + v) + post
              && EndsWith(pre, "\n") && "\n" <= post
  {
    var e := WithText(d, f, v);
    assert Without(e, f) == d;
    SetInputAddsLine(t, e, f);
  }

  /** In frontend scope, typing a monetization or success-metrics text into
      the empty input inserts its labelled line and its outline item, and
      nothing else. */
  lemma {:induction false} FillingOutlineInputAddsLineAndItem(t: PromptTexts, d: PrdInput, f: OptionalInput, v: string)
    requires WellShaped(t) && IsTextInput(f) && InputText(d, f) == "" && v != "" && InOutline(d, f)
    ensures exists p1, p2, p3 ::
              PromptOf(t, d) == p1 + p2 + p3
              && PromptOf(t, WithText(d, f, v)) == p1 + (InputLabel(f) + v) + p2 + OutlineItem(t, f) + p3
  {
    var e := WithText(d, f, v);
    assert Without(e, f) == d;
    SetOutlineInputAddsLineAndItem(t, e, f);
  }

  // ---------------------------------------------------------------------
  // The streaming client (`generatePrdStream`)
  // ---------------------------------------------------------------------

  const MODEL: string := "gemini-2.5-pro"
  const MISSING_KEY_MESSAGE: string := "API_KEY environment variable is not set."

  /** What the stream ends with: the missing-key error without a key, else
      the upstream error, if any. */
  function StreamFailure(apiKey: string, failure: Option<Thrown>): Option<Thrown> {
    if apiKey == "" then Some(ErrorValue(MISSING_KEY_MESSAGE)) else failure
  }

  /** The one request the client sends: the model and the prompt. */
  datatype Request = Request(model: string, contents: string)

  /** `generatePrdStream`. The environment's key (`""` when unset), the chunk
      texts the upstream stream delivers (an absent text as `""`) and the
      error it ends with, if any, are parameters. Without a key nothing is
      sent and the fixed error is thrown; otherwise the prompt is sent, every
      non-empty chunk is passed on in order, and the upstream error, if any,
      is thrown again. The template texts are a parameter too: the session
      passes `PROMPT_TEXTS`, so the prompt sent is `BuildPrompt(data)`. */
  method GeneratePrdStream(t: PromptTexts, data: PrdInput, apiKey: string, chunks: seq<string>, failure: Option<Thrown>)
    returns (request: Option<Request>, fragments: seq<string>, thrown: Option<Thrown>)
    ensures apiKey == "" ==> request == None && fragments == []
    ensures thrown == StreamFailure(apiKey, failure)
    ensures apiKey != "" ==> request == Some(Request(MODEL, PromptOf(t, data)))
    ensures apiKey != "" ==> fragments == NonEmpty(chunks) && thrown == failure
  {
    if apiKey == "" {
      return None, [], Some(ErrorValue(MISSING_KEY_MESSAGE));
    }
    request := Some(Request(MODEL, PromptOf(t, data)));
    fragments := PassOnChunks(chunks);
    thrown := failure;
  }

  /** The `for await` loop: every chunk with a non-empty text, in order. */
  method PassOnChunks(chunks: seq<string>) returns (fragments: seq<string>)
    ensures fragments == NonEmpty(chunks)
  {
    fragments := [];
    var i := 0;
    while i < |chunks|
      invariant i <= |chunks|
      invariant fragments == NonEmpty(chunks[..i])
    {
      assert chunks[..i + 1][..i] == chunks[..i];
      if chunks[i] != "" {
        fragments := fragments + [chunks[i]];
      }
      i := i + 1;
    }
    assert chunks[..i] == chunks;
  }
}
