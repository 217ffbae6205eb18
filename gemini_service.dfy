/** The prompt composer and the generation client around the model call:
    the instruction fragments per framework, pillar and language, the
    system instruction, the brand context, the audience fallback chain, the
    user prompt, and the fallback for an empty answer. The model service is
    an oracle passed in as a function. */
module GeminiService {
  import opened Types
  import opened Text

  // The instruction texts, each split around the words other lemmas point at.
  const AidaInstruction :=
    "Apply the AIDA framework:\n1. " + "Attention" + ": Grab attention with a hook.\n2. "
    + "Interest" + ": Build interest with facts/details.\n3. "
    + "Desire" + ": Create desire by showing benefits.\n4. "
    + "Action" + ": Clear Call to Action (CTA)."
  const PasInstruction :=
    "Apply the PAS framework:\n1. " + "Problem" + ": Identify a pain point.\n2. "
    + "Agitation" + ": Agitate the pain, make it visceral.\n3. "
    + "Solution" + ": Present the product/service as the ultimate solution."
  const BabInstruction :=
    "Apply the BAB framework:\n1. Before: Describe the current negative situation.\n2. After: Describe the ideal future situation.\n3. Bridge: Show how the product gets them from Before to After."
  const FabInstruction :=
    "Apply the FAB framework:\n1. Features: What it does.\n2. Advantages: Why it helps.\n3. Benefits: The underlying emotional or tangible payoff."
  const QuestInstruction :=
    "Apply the QUEST framework:\n1. Qualify the audience.\n2. Understand their problem.\n3. Educate them on the solution.\n4. Stimulate desire.\n5. Transition to action."
  const FourPInstruction :=
    "Apply the 4 Ps framework:\n1. Promise: Make a bold claim or promise about what the product does.\n2. Picture: Paint a vivid visual picture of the user enjoying the benefits.\n3. Proof: Provide evidence (social proof, facts, logic) that the promise is true.\n4. Push: A strong call to action."
  const PastorInstruction :=
    "Apply the PASTOR framework:\n1. Problem: Describe the problem.\n2. Amplify: Amplify the consequences of not solving it.\n3. Story: Tell a story related to the solution.\n4. Transformation: Describe the transformation.\n5. Offer: Describe exactly what you are offering.\n6. Response: Ask for a response (CTA)."
  const FreestyleInstruction :=
    "Create engaging, high-quality content optimized for social media or blogs. Use short paragraphs, emojis where appropriate, and a compelling structure."
  const HookValueCtaInstruction :=
    "Create a Short Video Script (TikTok/Reels style, 15-60s):\n1. Hook (0-3s): Stop the scroll immediately.\n2. Value/Body: Deliver the core message quickly.\n3. CTA: Strong directive on what to do next."
  const HeroJourneyInstruction :=
    "Create a Storytelling Script (Hero's Journey):\n1. The Known World: Establish normality.\n2. The Inciting Incident: The problem/challenge.\n3. The Journey: Struggles and discovery of the solution.\n4. The Transformation: Life after the solution."
  const ExplainerInstruction :=
    "Create an Explainer Video Script:\n1. The 'What': Briefly define the topic.\n2. The 'Why': Why it matters.\n3. The 'How': Step-by-step explanation.\n4. Key Takeaway/Summary."
  const ProblemSolutionStoryInstruction :=
    "Create a Video Sales Letter (VSL) Script:\n1. Call out the audience.\n2. Describe their pain vividly.\n3. Tell a story of overcoming that pain using the solution.\n4. Present the offer clearly."
  const ListicleVideoInstruction :=
    "Create a Listicle Video Script (e.g., Top 5 Tips):\n- Intro: Hook the viewer.\n- Items: Numbered points (1, 2, 3...) with brief explanations.\n- Outro: Summary and CTA."

  /** The ordered steps of each framework, to be inlined into the prompt;
      a value outside the enumeration gives no instruction. */
  function FrameworkInstruction(f: Choice<Framework>): (r: string)
    ensures r != "" <==> f.Known?
  {
    match f
    case Unrecognised(_) => ""
    // copywriting
    case Known(Aida) => AidaInstruction
    case Known(Pas) => PasInstruction
    case Known(Bab) => BabInstruction
    case Known(Fab) => FabInstruction
    case Known(Quest) => QuestInstruction
    case Known(FourP) => FourPInstruction
    case Known(Pastor) => PastorInstruction
    case Known(Freestyle) => FreestyleInstruction
    // scriptwriting
    case Known(HookValueCta) => HookValueCtaInstruction
    case Known(HeroJourney) => HeroJourneyInstruction
    case Known(Explainer) => ExplainerInstruction
    case Known(ProblemSolutionStory) => ProblemSolutionStoryInstruction
    case Known(ListicleVideo) => ListicleVideoInstruction
  }

  const MyanmarDirective :=
    "Write the response in Myanmar (Burmese) language. Ensure the font encoding is standard "
    + "Unicode" + ". Use natural, flowing Burmese appropriate for the content type (spoken style for scripts, written style for copy). "
    + "Do NOT just transliterate" + " English idioms, adapt them culturally."
  const ThaiDirective :=
    "Write the response in Thai language. Use " + "polite and persuasive" + " Thai appropriate for marketing contexts."
  const EnglishDirective := "Write the response in English."

  /** The output-language directive; English is also the fallback. */
  function LanguageInstruction(l: Choice<Language>): (r: string)
    ensures l == Known(MY) ==> Contains(r, "Unicode") && Contains(r, "Do NOT just transliterate")
    ensures l == Known(TH) ==> Contains(r, "polite and persuasive")
    ensures l != Known(MY) && l != Known(TH) ==> r == EnglishDirective
  {
    match l
    case Known(MY) =>
      ContainsBoth(
        "Write the response in Myanmar (Burmese) language. Ensure the font encoding is standard ", "Unicode",
        ". Use natural, flowing Burmese appropriate for the content type (spoken style for scripts, written style for copy). ",
        "Do NOT just transliterate", " English idioms, adapt them culturally.");
      MyanmarDirective
    case Known(TH) =>
      OccursBetween("Write the response in Thai language. Use ", "polite and persuasive", " Thai appropriate for marketing contexts.");
      ThaiDirective
    case _ => EnglishDirective
  }

  const EducationalFocus :=
    "Focus on teaching the audience something valuable. Use a helpful, authoritative voice. Include tips or steps."
  const PromotionalFocus :=
    "Focus on conversion and sales. Highlight offers, scarcity, and value proposition."
  const InspirationalFocus :=
    "Focus on storytelling and motivation. Connect on an emotional level."
  const EntertainmentFocus :=
    "Focus on engagement. Be lighthearted, relatable, or humorous."
  const BehindScenesFocus :=
    "Focus on authenticity. Show the process, the people, or the 'why' behind the product."
  const CommunityFocus :=
    "Focus on social proof and belonging. Highlight user experiences or testimonials."

  /** One sentence of stylistic focus per pillar; none for a value outside
      the enumeration. */
  function PillarInstruction(p: Choice<ContentPillar>): (r: string)
    ensures r != "" <==> p.Known?
  {
    match p
    case Unrecognised(_) => ""
    case Known(Educational) => EducationalFocus
    case Known(Promotional) => PromotionalFocus
    case Known(Inspirational) => InspirationalFocus
    case Known(Entertainment) => EntertainmentFocus
    case Known(BehindScenes) => BehindScenesFocus
    case Known(Community) => CommunityFocus
  }

  // ---- system instruction ----

  const ScriptPersona := "Video Scriptwriter and Director"
  const CopyPersona := "Copywriter and Content Strategist"
  const ScriptGoal := "video scripts"
  const CopyGoal := "marketing copy"

  const VisualCue := "[VISUAL]"
  const NoExplanation := "Do not explain the framework"

  // The rule blocks, line by line. Lines longer than a few dozen characters
  // are kept as several literals so that the proofs can scan each one.
  const ScriptRulesHead := "\nFOR SCRIPTWRITING:\n" + "- Use a clear script format.\n" + "- Include "
  const VisualRuleRest := " cues in brackets describing " + "what should be seen on screen.\n"
  const AudioRule := "- Include [AUDIO] or [SPEAKER] " + "cues describing spoken dialogue " + "or sound effects.\n"
  const DurationRule := "- Include estimated duration " + "for sections if applicable.\n"
  const RhythmRule := "- Write dialogue in a natural, " + "spoken rhythm.\n"
  const ScriptRulesTail := VisualRuleRest + AudioRule + DurationRule + RhythmRule
  const ScriptRules := ScriptRulesHead + VisualCue + ScriptRulesTail

  const CopyRulesHead := "\nFOR COPYWRITING:\n" + "- Use headers, bullet points, " + "and bold text for readability.\n" + "- "
  const CopyRulesTail := ", just use it to structure " + "the content.\n"
  const CopyRules := CopyRulesHead + NoExplanation + CopyRulesTail

  // The fixed text between the slots of the system instruction.
  const PersonaLead := "You are a world-class "
  const GoalLead := ".\nYour goal is to write " + "persuasive, high-converting "
  const RulesLead := ".\nYou are fluent in English, " + "Myanmar, and Thai.\n" + "Always format the output " + "using Markdown.\n\n"

  predicate IsScript(m: AppMode) { m == Scriptwriting }

  /** The system-instruction template around a persona, a goal and a rule
      block. */
  function SystemTemplate(persona: string, goal: string, rules: string): string
  {
    PersonaLead + persona + GoalLead + goal + RulesLead + rules
  }

  function SystemInstruction(m: AppMode): string
  {
    if IsScript(m) then SystemTemplate(ScriptPersona, ScriptGoal, ScriptRules)
    else SystemTemplate(CopyPersona, CopyGoal, CopyRules)
  }

  // ---- brand context ----

  const GenericBrandContext := "BRAND IDENTITY: Generic / Not specified"

  // The fixed text between the fields of a brand's block.
  const NameLabel := "\n    BRAND IDENTITY:\n    - Brand Name: "
  const IndustryLabel := "\n    - Industry: "
  const StoryLabel := "\n    - Brand Story/Context: "
  const StandardAudienceLabel := "\n    - Standard Audience: "
  const BrandTail := "\n    "

  function BrandContext(brand: Option<BrandProfile>): string
  {
    match brand
    case None => GenericBrandContext
    case Some(b) =>
      NameLabel + b.name + IndustryLabel + b.industry + StoryLabel + b.description
      + StandardAudienceLabel + b.defaultAudience + BrandTail
  }

  // ---- user prompt ----

  const GeneralAudience := "General Audience"

  /** `targetAudience || brand?.defaultAudience || "General Audience"`, where
      the empty string counts as absent. */
  function ResolvedAudience(targetAudience: string, brand: Option<BrandProfile>): string
  {
    if targetAudience != "" then targetAudience
    else if brand.Some? && brand.value.defaultAudience != "" then brand.value.defaultAudience
    else GeneralAudience
  }

  // The fixed text between the fields of the request block.
  const RequestLead := "CONTENT REQUEST ("
  const ScriptKind := "VIDEO SCRIPT"
  const CopyKind := "WRITTEN COPY"
  const TopicLabel := "):\n  Topic: "
  const DetailsLabel := "\n  Context/Details: "
  const AudienceLabel := "\n  Target Audience: "
  const ToneLabel := "\n  Tone of Voice: "
  const PillarLabel := "\n  Content Pillar/Theme: "

  function RequestBlock(req: ContentRequest): string
  {
    RequestLead + (if IsScript(req.mode) then ScriptKind else CopyKind)
    + TopicLabel + req.topic
    + DetailsLabel + req.description
    + AudienceLabel + ResolvedAudience(req.targetAudience, req.brand)
    + ToneLabel + ToneValue(req.tone)
    + PillarLabel + PillarValue(req.pillar)
  }

  const ScriptBurmeseNote := "For scripts, use spoken/colloquial Burmese grammar."

  // The fixed text of the closing rules.
  const RulesHead :=
    "IMPORTANT RULES:\n  - Make it creative and engaging.\n  - If using Myanmar language, ensure it reads naturally to native speakers. "
  const EmojiLead := "\n  - Use appropriate emojis for the "
  const ToneAndPillar := " tone and "
  const RulesTail := " theme.\n  - Ensure the content aligns with the Brand Identity provided above.\n  "

  function ClosingRules(req: ContentRequest): string
  {
    RulesHead + (if IsScript(req.mode) then ScriptBurmeseNote else "")
    + EmojiLead + ToneValue(req.tone)
    + ToneAndPillar + PillarValue(req.pillar)
    + RulesTail
  }

  /** The six sections a prompt is made of, in the order they are written. */
  datatype Sections = Sections(
    brandContext: string,
    request: string,
    task: string,
    focus: string,
    language: string,
    closing: string)
  {
    function List(): seq<string>
    {
      [brandContext, request, task, focus, language, closing]
    }
  }

  // The headings between the sections of a prompt.
  const PromptLead := "\n  "
  const RequestHeading := "\n\n  "
  const TaskHeading := "\n  \n  TASK:\n  "
  const FocusHeading := "\n  \n  CONTENT FOCUS (Pillar):\n  "
  const LanguageHeading := "\n  \n  LANGUAGE REQUIREMENT:\n  "
  const ClosingHeading := "\n  \n  "

  /** The prompt template with its six sections filled in. */
  function Render(p: Sections): string
  {
    PromptLead + p.brandContext
    + RequestHeading + p.request
    + TaskHeading + p.task
    + FocusHeading + p.focus
    + LanguageHeading + p.language
    + ClosingHeading + p.closing
  }

  function SectionsOf(req: ContentRequest): Sections
  {
    Sections(BrandContext(req.brand), RequestBlock(req), FrameworkInstruction(req.framework),
             PillarInstruction(req.pillar), LanguageInstruction(req.language), ClosingRules(req))
  }

  function Prompt(req: ContentRequest): string
  {
    Render(SectionsOf(req))
  }

  // ---- generation client ----

  const SorryMessage := "Sorry, I couldn't generate the content at this time."

  /** What the model service answers: some text, possibly empty or absent,
      or an error (network, key, service). */
  datatype ServiceReply = Replied(text: Option<string>) | Errored

  /** The one normalised failure the client raises. */
  datatype GenerationError = GenerationFailed

  /** `response.text || "Sorry, ..."`: an empty or absent answer becomes the
      fixed apology, so success is never empty. */
  function ResponseText(text: Option<string>): (r: string)
    ensures r != ""
    ensures text.Some? && text.value != "" ==> r == text.value
    ensures text.None? || text.value == "" ==> r == SorryMessage
  {
    if text.Some? && text.value != "" then text.value else SorryMessage
  }

  /** What the client makes of the service's reply: an error becomes the
      normalised failure, any answer a success that is never empty. */
  function Outcome(reply: ServiceReply): (r: Result<string, GenerationError>)
    ensures r.Failure? <==> reply.Errored?
    ensures r.Success? ==> r.value != "" && r.value == ResponseText(reply.text)
  {
    match reply
    case Errored => Failure(GenerationFailed)
    case Replied(text) => Success(ResponseText(text))
  }

  /** One call of the model service, passed in as a function of the system
      instruction and the prompt. */
  function GenerateCopy(req: ContentRequest, service: (string, string) -> ServiceReply): Result<string, GenerationError>
  {
    Outcome(service(SystemInstruction(req.mode), Prompt(req)))
  }

  // ---- properties ----

  /** The AIDA steps appear as Attention, Interest, Desire, Action and the
      PAS steps as Problem, Agitation, Solution, each in that order. */
  lemma FrameworkStepsInOrder()
    ensures InOrder(AidaInstruction, ["Attention", "Interest", "Desire", "Action"])
    ensures InOrder(PasInstruction, ["Problem", "Agitation", "Solution"])
  {
    Ordered4("Apply the AIDA framework:\n1. ", "Attention", ": Grab attention with a hook.\n2. ",
      "Interest", ": Build interest with facts/details.\n3. ",
      "Desire", ": Create desire by showing benefits.\n4. ",
      "Action");
    InOrderExtend("Apply the AIDA framework:\n1. " + "Attention" + ": Grab attention with a hook.\n2. "
      + "Interest" + ": Build interest with facts/details.\n3. "
      + "Desire" + ": Create desire by showing benefits.\n4. "
      + "Action", ["Attention", "Interest", "Desire", "Action"], ": Clear Call to Action (CTA).");
    Ordered3("Apply the PAS framework:\n1. ", "Problem", ": Identify a pain point.\n2. ",
      "Agitation", ": Agitate the pain, make it visceral.\n3. ",
      "Solution");
    InOrderExtend("Apply the PAS framework:\n1. " + "Problem" + ": Identify a pain point.\n2. "
      + "Agitation" + ": Agitate the pain, make it visceral.\n3. "
      + "Solution", ["Problem", "Agitation", "Solution"], ": Present the product/service as the ultimate solution.");
  }

  /** Whatever is filled in, the template carries the persona and ends with
      the rule block. */
  lemma SystemTemplateShape(persona: string, goal: string, rules: string)
    ensures Contains(SystemTemplate(persona, goal, rules), persona)
    ensures EndsWith(SystemTemplate(persona, goal, rules), rules)
  {
    Framed(PersonaLead, persona, GoalLead, goal, RulesLead, rules);
  }

  /** The two rule blocks differ in their third character from the end. */
  lemma RuleBlocksDiffer()
    ensures 3 <= |ScriptRules| && 3 <= |CopyRules|
    ensures ScriptRules[|ScriptRules| - 3] != CopyRules[|CopyRules| - 3]
  {
    assert ScriptRulesTail[|ScriptRulesTail| - 3] == 'm';
    assert CopyRulesTail[|CopyRulesTail| - 3] == 't';
  }

  // Character scans, one small group of literals at a time. The script
  // instruction has no 'j' while the copy block has one (in "just"); the
  // copy instruction has no '[' while the script block opens its cue with one.

  lemma LeadsLackJ()
    ensures 'j' !in PersonaLead && 'j' !in GoalLead
  {
  }

  lemma RulesLeadLacksJ()
    ensures 'j' !in RulesLead
  {
  }

  lemma LeadsLackBracket()
    ensures '[' !in PersonaLead && '[' !in GoalLead
  {
  }

  lemma RulesLeadLacksBracket()
    ensures '[' !in RulesLead
  {
  }

  lemma ScriptSlotsLackJ()
    ensures 'j' !in ScriptPersona && 'j' !in ScriptGoal && 'j' !in VisualCue
  {
  }

  lemma ScriptRulesHeadLacksJ()
    ensures 'j' !in ScriptRulesHead
  {
  }

  lemma VisualRuleLacksJ()
    ensures 'j' !in VisualRuleRest
  {
  }

  lemma AudioRuleLacksJ()
    ensures 'j' !in AudioRule
  {
  }

  lemma LastRulesLackJ()
    ensures 'j' !in DurationRule && 'j' !in RhythmRule
  {
  }

  lemma CopySlotsLackBracket()
    ensures '[' !in CopyPersona && '[' !in CopyGoal && '[' !in NoExplanation
  {
  }

  lemma CopyRulesLackBracket()
    ensures '[' !in CopyRulesHead && '[' !in CopyRulesTail
  {
  }

  /** The copywriting block occurs nowhere in the script-mode instruction. */
  lemma ScriptInstructionLacksCopyRules()
    ensures !Contains(SystemInstruction(Scriptwriting), CopyRules)
  {
    LeadsLackJ();
    RulesLeadLacksJ();
    ScriptSlotsLackJ();
    ScriptRulesHeadLacksJ();
    VisualRuleLacksJ();
    AudioRuleLacksJ();
    LastRulesLackJ();
    assert 'j' !in SystemInstruction(Scriptwriting);
    assert CopyRulesTail[2] == 'j';
    MissingCharExcludes(SystemInstruction(Scriptwriting), CopyRules, 'j');
  }

  /** The scriptwriting block occurs nowhere in the copy-mode instruction. */
  lemma CopyInstructionLacksScriptRules()
    ensures !Contains(SystemInstruction(Copywriting), ScriptRules)
  {
    LeadsLackBracket();
    RulesLeadLacksBracket();
    CopySlotsLackBracket();
    CopyRulesLackBracket();
    assert '[' !in SystemInstruction(Copywriting);
    assert VisualCue[0] == '[';
    MissingCharExcludes(SystemInstruction(Copywriting), ScriptRules, '[');
  }

  /** In script mode the system instruction carries the scriptwriter
      persona and the [VISUAL] cue rule, and ends with the scriptwriting
      block; the copywriting block occurs nowhere in it. */
  lemma ScriptSystemInstruction()
    ensures Contains(SystemInstruction(Scriptwriting), ScriptPersona)
    ensures Contains(SystemInstruction(Scriptwriting), VisualCue)
    ensures EndsWith(SystemInstruction(Scriptwriting), ScriptRules)
    ensures !EndsWith(SystemInstruction(Scriptwriting), CopyRules)
    ensures !Contains(SystemInstruction(Scriptwriting), CopyRules)
  {
    ScriptInstructionLacksCopyRules();
    var s := SystemInstruction(Scriptwriting);
    RuleBlocksDiffer();
    SystemTemplateShape(ScriptPersona, ScriptGoal, ScriptRules);
    OccursBetween(ScriptRulesHead, VisualCue, ScriptRulesTail);
    EndsWithContains(s, ScriptRules, VisualCue);
    EndsWithDistinct(s, ScriptRules, CopyRules);
  }

  /** In copy mode the system instruction carries the copywriter persona
      and the rule not to explain the framework, and ends with the
      copywriting block; the scriptwriting block occurs nowhere in it. */
  lemma CopySystemInstruction()
    ensures Contains(SystemInstruction(Copywriting), CopyPersona)
    ensures Contains(SystemInstruction(Copywriting), NoExplanation)
    ensures EndsWith(SystemInstruction(Copywriting), CopyRules)
    ensures !EndsWith(SystemInstruction(Copywriting), ScriptRules)
    ensures !Contains(SystemInstruction(Copywriting), ScriptRules)
  {
    CopyInstructionLacksScriptRules();
    var s := SystemInstruction(Copywriting);
    RuleBlocksDiffer();
    SystemTemplateShape(CopyPersona, CopyGoal, CopyRules);
    OccursBetween(CopyRulesHead, NoExplanation, CopyRulesTail);
    EndsWithContains(s, CopyRules, NoExplanation);
    EndsWithDistinct(s, CopyRules, ScriptRules);
  }

  /** With a brand, its name, industry, story and standard audience appear
      verbatim and in that order; without one, the block is the generic
      marker. */
  lemma BrandContextFields(brand: Option<BrandProfile>)
    ensures brand.None? ==> BrandContext(brand) == GenericBrandContext
    ensures brand.Some? ==>
      var b := brand.value;
      InOrder(BrandContext(brand), [b.name, b.industry, b.description, b.defaultAudience])
  {
    if brand.Some? {
      var b := brand.value;
      Ordered4(NameLabel, b.name, IndustryLabel, b.industry, StoryLabel, b.description,
        StandardAudienceLabel, b.defaultAudience);
      InOrderExtend(NameLabel + b.name + IndustryLabel + b.industry + StoryLabel + b.description
        + StandardAudienceLabel + b.defaultAudience,
        [b.name, b.industry, b.description, b.defaultAudience], BrandTail);
    }
  }

  /** The audience is the draft's own when non-empty, else the brand's
      default when present and non-empty, else "General Audience"; it is
      never empty. */
  lemma AudienceFallback(targetAudience: string, brand: Option<BrandProfile>)
    ensures ResolvedAudience(targetAudience, brand) != ""
    ensures targetAudience != "" ==> ResolvedAudience(targetAudience, brand) == targetAudience
    ensures targetAudience == "" && brand.Some? && brand.value.defaultAudience != "" ==>
      ResolvedAudience(targetAudience, brand) == brand.value.defaultAudience
    ensures targetAudience == "" && (brand.None? || brand.value.defaultAudience == "") ==>
      ResolvedAudience(targetAudience, brand) == GeneralAudience
  {
  }

  /** The request block names the topic, details, resolved audience, tone
      and pillar, in that order. */
  lemma RequestBlockFields(req: ContentRequest)
    ensures InOrder(RequestBlock(req),
      [req.topic, req.description, ResolvedAudience(req.targetAudience, req.brand), ToneValue(req.tone), PillarValue(req.pillar)])
  {
    Ordered5(
      RequestLead + (if IsScript(req.mode) then ScriptKind else CopyKind) + TopicLabel, req.topic,
      DetailsLabel, req.description,
      AudienceLabel, ResolvedAudience(req.targetAudience, req.brand),
      ToneLabel, ToneValue(req.tone),
      PillarLabel, PillarValue(req.pillar));
  }

  /** The closing rules carry the spoken-Burmese note in script mode, then
      the tone and the pillar. */
  lemma ClosingRulesFields(req: ContentRequest)
    ensures InOrder(ClosingRules(req),
      [if IsScript(req.mode) then ScriptBurmeseNote else "", ToneValue(req.tone), PillarValue(req.pillar)])
  {
    var note := if IsScript(req.mode) then ScriptBurmeseNote else "";
    var parts := [note, ToneValue(req.tone), PillarValue(req.pillar)];
    Ordered3(RulesHead, note, EmojiLead, ToneValue(req.tone), ToneAndPillar, PillarValue(req.pillar));
    InOrderExtend(RulesHead + note + EmojiLead + ToneValue(req.tone) + ToneAndPillar + PillarValue(req.pillar),
      parts, RulesTail);
  }

  /** The rendered prompt holds, in this order, the brand context, the
      request block, the framework task, the pillar focus, the language
      requirement and the closing rules. */
  lemma RenderInOrder(p: Sections)
    ensures InOrder(Render(p), p.List())
  {
    Ordered6(PromptLead, p.brandContext, RequestHeading, p.request, TaskHeading, p.task,
      FocusHeading, p.focus, LanguageHeading, p.language, ClosingHeading, p.closing);
  }

  /** Whatever a section contains, the rendered prompt contains. */
  lemma RenderContains(p: Sections, k: nat, t: string)
    requires k < 6 && Contains(p.List()[k], t)
    ensures Contains(Render(p), t)
  {
    RenderInOrder(p);
    InOrderContains(Render(p), p.List(), k);
    ContainsTransitive(Render(p), p.List()[k], t);
  }

  /** A script-mode prompt in Burmese carries the non-transliteration
      directive and the spoken-register note, whatever its other sections. */
  lemma MyanmarScriptPrompt(req: ContentRequest, p: Sections)
    requires req.language == Known(MY) && req.mode == Scriptwriting
    requires p.language == LanguageInstruction(req.language) && p.closing == ClosingRules(req)
    ensures Contains(Render(p), "Do NOT just transliterate")
    ensures Contains(Render(p), ScriptBurmeseNote)
  {
    RenderContains(p, 4, "Do NOT just transliterate");
    ClosingRulesFields(req);
    InOrderContains(ClosingRules(req), [ScriptBurmeseNote, ToneValue(req.tone), PillarValue(req.pillar)], 0);
    RenderContains(p, 5, ScriptBurmeseNote);
  }

  /** The example request: copy mode, AIDA, no brand, no audience, English. */
  lemma EarbudsScenario(req: ContentRequest, p: Sections)
    requires req == ContentRequest(Copywriting, "Wireless Earbuds", "", Known(Aida), Known(Promotional),
                                   Known(EN), Witty, "", None)
    requires p.brandContext == BrandContext(req.brand) && p.request == RequestBlock(req) && p.task == AidaInstruction
    ensures Contains(Render(p), GenericBrandContext)
    ensures Contains(Render(p), "Wireless Earbuds") && Contains(Render(p), GeneralAudience)
    ensures Contains(Render(p), "Attention") && Contains(Render(p), "Interest")
    ensures Contains(Render(p), "Desire") && Contains(Render(p), "Action")
  {
    assert OccursAt(GenericBrandContext, GenericBrandContext, 0);
    RenderContains(p, 0, GenericBrandContext);
    RequestBlockFields(req);
    var fields := [req.topic, req.description, ResolvedAudience(req.targetAudience, req.brand),
                   ToneValue(req.tone), PillarValue(req.pillar)];
    InOrderContains(RequestBlock(req), fields, 0);
    InOrderContains(RequestBlock(req), fields, 2);
    RenderContains(p, 1, "Wireless Earbuds");
    RenderContains(p, 1, GeneralAudience);
    FrameworkStepsInOrder();
    var steps := ["Attention", "Interest", "Desire", "Action"];
    InOrderContains(AidaInstruction, steps, 0);
    InOrderContains(AidaInstruction, steps, 1);
    InOrderContains(AidaInstruction, steps, 2);
    InOrderContains(AidaInstruction, steps, 3);
    RenderContains(p, 2, "Attention");
    RenderContains(p, 2, "Interest");
    RenderContains(p, 2, "Desire");
    RenderContains(p, 2, "Action");
  }
}
