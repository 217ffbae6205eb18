/** The static tables of the front end: the framework list of each mode,
    the framework detail cards, the label tables' coverage and the seeded
    brand profiles. */
module Catalog {
  import opened Types

  const CopyFrameworks: seq<Framework> :=
    [Aida, Pas, Bab, Fab, Quest, FourP, Pastor, Freestyle]

  const ScriptFrameworks: seq<Framework> :=
    [HookValueCta, HeroJourney, Explainer, ProblemSolutionStory, ListicleVideo]

  /** The frameworks offered in a mode. */
  function ModeFrameworks(m: AppMode): (r: seq<Framework>)
    ensures |r| > 0
    ensures forall f :: f in r ==> (f in ScriptFrameworks <==> m == Scriptwriting)
  {
    if m == Scriptwriting then ScriptFrameworks else CopyFrameworks
  }

  /** The card text of a framework (its icon is left out). */
  datatype FrameworkDetail = FrameworkDetail(title: string, description: string)

  const FrameworkDetails: map<Framework, FrameworkDetail> := map[
    Aida := FrameworkDetail("AIDA Model",
      "Attention, Interest, Desire, Action. The classic copywriting formula."),
    Pas := FrameworkDetail("PAS Formula",
      "Problem, Agitation, Solution. Perfect for addressing pain points."),
    Bab := FrameworkDetail("Before-After-Bridge",
      "Show the current pain, the future benefit, and how to get there."),
    Fab := FrameworkDetail("Feature-Advantage-Benefit",
      "Turn technical features into desirable benefits."),
    Quest := FrameworkDetail("QUEST",
      "Qualify, Understand, Educate, Stimulate, Transition."),
    FourP := FrameworkDetail("The 4 Ps",
      "Promise, Picture, Proof, Push. Persuasive and visual."),
    Pastor := FrameworkDetail("PASTOR",
      "Problem, Amplify, Story, Transformation, Offer, Response."),
    Freestyle := FrameworkDetail("Freestyle / Social",
      "Creative, engaging posts for social media without a strict structure."),
    HookValueCta := FrameworkDetail("Hook-Value-CTA (Shorts)",
      "Fast-paced 15-60s script. Grab attention, deliver value, call to action."),
    HeroJourney := FrameworkDetail("Hero's Journey",
      "Classic storytelling: Call to adventure, challenges, and transformation."),
    Explainer := FrameworkDetail("The Explainer",
      "What is it? Who is it for? How does it work? Why do you need it?"),
    ProblemSolutionStory := FrameworkDetail("VSL (Video Sales Letter)",
      "Detailed problem analysis, emotional story, and logical solution."),
    ListicleVideo := FrameworkDetail("Listicle / Top X",
      "Structured list format (e.g., \"5 Ways to...\") perfect for engagement.")
  ]

  /** Every user-interface language. */
  const AllLanguages: set<Language> := {EN, MY, TH}

  /** For each key of a label table, the languages it has a label for (the
      label text itself is left out). */
  const ModeLabelLanguages: map<AppMode, set<Language>> := map[
    Copywriting := {EN, MY, TH},
    Scriptwriting := {EN, MY, TH}
  ]

  const ToneLabelLanguages: map<Tone, set<Language>> := map[
    Professional := {EN, MY, TH},
    Friendly := {EN, MY, TH},
    Urgent := {EN, MY, TH},
    Witty := {EN, MY, TH},
    Emotional := {EN, MY, TH},
    Luxury := {EN, MY, TH},
    Dramatic := {EN, MY, TH},
    Excited := {EN, MY, TH}
  ]

  const PillarLabelLanguages: map<ContentPillar, set<Language>> := map[
    Educational := {EN, MY, TH},
    Promotional := {EN, MY, TH},
    Inspirational := {EN, MY, TH},
    Entertainment := {EN, MY, TH},
    BehindScenes := {EN, MY, TH},
    Community := {EN, MY, TH}
  ]

  const DefaultBrands: seq<BrandProfile> := [
    BrandProfile(
      "demo-1",
      "TechNova",
      "Consumer Electronics",
      "Innovative gadgets for the modern lifestyle. High-tech meets minimal design.",
      Witty,
      "Tech enthusiasts, Early adopters, Ages 18-35"),
    BrandProfile(
      "demo-2",
      "GreenLeaf Organics",
      "Health & Wellness",
      "100% organic supplements and superfoods sourced sustainably.",
      Friendly,
      "Health-conscious individuals, Eco-friendly consumers")
  ]

  /** The two framework lists share no framework, and each starts with the
      framework a mode switch selects. */
  lemma FrameworkListsDisjoint()
    ensures forall f :: f in CopyFrameworks ==> f !in ScriptFrameworks
    ensures CopyFrameworks[0] == Aida && ScriptFrameworks[0] == HookValueCta
  {
  }

  /** Every framework is in one of the two lists and has a detail card, so
      the lists' union is exactly the table's key set. */
  lemma FrameworkDetailsComplete(f: Framework)
    ensures f in FrameworkDetails
    ensures f in CopyFrameworks || f in ScriptFrameworks
  {
    match f
    case Aida => assert CopyFrameworks[0] == f;
    case Pas => assert CopyFrameworks[1] == f;
    case Bab => assert CopyFrameworks[2] == f;
    case Fab => assert CopyFrameworks[3] == f;
    case Quest => assert CopyFrameworks[4] == f;
    case FourP => assert CopyFrameworks[5] == f;
    case Pastor => assert CopyFrameworks[6] == f;
    case Freestyle => assert CopyFrameworks[7] == f;
    case HookValueCta => assert ScriptFrameworks[0] == f;
    case HeroJourney => assert ScriptFrameworks[1] == f;
    case Explainer => assert ScriptFrameworks[2] == f;
    case ProblemSolutionStory => assert ScriptFrameworks[3] == f;
    case ListicleVideo => assert ScriptFrameworks[4] == f;
  }

  lemma FrameworkListsCoverDetails()
    ensures FrameworkDetails.Keys == (set f | f in CopyFrameworks) + (set f | f in ScriptFrameworks)
  {
    forall f | f in FrameworkDetails.Keys
      ensures f in CopyFrameworks || f in ScriptFrameworks
    {
      FrameworkDetailsComplete(f);
    }
  }

  /** The label tables have an entry for every mode, tone and pillar, each
      in every language. */
  lemma LabelTablesComplete(m: AppMode, t: Tone, p: ContentPillar)
    ensures m in ModeLabelLanguages && ModeLabelLanguages[m] == AllLanguages
    ensures t in ToneLabelLanguages && ToneLabelLanguages[t] == AllLanguages
    ensures p in PillarLabelLanguages && PillarLabelLanguages[p] == AllLanguages
  {
  }

  /** The seeded brands are demo-1 and demo-2, with distinct ids. */
  lemma DefaultBrandIdsDistinct()
    ensures |DefaultBrands| == 2
    ensures DefaultBrands[0].id == "demo-1" && DefaultBrands[1].id == "demo-2"
    ensures forall i, j :: 0 <= i < j < |DefaultBrands| ==> DefaultBrands[i].id != DefaultBrands[j].id
  {
    assert DefaultBrands[0].id[5] != DefaultBrands[1].id[5];
  }
}
