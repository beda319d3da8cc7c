/** The prompt composer of services/geminiService.ts: pure builders that turn
    the user's options and a per-result seed into the image prompt, the
    text-and-metadata prompt and the response schema.

    Each prompt is written as the list of its pieces, fixed texts and
    interpolated values in template order, joined by `Concat`. The fixed
    texts are the source's own, word for word, gathered in one wording record
    per prompt (`ImageTexts`, `TextTexts`); every property is proved for an
    arbitrary wording and then stated for the source's. */
module Prompts {
  import opened Types
  import opened Strings

  /** `"${s}"`: a hint or product text placed verbatim between double quotes. */
  function Quoted(s: string): string
  {
    "\"" + s + "\""
  }

  /** `(seed ${seed})`: how the uniqueness wording names the seed. */
  function SeedTag(seed: nat): string
  {
    "(seed " + Decimal(seed) + ")"
  }

  // ---------------------------------------------------------------------------
  // Dimensions

  /** Width and height in pixels that the prompt demands for each aspect ratio. */
  function PixelWidth(a: AspectRatio): nat
  {
    match a
    case Portrait => 1080
    case Landscape => 1920
  }

  function PixelHeight(a: AspectRatio): nat
  {
    match a
    case Portrait => 1920
    case Landscape => 1080
  }

  /** The two terms of the aspect ratio, width first. */
  function RatioWidth(a: AspectRatio): nat
  {
    match a
    case Portrait => 9
    case Landscape => 16
  }

  function RatioHeight(a: AspectRatio): nat
  {
    match a
    case Portrait => 16
    case Landscape => 9
  }

  /** `dimensions`: "1080x1920 pixels" for '9:16', "1920x1080 pixels" otherwise. */
  function Dimensions(a: AspectRatio): string
  {
    if a == Portrait then "1080x1920 pixels" else "1920x1080 pixels"
  }

  lemma DecimalsOfSides()
    ensures Decimal(9) == "9" && Decimal(16) == "16"
    ensures Decimal(1080) == "1080" && Decimal(1920) == "1920"
  {
    assert Decimal(1) == "1" && Decimal(10) == Decimal(1) + "0";
    assert Decimal(16) == Decimal(1) + "6";
    assert Decimal(108) == Decimal(10) + "8";
    assert Decimal(1080) == Decimal(108) + "0";
    assert Decimal(19) == Decimal(1) + "9";
    assert Decimal(192) == Decimal(19) + "2";
    assert Decimal(1920) == Decimal(192) + "0";
  }

  /** The dimensions text spells out the pixel size; that size has the
      proportions of the chosen aspect ratio, whose text names the same two
      terms; portrait is the tall one; the sides are 1080 and 1920. */
  lemma DimensionsFitAspectRatio(a: AspectRatio)
    ensures Dimensions(a) == Decimal(PixelWidth(a)) + "x" + Decimal(PixelHeight(a)) + " pixels"
    ensures PixelWidth(a) * RatioHeight(a) == PixelHeight(a) * RatioWidth(a)
    ensures AspectRatioText(a) == Decimal(RatioWidth(a)) + ":" + Decimal(RatioHeight(a))
    ensures (PixelWidth(a) < PixelHeight(a)) == (a == Portrait)
    ensures {PixelWidth(a), PixelHeight(a)} == {1080, 1920}
  {
    DecimalsOfSides();
  }

  // ---------------------------------------------------------------------------
  // Outfit and background clauses

  /** The policy both clauses follow: with a hint, ask for something inspired by
      the quoted hint; without one, ask for something unique to this seed. */
  function Clause(hintLead: string, uniqueLead: string, uniqueTail: string, hint: string, seed: nat): string
  {
    if hint != "" then hintLead + Quoted(hint) + "."
    else uniqueLead + SeedTag(seed) + uniqueTail
  }

  /** With a hint, the clause quotes it and is the same for every seed; without
      one, it carries this seed's tag and differs from seed to seed. */
  lemma ClausePolicy(hintLead: string, uniqueLead: string, uniqueTail: string, hint: string, seed: nat, other: nat)
    ensures hint != "" ==> OccursAt(Clause(hintLead, uniqueLead, uniqueTail, hint, seed), Quoted(hint), |hintLead|)
    ensures hint != "" ==> Clause(hintLead, uniqueLead, uniqueTail, hint, seed) == Clause(hintLead, uniqueLead, uniqueTail, hint, other)
    ensures hint == "" ==> OccursAt(Clause(hintLead, uniqueLead, uniqueTail, hint, seed), SeedTag(seed), |uniqueLead|)
    ensures hint == "" && seed != other ==>
      Clause(hintLead, uniqueLead, uniqueTail, hint, seed) != Clause(hintLead, uniqueLead, uniqueTail, hint, other)
  {
    if hint != "" {
      OccursAtEnd(hintLead, Quoted(hint));
      OccursExtend(hintLead + Quoted(hint), Quoted(hint), |hintLead|, ".");
    } else {
      var c := Clause(hintLead, uniqueLead, uniqueTail, hint, seed);
      var c' := Clause(hintLead, uniqueLead, uniqueTail, hint, other);
      OccursAtEnd(uniqueLead, SeedTag(seed));
      OccursExtend(uniqueLead + SeedTag(seed), SeedTag(seed), |uniqueLead|, uniqueTail);
      OccursAtEnd(uniqueLead, SeedTag(other));
      OccursExtend(uniqueLead + SeedTag(other), SeedTag(other), |uniqueLead|, uniqueTail);
      if c == c' {
        NumberAtSamePlace(c, |uniqueLead|, "(seed ", seed, other, ")");
      }
    }
  }

  // ---------------------------------------------------------------------------
  // The image prompt

  /** The fixed texts of the image prompt, in the order they appear. */
  datatype ImageWording = ImageWording(
    dimensionRule: string,        // the opening rule, up to the pixel size
    ratioLead: string,            // ... between the pixel size and the aspect ratio
    ruleClose: string,            // ... after the aspect ratio
    brief: string,                // the creative brief, up to the outfit line
    outfitHintLead: string,       // outfit line when a hint is given, up to the quoted hint
    outfitUniqueLead: string,     // outfit line without a hint, up to the seed tag
    outfitUniqueTail: string,     // ... and after it
    backgroundHintLead: string,   // the same three for the background line
    backgroundUniqueLead: string,
    backgroundUniqueTail: string,
    styleLead: string,            // the Style line and the Variation heading
    variationTail: string)        // the rest of the Variation line and the final rule, up to "EXACTLY"

  /** The wording of services/geminiService.ts:101-120. */
  const ImageTexts := ImageWording(
    "THE ABSOLUTE MOST IMPORTANT, "
      + "CRITICAL, NON-NEGOTIABLE RULE: "
      + "The final image's dimensions "
      + "MUST BE EXACTLY ",
    ". This corresponds to a ",
    " aspect ratio. You MUST NOT "
      + "fail on this. This rule overrides "
      + "all other instructions.",
    "\n\nCreate a single, high-resolution "
      + "(1080p quality), photorealistic "
      + "promotional image.\n"
      + "- **Person**: The person from "
      + "the first image must be featured. "
      + "Their facial features and "
      + "appearance must be preserved "
      + "exactly.\n- **Product**: The "
      + "product from the second image "
      + "must be featured. The product's "
      + "appearance and branding must "
      + "be preserved exactly.\n"
      + "- **REALISTIC SCALING (CRITICAL)**: "
      + "The product's size MUST be "
      + "realistic and proportional "
      + "to the person. It should look "
      + "natural, as it would in real "
      + "life. DO NOT enlarge the product "
      + "for emphasis. For example, "
      + "a lipstick should not be the "
      + "size of a water bottle. This "
      + "realism is more important "
      + "than making the product highly "
      + "visible.\n- **Interaction**: "
      + "The person should be interacting "
      + "with or presenting the product "
      + "in a natural, engaging way.\n",
    "- **Outfit Suggestion**: The "
      + "person should be wearing an "
      + "outfit inspired by this suggestion: ",
    "- **Outfit**: The person must "
      + "be wearing a stylish and contextually "
      + "appropriate outfit. CRITICAL: "
      + "For this specific generation ",
    ", invent a COMPLETELY UNIQUE "
      + "outfit. Do not repeat styles "
      + "from other generations. Be "
      + "creative with different clothing "
      + "items (e.g., blazer and jeans, "
      + "summer dress, sportswear, "
      + "elegant gown).",
    "- **Background Suggestion**: "
      + "The setting should be inspired "
      + "by this suggestion: ",
    "- **Setting**: The background "
      + "must be a dynamic and interesting "
      + "setting. CRITICAL: For this "
      + "specific generation ",
    ", create a COMPLETELY UNIQUE "
      + "background. Do not repeat "
      + "locations from other generations. "
      + "Explore diverse settings like "
      + "a rooftop lounge at dusk, "
      + "a bustling European street "
      + "market, a minimalist art gallery, "
      + "a tranquil Japanese garden, "
      + "or inside a futuristic vehicle. "
      + "AVOID simple studio backdrops.",
    "\n- **Style**: The style should "
      + "be high-end and polished, "
      + "suitable for a professional "
      + "advertisement.\n"
      + "- **Composition**: The shot "
      + "MUST be a full-body shot of "
      + "the model to showcase the "
      + "entire outfit and product "
      + "in context.\n"
      + "- **Variation**: ",
    " to ensure this image is unique. "
      + "Your highest priority for "
      + "variation is to ensure the "
      + "outfit and background are "
      + "completely different from "
      + "any other generated image, "
      + "as per the instructions above. "
      + "Also vary the pose, lighting, "
      + "and camera angle.\n"
      + "- **Final Reminder**: The "
      + "output dimensions MUST be ")

  /** `outfitPrompt`. */
  function OutfitClause(w: ImageWording, hint: string, seed: nat): string
  {
    Clause(w.outfitHintLead, w.outfitUniqueLead, w.outfitUniqueTail, hint, seed)
  }

  /** `backgroundPrompt`. */
  function BackgroundClause(w: ImageWording, hint: string, seed: nat): string
  {
    Clause(w.backgroundHintLead, w.backgroundUniqueLead, w.backgroundUniqueTail, hint, seed)
  }

  /** With a non-empty hint the outfit clause quotes it verbatim and does not
      depend on the seed; with an empty hint it asks for a unique outfit and
      names the seed, so different seeds get different clauses. */
  lemma OutfitClausePolicy(hint: string, seed: nat, other: nat)
    ensures hint != "" ==> Contains(OutfitClause(ImageTexts, hint, seed), Quoted(hint))
    ensures hint != "" ==> OutfitClause(ImageTexts, hint, seed) == OutfitClause(ImageTexts, hint, other)
    ensures hint == "" ==> ImageTexts.outfitUniqueLead + SeedTag(seed) <= OutfitClause(ImageTexts, hint, seed)
    ensures hint == "" && seed != other ==> OutfitClause(ImageTexts, hint, seed) != OutfitClause(ImageTexts, hint, other)
  {
    var w := ImageTexts;
    ClausePolicy(w.outfitHintLead, w.outfitUniqueLead, w.outfitUniqueTail, hint, seed, other);
  }

  /** The background clause follows the same policy. */
  lemma BackgroundClausePolicy(hint: string, seed: nat, other: nat)
    ensures hint != "" ==> Contains(BackgroundClause(ImageTexts, hint, seed), Quoted(hint))
    ensures hint != "" ==> BackgroundClause(ImageTexts, hint, seed) == BackgroundClause(ImageTexts, hint, other)
    ensures hint == "" ==> ImageTexts.backgroundUniqueLead + SeedTag(seed) <= BackgroundClause(ImageTexts, hint, seed)
    ensures hint == "" && seed != other ==> BackgroundClause(ImageTexts, hint, seed) != BackgroundClause(ImageTexts, hint, other)
  {
    var w := ImageTexts;
    ClausePolicy(w.backgroundHintLead, w.backgroundUniqueLead, w.backgroundUniqueTail, hint, seed, other);
  }

  /** The opening rule: the exact pixel size, then the aspect ratio it corresponds to. */
  function OpeningRule(w: ImageWording, a: AspectRatio): string
  {
    w.dimensionRule + Dimensions(a) + w.ratioLead + AspectRatioText(a) + w.ruleClose
  }

  /** "seed value <seed>". */
  function SeedValue(seed: nat): string
  {
    "seed value " + Decimal(seed)
  }

  /** The sentence of the Variation line that names the seed. */
  function VariationPhrase(seed: nat): string
  {
    "The " + SeedValue(seed) + " is provided"
  }

  lemma VariationPhraseNamesSeed(seed: nat)
    ensures OccursAt(VariationPhrase(seed), "seed value " + Decimal(seed) + " is provided", 4)
  {
    var t := SeedValue(seed) + " is provided";
    assert VariationPhrase(seed) == "The " + t;
    OccursAtEnd("The ", t);
  }

  /** The closing reminder, which repeats the pixel size. */
  function FinalReminder(a: AspectRatio): string
  {
    "EXACTLY " + Dimensions(a) + ". No exceptions."
  }

  /** The pieces of the image prompt in template order. */
  function ImagePieces(w: ImageWording, a: AspectRatio, outfit: string, background: string, seed: nat): seq<string>
  {
    [OpeningRule(w, a), w.brief, OutfitClause(w, outfit, seed), "\n", BackgroundClause(w, background, seed),
     w.styleLead, VariationPhrase(seed), w.variationTail, FinalReminder(a)]
  }

  /** `imagePrompt` in a given wording. */
  function ImagePromptIn(w: ImageWording, a: AspectRatio, outfit: string, background: string, seed: nat): string
  {
    Concat(ImagePieces(w, a, outfit, background, seed))
  }

  /** `imagePrompt`: the instruction sent with the two reference pictures. */
  function ImagePrompt(a: AspectRatio, outfit: string, background: string, seed: nat): string
  {
    ImagePromptIn(ImageTexts, a, outfit, background, seed)
  }

  lemma ImagePromptDimensionsIn(w: ImageWording, a: AspectRatio, outfit: string, background: string, seed: nat)
    ensures w.dimensionRule + Dimensions(a) <= ImagePromptIn(w, a, outfit, background, seed)
    ensures Contains(ImagePromptIn(w, a, outfit, background, seed), AspectRatioText(a))
    ensures EndsWith(ImagePromptIn(w, a, outfit, background, seed), "EXACTLY " + Dimensions(a) + ". No exceptions.")
  {
    var parts := ImagePieces(w, a, outfit, background, seed);
    var p := Concat(parts);
    ConcatPieceAt(parts, 0);
    assert parts[..0] == [];
    ConcatEndsWithLast(parts);
    var x, ratio := w.dimensionRule + Dimensions(a), AspectRatioText(a);
    OccursSelf(x);
    OccursExtend(x, x, 0, w.ratioLead);
    OccursExtend(x + w.ratioLead, x, 0, ratio);
    OccursExtend(x + w.ratioLead + ratio, x, 0, w.ruleClose);
    OccursWithin(p, OpeningRule(w, a), 0, x, 0);
    OccursAtEnd(x + w.ratioLead, ratio);
    OccursExtend(x + w.ratioLead + ratio, ratio, |x + w.ratioLead|, w.ruleClose);
    OccursWithin(p, OpeningRule(w, a), 0, ratio, |x + w.ratioLead|);
  }

  /** The image prompt opens with the exact pixel size, contains the aspect
      ratio, and ends by repeating the pixel size, whatever the hints and the
      seed. */
  lemma ImagePromptStatesDimensions(a: AspectRatio, outfit: string, background: string, seed: nat)
    ensures ImageTexts.dimensionRule + Dimensions(a) <= ImagePrompt(a, outfit, background, seed)
    ensures Contains(ImagePrompt(a, outfit, background, seed), AspectRatioText(a))
    ensures EndsWith(ImagePrompt(a, outfit, background, seed), "EXACTLY " + Dimensions(a) + ". No exceptions.")
  {
    ImagePromptDimensionsIn(ImageTexts, a, outfit, background, seed);
  }

  lemma ImagePromptNamesSeedIn(w: ImageWording, a: AspectRatio, outfit: string, background: string, seed: nat)
    ensures Contains(ImagePromptIn(w, a, outfit, background, seed), SeedValue(seed))
  {
    var parts := ImagePieces(w, a, outfit, background, seed);
    ConcatPieceAt(parts, 6);
    var t := SeedValue(seed);
    OccursAtEnd("The ", t);
    OccursExtend("The " + t, t, 4, " is provided");
    OccursWithin(Concat(parts), parts[6], |Concat(parts[..6])|, t, 4);
  }

  /** The Variation line names the seed, whatever the hints. */
  lemma ImagePromptNamesSeed(a: AspectRatio, outfit: string, background: string, seed: nat)
    ensures Contains(ImagePrompt(a, outfit, background, seed), "seed value " + Decimal(seed))
  {
    ImagePromptNamesSeedIn(ImageTexts, a, outfit, background, seed);
  }

  lemma ImagePromptClauseOrderIn(w: ImageWording, a: AspectRatio, outfit: string, background: string, seed: nat)
    ensures exists i: nat, j: nat ::
      OccursAt(ImagePromptIn(w, a, outfit, background, seed), OutfitClause(w, outfit, seed), i) &&
      OccursAt(ImagePromptIn(w, a, outfit, background, seed), BackgroundClause(w, background, seed), j) &&
      i + |OutfitClause(w, outfit, seed)| < j
  {
    var parts := ImagePieces(w, a, outfit, background, seed);
    ConcatPieceAt(parts, 2);
    ConcatPieceAt(parts, 4);
    ConcatTakeNext(parts, 2);
    ConcatTakeNext(parts, 3);
    var i, j := |Concat(parts[..2])|, |Concat(parts[..4])|;
    assert j == i + |parts[2]| + 1;
    assert OccursAt(ImagePromptIn(w, a, outfit, background, seed), OutfitClause(w, outfit, seed), i);
    assert OccursAt(ImagePromptIn(w, a, outfit, background, seed), BackgroundClause(w, background, seed), j);
  }

  /** Both clauses appear in the image prompt, the outfit clause before the
      background clause. */
  lemma ImagePromptClauseOrder(a: AspectRatio, outfit: string, background: string, seed: nat)
    ensures exists i: nat, j: nat ::
      OccursAt(ImagePrompt(a, outfit, background, seed), OutfitClause(ImageTexts, outfit, seed), i) &&
      OccursAt(ImagePrompt(a, outfit, background, seed), BackgroundClause(ImageTexts, background, seed), j) &&
      i + |OutfitClause(ImageTexts, outfit, seed)| < j
  {
    ImagePromptClauseOrderIn(ImageTexts, a, outfit, background, seed);
    var p := ImagePromptIn(ImageTexts, a, outfit, background, seed);
    var i: nat, j: nat :| OccursAt(p, OutfitClause(ImageTexts, outfit, seed), i) &&
      OccursAt(p, BackgroundClause(ImageTexts, background, seed), j) && i + |OutfitClause(ImageTexts, outfit, seed)| < j;
    assert p == ImagePrompt(a, outfit, background, seed);
  }

  lemma ImagePromptQuotesHintsIn(w: ImageWording, a: AspectRatio, outfit: string, background: string, seed: nat)
    ensures outfit != "" ==> Contains(ImagePromptIn(w, a, outfit, background, seed), Quoted(outfit))
    ensures background != "" ==> Contains(ImagePromptIn(w, a, outfit, background, seed), Quoted(background))
  {
    var parts := ImagePieces(w, a, outfit, background, seed);
    var p := Concat(parts);
    ConcatPieceAt(parts, 2);
    ConcatPieceAt(parts, 4);
    ClausePolicy(w.outfitHintLead, w.outfitUniqueLead, w.outfitUniqueTail, outfit, seed, seed);
    ClausePolicy(w.backgroundHintLead, w.backgroundUniqueLead, w.backgroundUniqueTail, background, seed, seed);
    if outfit != "" {
      OccursWithin(p, parts[2], |Concat(parts[..2])|, Quoted(outfit), |w.outfitHintLead|);
    }
    if background != "" {
      OccursWithin(p, parts[4], |Concat(parts[..4])|, Quoted(background), |w.backgroundHintLead|);
    }
  }

  /** A non-empty outfit or background hint appears verbatim, in quotes, in
      the image prompt. */
  lemma ImagePromptQuotesHints(a: AspectRatio, outfit: string, background: string, seed: nat)
    ensures outfit != "" ==> Contains(ImagePrompt(a, outfit, background, seed), Quoted(outfit))
    ensures background != "" ==> Contains(ImagePrompt(a, outfit, background, seed), Quoted(background))
  {
    ImagePromptQuotesHintsIn(ImageTexts, a, outfit, background, seed);
  }

  /** A clause written without a hint, at the same place of two equal
      concatenations, names the same seed in both. */
  lemma UniqueClauseSeed(ps: seq<string>, qs: seq<string>, i: nat, hintLead: string, uniqueLead: string, uniqueTail: string, s1: nat, s2: nat)
    requires i < |ps| && i < |qs| && ps[..i] == qs[..i] && Concat(ps) == Concat(qs)
    requires ps[i] == Clause(hintLead, uniqueLead, uniqueTail, "", s1)
    requires qs[i] == Clause(hintLead, uniqueLead, uniqueTail, "", s2)
    ensures s1 == s2
  {
    ClausePolicy(hintLead, uniqueLead, uniqueTail, "", s1, s2);
    ClausePolicy(hintLead, uniqueLead, uniqueTail, "", s2, s1);
    NumberInSamePiece(ps, qs, i, |uniqueLead|, "(seed ", s1, s2, ")");
  }

  lemma ImagePromptInjectiveIn(w: ImageWording, a: AspectRatio, outfit: string, background: string, s1: nat, s2: nat)
    requires ImagePromptIn(w, a, outfit, background, s1) == ImagePromptIn(w, a, outfit, background, s2)
    ensures s1 == s2
  {
    var parts1, parts2 := ImagePieces(w, a, outfit, background, s1), ImagePieces(w, a, outfit, background, s2);
    if outfit == "" {
      assert parts1[..2] == parts2[..2];
      UniqueClauseSeed(parts1, parts2, 2, w.outfitHintLead, w.outfitUniqueLead, w.outfitUniqueTail, s1, s2);
    } else if background == "" {
      ClausePolicy(w.outfitHintLead, w.outfitUniqueLead, w.outfitUniqueTail, outfit, s1, s2);
      assert parts1[..4] == parts2[..4];
      UniqueClauseSeed(parts1, parts2, 4, w.backgroundHintLead, w.backgroundUniqueLead, w.backgroundUniqueTail, s1, s2);
    } else {
      ClausePolicy(w.outfitHintLead, w.outfitUniqueLead, w.outfitUniqueTail, outfit, s1, s2);
      ClausePolicy(w.backgroundHintLead, w.backgroundUniqueLead, w.backgroundUniqueTail, background, s1, s2);
      assert parts1[..6] == parts2[..6];
      VariationPhraseNamesSeed(s1);
      VariationPhraseNamesSeed(s2);
      NumberInSamePiece(parts1, parts2, 6, 4, "seed value ", s1, s2, " is provided");
    }
  }

  /** Different seeds give different image prompts, whatever the hints: the
      seed appears in the outfit clause, else in the background clause, and
      always in the Variation line. */
  lemma ImagePromptInjective(a: AspectRatio, outfit: string, background: string, s1: nat, s2: nat)
    requires ImagePrompt(a, outfit, background, s1) == ImagePrompt(a, outfit, background, s2)
    ensures s1 == s2
  {
    ImagePromptInjectiveIn(ImageTexts, a, outfit, background, s1, s2);
  }

  // ---------------------------------------------------------------------------
  // The text-and-metadata prompt

  /** `voiceDescription`. */
  function VoiceDescription(v: Voice): string
  {
    if v == Male then "a male" else "a female"
  }

  /** `regionDescription`. */
  function RegionDescription(r: Region): string
  {
    if r == South then "Southern Vietnamese" else "Northern Vietnamese"
  }

  /** The fixed texts of the text-and-metadata prompt, in the order they appear. */
  datatype TextWording = TextWording(
    intro: string,                // the task statement, up to the seed heading
    descriptionTask: string,      // the description task, up to the product context
    productInfoLead: string,      // the product context with product information, up to the quoted text
    productInfoMiddle: string,    // ... between the quote and the seed tag
    productInfoTail: string,      // ... after the seed tag
    analyzeProduct: string,       // the product context without product information
    animationTask: string,        // the animation-prompt task, up to the duration rule
    audioLead: string,            // the audio rule, up to the speaker
    tail: string)                 // the closing rules

  /** The wording of services/geminiService.ts:27-46. */
  const TextTexts := TextWording(
    "Based on the unique qualities "
      + "of the provided product image, "
      + "the generated promotional "
      + "image, and the user's product "
      + "info, perform two tasks and "
      + "return the result as a single "
      + "JSON object with keys \"description\" "
      + "and \"animationPrompt\".\n"
      + "\n",
    " Your response must be COMPLETELY "
      + "UNIQUE and DIFFERENT from "
      + "any previous attempts. Create "
      + "a fresh, new idea for both "
      + "the description and the camera "
      + "movement.\n\n1.  **description**: "
      + "Write a concise promotional "
      + "description in Vietnamese. "
      + "The length MUST be short, "
      + "between 15 and 25 words. This "
      + "is a strict limit for an 8-second "
      + "voiceover. CRITICAL RULE: "
      + "The description text MUST "
      + "NOT contain any special characters "
      + "like hyphens (-), asterisks "
      + "(*), quotes (\", '), or any "
      + "other punctuation. Use simple, "
      + "plain Vietnamese text only. "
      + "This will be spoken directly "
      + "by the text-to-speech engine, "
      + "so clarity is essential. ",
    "Critically, you MUST use the "
      + "following user-provided \"Product "
      + "Information\" as the primary "
      + "inspiration for the description: ",
    ". For this specific generation ",
    ", you MUST create a UNIQUE "
      + "and CREATIVE variation that "
      + "has NOT been generated before. "
      + "Focus on a different feature "
      + "or angle.",
    "Analyze the product image "
      + "to understand its key features "
      + "and create an appealing, UNIQUE "
      + "description.",
    "\n\n2.  **animationPrompt**: "
      + "Build a detailed video prompt "
      + "as a structured JSON object "
      + "for a video generation model "
      + "like VEO 3.1. This prompt "
      + "must create a vivid and dynamic "
      + "8-second TikTok video in an "
      + "\"Outfit Showcase\" style, with "
      + "a special focus on lively "
      + "and engaging camera movements.\n"
      + "    - The JSON object must "
      + "contain the following keys: "
      + "\"sceneDescription\", \"characterAction\", "
      + "\"cameraMovement\", \"lighting\", "
      + "\"facialExpression\", \"videoDuration\", "
      + "and \"audioDescription\".\n"
      + "    - \"cameraMovement\" MUST "
      + "be a unique, dynamic, and "
      + "creative camera movement. "
      + "DO NOT use static shots or "
      + "repeat previous camera movements.\n"
      + "    - ",
    "\n    - \"audioDescription\" "
      + "must state that the person "
      + "speaks the Vietnamese \"description\" "
      + "you created, specifying it's ",
    "\n    - All other fields must "
      + "be filled with creative, detailed "
      + "descriptions in English based "
      + "on the generated image.")

  /** The fixed duration rule of the animation prompt. */
  const DurationInstruction := "\"videoDuration\" must be exactly \"8 seconds\"."

  /** `productInfoContext`: the user's product text as the main inspiration,
      tagged with the seed, or, when there is none, the fixed sentence. */
  function ProductInfoContext(w: TextWording, info: string, seed: nat): string
  {
    if info != "" then w.productInfoLead + Quoted(info) + w.productInfoMiddle + SeedTag(seed) + w.productInfoTail
    else w.analyzeProduct
  }

  lemma ProductInfoContextIn(w: TextWording, info: string, seed: nat)
    ensures info != "" ==>
      var c := ProductInfoContext(w, info, seed);
      OccursAt(c, Quoted(info), |w.productInfoLead|) &&
      OccursAt(c, SeedTag(seed), |w.productInfoLead| + |Quoted(info)| + |w.productInfoMiddle|)
  {
    if info != "" {
      var l, q, m, t := w.productInfoLead, Quoted(info), w.productInfoMiddle, SeedTag(seed);
      OccursAtEnd(l, q);
      OccursExtend(l + q, q, |l|, m);
      OccursExtend(l + q + m, q, |l|, t);
      OccursExtend(l + q + m + t, q, |l|, w.productInfoTail);
      OccursAtEnd(l + q + m, t);
      OccursExtend(l + q + m + t, t, |l + q + m|, w.productInfoTail);
    }
  }

  /** Non-empty product information is quoted verbatim, the quote followed by
      this seed's tag; empty product information gives the fixed sentence,
      which names no seed. */
  lemma ProductInfoContextPolicy(info: string, seed: nat, other: nat)
    ensures info != "" ==>
      var c := ProductInfoContext(TextTexts, info, seed);
      exists i: nat, j: nat :: OccursAt(c, Quoted(info), i) && OccursAt(c, SeedTag(seed), j) && i + |Quoted(info)| <= j
    ensures info == "" ==> ProductInfoContext(TextTexts, info, seed) == TextTexts.analyzeProduct == ProductInfoContext(TextTexts, info, other)
  {
    ProductInfoContextIn(TextTexts, info, seed);
  }

  /** "IMPORTANT for seed <seed>:". */
  function SeedImportance(seed: nat): string
  {
    "IMPORTANT for seed " + Decimal(seed) + ":"
  }

  /** The audioDescription rule: who speaks, and with which accent. */
  function AudioInstruction(v: Voice, r: Region): string
  {
    "performed by " + VoiceDescription(v) + " with a " + RegionDescription(r) + " accent."
  }

  /** The pieces of the text prompt in template order. */
  function TextPieces(w: TextWording, v: Voice, r: Region, info: string, seed: nat): seq<string>
  {
    [w.intro, SeedImportance(seed), w.descriptionTask, ProductInfoContext(w, info, seed),
     w.animationTask, DurationInstruction, w.audioLead, AudioInstruction(v, r), w.tail]
  }

  function TextPromptIn(w: TextWording, v: Voice, r: Region, info: string, seed: nat): string
  {
    Concat(TextPieces(w, v, r, info, seed))
  }

  /** The prompt of the text-and-metadata call. */
  function TextPrompt(v: Voice, r: Region, info: string, seed: nat): string
  {
    TextPromptIn(TextTexts, v, r, info, seed)
  }

  lemma AppendFive(x: string, a: string, b: string, c: string, d: string, e: string)
    ensures x + (a + b + c + d + e) == x + a + b + c + d + e
  {
  }

  lemma TextPromptContentsIn(w: TextWording, v: Voice, r: Region, info: string, seed: nat)
    ensures Contains(TextPromptIn(w, v, r, info, seed), SeedImportance(seed))
    ensures Contains(TextPromptIn(w, v, r, info, seed), ProductInfoContext(w, info, seed))
    ensures Contains(TextPromptIn(w, v, r, info, seed),
      DurationInstruction + w.audioLead + "performed by " + VoiceDescription(v) + " with a " + RegionDescription(r) + " accent.")
  {
    var parts := TextPieces(w, v, r, info, seed);
    ConcatPieceAt(parts, 1);
    ConcatPieceAt(parts, 3);
    ConcatRun3At(parts, 5);
    AppendFive(DurationInstruction + w.audioLead, "performed by ", VoiceDescription(v), " with a ", RegionDescription(r), " accent.");
  }

  /** The text prompt names the seed, carries the product-information context,
      and has the fixed 8-second duration rule right before the audio rule
      that names the voice and the accent. */
  lemma TextPromptContents(v: Voice, r: Region, info: string, seed: nat)
    ensures Contains(TextPrompt(v, r, info, seed), SeedImportance(seed))
    ensures Contains(TextPrompt(v, r, info, seed), ProductInfoContext(TextTexts, info, seed))
    ensures Contains(TextPrompt(v, r, info, seed),
      DurationInstruction + TextTexts.audioLead + "performed by " + VoiceDescription(v) + " with a " + RegionDescription(r) + " accent.")
  {
    TextPromptContentsIn(TextTexts, v, r, info, seed);
  }

  /** Where the audio rule writes the voice's distinctive letter and the
      accent's first letter. */
  lemma AudioInstructionChars(v: Voice, r: Region)
    ensures |AudioInstruction(v, r)| > 13 + |VoiceDescription(v)| + 8
    ensures AudioInstruction(v, r)[15] == VoiceDescription(v)[2]
    ensures AudioInstruction(v, r)[13 + |VoiceDescription(v)| + 8] == RegionDescription(r)[0]
  {
  }

  lemma TextPromptReflectsVoiceAndRegionIn(w: TextWording, v1: Voice, r1: Region, v2: Voice, r2: Region, info: string, seed: nat)
    requires TextPromptIn(w, v1, r1, info, seed) == TextPromptIn(w, v2, r2, info, seed)
    ensures v1 == v2 && r1 == r2
  {
    var parts1, parts2 := TextPieces(w, v1, r1, info, seed), TextPieces(w, v2, r2, info, seed);
    assert parts1[..7] == parts2[..7];
    AudioInstructionChars(v1, r1);
    AudioInstructionChars(v2, r2);
    CharInSamePiece(parts1, parts2, 7, 15);
    assert VoiceDescription(v1)[2] == VoiceDescription(v2)[2];
    CharInSamePiece(parts1, parts2, 7, 13 + |VoiceDescription(v1)| + 8);
  }

  /** The text prompt determines the voice and the region it was built for. */
  lemma TextPromptReflectsVoiceAndRegion(v1: Voice, r1: Region, v2: Voice, r2: Region, info: string, seed: nat)
    requires TextPrompt(v1, r1, info, seed) == TextPrompt(v2, r2, info, seed)
    ensures v1 == v2 && r1 == r2
  {
    TextPromptReflectsVoiceAndRegionIn(TextTexts, v1, r1, v2, r2, info, seed);
  }

  lemma TextPromptInjectiveIn(w: TextWording, v: Voice, r: Region, info: string, s1: nat, s2: nat)
    requires TextPromptIn(w, v, r, info, s1) == TextPromptIn(w, v, r, info, s2)
    ensures s1 == s2
  {
    var parts1, parts2 := TextPieces(w, v, r, info, s1), TextPieces(w, v, r, info, s2);
    assert parts1[..1] == parts2[..1];
    OccursSelf(SeedImportance(s1));
    OccursSelf(SeedImportance(s2));
    NumberInSamePiece(parts1, parts2, 1, 0, "IMPORTANT for seed ", s1, s2, ":");
  }

  /** Different seeds give different text prompts. */
  lemma TextPromptInjective(v: Voice, r: Region, info: string, s1: nat, s2: nat)
    requires TextPrompt(v, r, info, s1) == TextPrompt(v, r, info, s2)
    ensures s1 == s2
  {
    TextPromptInjectiveIn(TextTexts, v, r, info, s1, s2);
  }

  // ---------------------------------------------------------------------------
  // The response schema

  /** A JSON schema of the two shapes the response schema uses (the per-field
      descriptions addressed to the model are not modelled). */
  datatype Schema = StringSchema | ObjectSchema(properties: seq<Property>, required: seq<string>)
  datatype Property = Property(name: string, schema: Schema)

  /** The field names of PromptSet and of AnimationPrompt, in declaration order. */
  const PromptSetKeys: seq<string> := ["description", "animationPrompt"]
  const AnimationPromptKeys: seq<string> :=
    ["sceneDescription", "characterAction", "cameraMovement", "lighting",
     "facialExpression", "videoDuration", "audioDescription"]

  function PropertyNames(ps: seq<Property>): (names: seq<string>)
    ensures |names| == |ps| && forall i :: 0 <= i < |ps| ==> names[i] == ps[i].name
  {
    if ps == [] then [] else [ps[0].name] + PropertyNames(ps[1..])
  }

  /** `responseSchema`: an object holding a string description and an
      animation-prompt object of seven strings. */
  function ResponseSchema(): Schema
  {
    ObjectSchema(
      [ Property("description", StringSchema),
        Property("animationPrompt", ObjectSchema(
          [ Property("sceneDescription", StringSchema),
            Property("characterAction", StringSchema),
            Property("cameraMovement", StringSchema),
            Property("lighting", StringSchema),
            Property("facialExpression", StringSchema),
            Property("videoDuration", StringSchema),
            Property("audioDescription", StringSchema) ],
          ["sceneDescription", "characterAction", "cameraMovement", "lighting",
           "facialExpression", "videoDuration", "audioDescription"])) ],
      ["description", "animationPrompt"])
  }

  /** The schema requires exactly the two PromptSet keys at top level and
      exactly the seven AnimationPrompt keys below; every required key is
      declared and every declared key is required; every leaf is a string. */
  lemma ResponseSchemaKeys()
    ensures ResponseSchema().ObjectSchema?
    ensures ResponseSchema().required == PropertyNames(ResponseSchema().properties) == PromptSetKeys
    ensures ResponseSchema().properties[0].schema == StringSchema
    ensures var anim := ResponseSchema().properties[1].schema;
      anim.ObjectSchema? &&
      anim.required == PropertyNames(anim.properties) == AnimationPromptKeys &&
      forall p :: p in anim.properties ==> p.schema == StringSchema
  {
  }
}
