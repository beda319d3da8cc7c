/** The records the application passes around, and the closed option sets of its
    form. Aspect ratio, voice and region are string unions in the source; here
    each is an enumeration with the exact text it stands for. */
module Types {

  datatype Option<+T> = None | Some(value: T)

  /** '9:16' (portrait) or '16:9' (landscape). */
  datatype AspectRatio = Portrait | Landscape

  /** 'male' or 'female'. */
  datatype Voice = Male | Female

  /** 'south' or 'north'. */
  datatype Region = South | North

  /** The text of the aspect-ratio choice, as the form and the prompt write it. */
  function AspectRatioText(a: AspectRatio): string
  {
    match a
    case Portrait => "9:16"
    case Landscape => "16:9"
  }

  /** The structured video prompt: seven string fields. */
  datatype AnimationPrompt = AnimationPrompt(
    sceneDescription: string,
    characterAction: string,
    cameraMovement: string,
    lighting: string,
    facialExpression: string,
    videoDuration: string,
    audioDescription: string)

  /** One voiceover description with its animation prompt. */
  datatype PromptSet = PromptSet(description: string, animationPrompt: AnimationPrompt)

  /** What one unit of generation returns before the page tags it with an id. */
  datatype SingleResult = SingleResult(imageUrl: string, promptSets: seq<PromptSet>)

  /** A result as the page keeps it. */
  datatype GeneratedResult = GeneratedResult(id: string, imageUrl: string, promptSets: seq<PromptSet>)

  /** An uploaded picture: its preview URL and its base64 payload (the file object is not modelled). */
  datatype ImageData = ImageData(previewUrl: string, base64: string)

  /** A value thrown by an awaited call: an Error object with its message, or anything else. */
  datatype Thrown = ErrorObject(message: string) | NonErrorValue

  /** How a promise settles. */
  datatype Outcome<+T> = Resolved(value: T) | Rejected(thrown: Thrown)

  /** The user's choices for one batch, as handed to the generator. */
  datatype Options = Options(
    modelImage: string,
    productImage: string,
    aspectRatio: AspectRatio,
    voice: Voice,
    region: Region,
    outfitSuggestion: string,
    backgroundSuggestion: string,
    productInfo: string)
}
