/** The calls services/geminiService.ts makes for one batch. The SDK is an
    oracle: a `Generator` answers each request with a settled outcome, an
    image response for the image request and a parsed `PromptSet` for the
    text request. A request is named by what it is built from (`Request`);
    `ImageCall` and `TextCall` give what it sends, and that differs between
    any two requests of one batch, so the oracle may as well be keyed by the
    name.
    A unit of generation (one seed) asks for an image, takes the first
    inline-data part of the answer, and asks for the text and animation
    prompt about that image; the batch runs one unit per seed and settles
    like `Promise.all`. */
module Generation {
  import opened Types
  import opened Strings
  import opened Prompts

  // ---------------------------------------------------------------------------
  // Requests and responses

  /** Inline binary data, base64-encoded, with its MIME type. */
  datatype Blob = Blob(data: string, mimeType: string)

  /** A part of a request or a response: optional text, optional inline data. */
  datatype Part = Part(text: Option<string>, inlineData: Option<Blob>)

  function TextPart(t: string): Part
  {
    Part(Some(t), None)
  }

  function InlinePart(b: Blob): Part
  {
    Part(None, Some(b))
  }

  /** The image response, reduced to the path the code reads:
      `candidates?.[0]?.content?.parts`. */
  datatype Content = Content(parts: Option<seq<Part>>)
  datatype Candidate = Candidate(content: Option<Content>)
  datatype ImageResponse = ImageResponse(candidates: Option<seq<Candidate>>)

  /** What a request asks for: an image back, or JSON text under a schema. */
  datatype Config = ImageModality | JsonResponse(schema: Schema)

  /** A request: the image request of the unit with a seed, or its text
      request about the picture it generated. */
  datatype Request = ImageRequest(options: Options, seed: nat) | TextRequest(options: Options, seed: nat, generated: string)

  /** The SDK seen from the program: how it settles each request. */
  datatype Generator = Generator(image: Request -> Outcome<ImageResponse>, text: Request -> Outcome<PromptSet>)

  /** A unit's outcome together with the requests it made, in order. */
  datatype Run<+T> = Run(outcome: Outcome<T>, calls: seq<Request>)

  /** The MIME type the code declares for every uploaded picture. */
  const Jpeg := "image/jpeg"

  /** The message of the error thrown when the image answer has no picture. */
  const NoImageMessage := "Không thể tạo ảnh từ AI."

  /** What is sent over the wire for a request: its parts and its configuration. */
  datatype Call = Call(parts: seq<Part>, config: Config)

  /** What the image request of the unit with this seed sends: the image
      prompt, then the person's picture, then the product's, asking for a
      picture back. */
  function ImageCall(o: Options, seed: nat): Call
  {
    Call([TextPart(ImagePrompt(o.aspectRatio, o.outfitSuggestion, o.backgroundSuggestion, seed)),
          InlinePart(Blob(o.modelImage, Jpeg)),
          InlinePart(Blob(o.productImage, Jpeg))],
         ImageModality)
  }

  /** What the text request of the unit with this seed sends: the text prompt,
      then the labelled product picture and generated picture, asking for JSON
      under the response schema. */
  function TextCall(o: Options, seed: nat, generated: string): Call
  {
    Call([TextPart(TextPrompt(o.voice, o.region, o.productInfo, seed)),
          TextPart("Product Image:"),
          InlinePart(Blob(o.productImage, Jpeg)),
          TextPart("Generated Promotional Image with Person:"),
          InlinePart(Blob(generated, Jpeg))],
         JsonResponse(ResponseSchema()))
  }

  /** Within one batch, different seeds send different image requests. */
  lemma ImageCallIdentifiesSeed(o: Options, s1: nat, s2: nat)
    requires ImageCall(o, s1) == ImageCall(o, s2)
    ensures s1 == s2
  {
    assert ImageCall(o, s1).parts[0].text == ImageCall(o, s2).parts[0].text;
    ImagePromptInjective(o.aspectRatio, o.outfitSuggestion, o.backgroundSuggestion, s1, s2);
  }

  /** Within one batch, a text request tells which seed and which generated
      picture it is about. */
  lemma TextCallIdentifiesSeedAndPicture(o: Options, s1: nat, s2: nat, d1: string, d2: string)
    requires TextCall(o, s1, d1) == TextCall(o, s2, d2)
    ensures s1 == s2 && d1 == d2
  {
    var p1, p2 := TextCall(o, s1, d1).parts, TextCall(o, s2, d2).parts;
    assert p1[0].text == p2[0].text && p1[4].inlineData == p2[4].inlineData;
    TextPromptInjective(o.voice, o.region, o.productInfo, s1, s2);
  }

  // ---------------------------------------------------------------------------
  // Extracting the picture

  /** The parts of the first candidate's content; none when any step of the
      optional chain is missing. */
  function ResponseParts(r: ImageResponse): seq<Part>
  {
    if r.candidates.Some? && |r.candidates.value| > 0
       && r.candidates.value[0].content.Some? && r.candidates.value[0].content.value.parts.Some?
    then r.candidates.value[0].content.value.parts.value
    else []
  }

  /** Part `k` is the first part that carries inline data. */
  predicate FirstInline(parts: seq<Part>, k: nat)
  {
    k < |parts| && parts[k].inlineData.Some? && forall j :: 0 <= j < k ==> parts[j].inlineData.None?
  }

  /** `parts.find(p => p.inlineData)`, as an index. */
  function FindInline(parts: seq<Part>): (r: Option<nat>)
    ensures r.Some? ==> FirstInline(parts, r.value)
    ensures r.None? <==> forall j :: 0 <= j < |parts| ==> parts[j].inlineData.None?
  {
    if parts == [] then None
    else if parts[0].inlineData.Some? then Some(0)
    else
      match FindInline(parts[1..])
      case None => None
      case Some(k) => Some(k + 1)
  }

  /** The picture the code takes from an image response, if any. */
  function ImageOf(r: ImageResponse): Option<Blob>
  {
    match FindInline(ResponseParts(r))
    case None => None
    case Some(k) => ResponseParts(r)[k].inlineData
  }

  /** `data:${mimeType};base64,${data}`. */
  function DataUri(b: Blob): string
  {
    "data:" + b.mimeType + ";base64," + b.data
  }

  /** What follows the first occurrence of `c` in `s` (all of `s` when there
      is none). The uploader's `split(',')[1]` reads the text between the
      first and the second comma; for a base64 payload, which has no comma,
      that is the same text. */
  function AfterFirst(s: string, c: char): string
  {
    if s == [] then []
    else if s[0] == c then s[1..]
    else AfterFirst(s[1..], c)
  }

  lemma {:induction false} AfterFirstSkipsPrefix(x: string, c: char, y: string)
    requires c !in x
    ensures AfterFirst(x + [c] + y, c) == y
  {
    if x == [] {
      assert x + [c] + y == [c] + y;
    } else {
      assert (x + [c] + y)[1..] == x[1..] + [c] + y;
      AfterFirstSkipsPrefix(x[1..], c, y);
    }
  }

  /** A data URI starts with the declared MIME type and carries the payload
      whole after the first comma, as long as the MIME type has no comma. */
  lemma DataUriRoundTrip(b: Blob)
    ensures "data:" + b.mimeType + ";base64," <= DataUri(b)
    ensures EndsWith(DataUri(b), b.data)
    ensures ',' !in b.mimeType ==> AfterFirst(DataUri(b), ',') == b.data
  {
    var lead := "data:" + b.mimeType + ";base64";
    assert DataUri(b) == lead + [','] + b.data;
    assert (lead + [','] + b.data)[|lead + [',']|..] == b.data;
    if ',' !in b.mimeType {
      assert forall i :: 0 <= i < |lead| ==> lead[i] != ',' by {
        forall i | 0 <= i < |lead|
          ensures lead[i] != ','
        {
          if 5 <= i < 5 + |b.mimeType| {
            assert lead[i] == b.mimeType[i - 5];
          }
        }
      }
      AfterFirstSkipsPrefix(lead, ',', b.data);
    }
  }

  // ---------------------------------------------------------------------------
  // One unit of generation

  /** What the unit with this seed does and how it settles: the image request;
      a rejection passed on; the "no picture" error when the answer has no
      inline part; otherwise the text request about that picture, and a
      result holding the picture's data URI and the one prompt set. */
  function SingleResultRun(g: Generator, o: Options, seed: nat): Run<SingleResult>
  {
    var call := ImageRequest(o, seed);
    match g.image(call)
    case Rejected(e) => Run(Rejected(e), [call])
    case Resolved(response) =>
      match ImageOf(response)
      case None => Run(Rejected(ErrorObject(NoImageMessage)), [call])
      case Some(b) =>
        var text := TextRequest(o, seed, b.data);
        match g.text(text)
        case Rejected(e) => Run(Rejected(e), [call, text])
        case Resolved(promptSet) => Run(Resolved(SingleResult(DataUri(b), [promptSet])), [call, text])
  }

  /** `generateTextAndPromptSet`: one text request, settled by the oracle. */
  method GenerateTextAndPromptSet(g: Generator, o: Options, seed: nat, generated: string)
    returns (r: Outcome<PromptSet>, call: Request)
    ensures call == TextRequest(o, seed, generated) && r == g.text(call)
  {
    call := TextRequest(o, seed, generated);
    r := g.text(call);
  }

  /** `generateSingleResult`: the image request, the extraction, the text
      request, in sequence; a rejection ends the unit. */
  method GenerateSingleResult(g: Generator, o: Options, seed: nat)
    returns (r: Outcome<SingleResult>, calls: seq<Request>)
    ensures Run(r, calls) == SingleResultRun(g, o, seed)
  {
    var call := ImageRequest(o, seed);
    calls := [call];
    var response := g.image(call);
    if response.Rejected? {
      return Rejected(response.thrown), calls;
    }
    var image := ImageOf(response.value);
    if image.None? {
      return Rejected(ErrorObject(NoImageMessage)), calls;
    }
    var imageUrl := DataUri(image.value);
    var promptSet, textCall := GenerateTextAndPromptSet(g, o, seed, image.value.data);
    calls := calls + [textCall];
    if promptSet.Rejected? {
      return Rejected(promptSet.thrown), calls;
    }
    r := Resolved(SingleResult(imageUrl, [promptSet.value]));
  }

  /** A unit always starts with its own image request. A rejected image
      request or an answer with no inline part ends it with that rejection or
      the "no picture" error, and no text request is made. Otherwise the
      first inline part is the picture: the text request carries its data,
      and a success holds its data URI and exactly one prompt set, the one
      the text request returned. */
  lemma SingleResultUsesFirstImage(g: Generator, o: Options, seed: nat)
    ensures var run := SingleResultRun(g, o, seed);
      |run.calls| >= 1 && run.calls[0] == ImageRequest(o, seed)
    ensures var run, answer := SingleResultRun(g, o, seed), g.image(ImageRequest(o, seed));
      answer.Rejected? ==> run == Run(Rejected(answer.thrown), [ImageRequest(o, seed)])
    ensures var run, answer := SingleResultRun(g, o, seed), g.image(ImageRequest(o, seed));
      answer.Resolved? && (forall j :: 0 <= j < |ResponseParts(answer.value)| ==> ResponseParts(answer.value)[j].inlineData.None?) ==>
        run == Run(Rejected(ErrorObject(NoImageMessage)), [ImageRequest(o, seed)])
    ensures var run, answer := SingleResultRun(g, o, seed), g.image(ImageRequest(o, seed));
      forall k: nat :: answer.Resolved? && FirstInline(ResponseParts(answer.value), k) ==>
        var b := ResponseParts(answer.value)[k].inlineData.value;
        run.calls == [ImageRequest(o, seed), TextRequest(o, seed, b.data)] &&
        (run.outcome.Resolved? <==> g.text(run.calls[1]).Resolved?) &&
        (run.outcome.Resolved? ==> run.outcome.value == SingleResult(DataUri(b), [g.text(run.calls[1]).value])) &&
        (run.outcome.Rejected? ==> run.outcome.thrown == g.text(run.calls[1]).thrown)
  {
    var answer := g.image(ImageRequest(o, seed));
    if answer.Resolved? {
      var parts := ResponseParts(answer.value);
      forall k: nat | FirstInline(parts, k)
        ensures FindInline(parts) == Some(k)
      {
        assert parts[k].inlineData.Some?;
      }
    }
  }

  // ---------------------------------------------------------------------------
  // The batch

  /** `Promise.all`: every value in order when all settle successfully,
      otherwise a rejection. Which rejection wins depends on timing; here it
      is the one of the lowest index. */
  function PromiseAll<T>(outcomes: seq<Outcome<T>>): (r: Outcome<seq<T>>)
    ensures r.Resolved? <==> forall i :: 0 <= i < |outcomes| ==> outcomes[i].Resolved?
    ensures r.Resolved? ==> |r.value| == |outcomes| && forall i :: 0 <= i < |outcomes| ==> outcomes[i] == Resolved(r.value[i])
    ensures r.Rejected? ==> exists i :: 0 <= i < |outcomes| && outcomes[i] == Rejected(r.thrown)
  {
    if outcomes == [] then Resolved([])
    else
      match outcomes[0]
      case Rejected(e) => Rejected(e)
      case Resolved(v) =>
        match PromiseAll(outcomes[1..])
        case Rejected(e) =>
          assert exists i :: 0 <= i < |outcomes[1..]| && outcomes[1..][i] == Rejected(e);
          var i :| 0 <= i < |outcomes[1..]| && outcomes[1..][i] == Rejected(e);
          assert outcomes[i + 1] == Rejected(e);
          Rejected(e)
        case Resolved(vs) =>
          assert forall i :: 1 <= i < |outcomes| ==> outcomes[i] == outcomes[1..][i - 1];
          Resolved([v] + vs)
  }

  /** How the units with seeds 0 to n - 1 settle, in seed order. */
  function UnitOutcomes(g: Generator, o: Options, n: nat): (outcomes: seq<Outcome<SingleResult>>)
    ensures |outcomes| == n
    ensures forall i :: 0 <= i < n ==> outcomes[i] == SingleResultRun(g, o, i).outcome
  {
    if n == 0 then [] else UnitOutcomes(g, o, n - 1) + [SingleResultRun(g, o, n - 1).outcome]
  }

  /** `generateAllContent`: starts the units with seeds 0 to n - 1 and settles
      them together. `units[i]` is the list of requests unit `i` made. */
  method GenerateAllContent(g: Generator, o: Options, n: nat)
    returns (r: Outcome<seq<SingleResult>>, units: seq<seq<Request>>)
    ensures |units| == n
    ensures forall i :: 0 <= i < n ==> units[i] == SingleResultRun(g, o, i).calls
    ensures r == PromiseAll(UnitOutcomes(g, o, n))
  {
    var outcomes: seq<Outcome<SingleResult>> := [];
    units := [];
    for i := 0 to n
      invariant |units| == i && outcomes == UnitOutcomes(g, o, i)
      invariant forall j :: 0 <= j < i ==> units[j] == SingleResultRun(g, o, j).calls
    {
      var outcome, calls := GenerateSingleResult(g, o, i);
      outcomes := outcomes + [outcome];
      units := units + [calls];
    }
    r := PromiseAll(outcomes);
  }

  /** The batch succeeds exactly when every unit does, with one result per
      seed in seed order, each with exactly one prompt set; when it fails, it
      fails with some unit's error and returns no results at all. */
  lemma AllContentIsOrderedAndAllOrNothing(g: Generator, o: Options, n: nat)
    ensures var r := PromiseAll(UnitOutcomes(g, o, n));
      r.Resolved? ==>
        |r.value| == n &&
        forall i :: 0 <= i < n ==>
          SingleResultRun(g, o, i).outcome == Resolved(r.value[i]) && |r.value[i].promptSets| == 1
    ensures var r := PromiseAll(UnitOutcomes(g, o, n));
      r.Rejected? <==> exists i :: 0 <= i < n && SingleResultRun(g, o, i).outcome.Rejected?
    ensures var r := PromiseAll(UnitOutcomes(g, o, n));
      r.Rejected? ==> exists i :: 0 <= i < n && SingleResultRun(g, o, i).outcome == Rejected(r.thrown)
  {
    var outcomes := UnitOutcomes(g, o, n);
    var r := PromiseAll(outcomes);
    if r.Resolved? {
      forall i | 0 <= i < n
        ensures |r.value[i].promptSets| == 1
      {
        assert outcomes[i] == SingleResultRun(g, o, i).outcome;
      }
    }
    if r.Rejected? {
      var i :| 0 <= i < |outcomes| && outcomes[i] == Rejected(r.thrown);
      assert SingleResultRun(g, o, i).outcome.Rejected?;
    }
  }

  /** A batch of n units sends n image requests, unit i's first; the prompt of
      request i names seed i, and no two of them send the same payload. */
  lemma BatchImageRequestsNameSeeds(g: Generator, o: Options, n: nat)
    ensures forall i :: 0 <= i < n ==>
      |SingleResultRun(g, o, i).calls| >= 1 && SingleResultRun(g, o, i).calls[0] == ImageRequest(o, i)
      && ImageCall(o, i).parts[0].text == Some(ImagePrompt(o.aspectRatio, o.outfitSuggestion, o.backgroundSuggestion, i))
      && Contains(ImagePrompt(o.aspectRatio, o.outfitSuggestion, o.backgroundSuggestion, i), "seed value " + Decimal(i))
    ensures forall i, j :: 0 <= i < j < n ==> ImageCall(o, i) != ImageCall(o, j)
  {
    forall i | 0 <= i < n
      ensures |SingleResultRun(g, o, i).calls| >= 1 && SingleResultRun(g, o, i).calls[0] == ImageRequest(o, i)
      ensures Contains(ImagePrompt(o.aspectRatio, o.outfitSuggestion, o.backgroundSuggestion, i), "seed value " + Decimal(i))
    {
      SingleResultUsesFirstImage(g, o, i);
      ImagePromptNamesSeed(o.aspectRatio, o.outfitSuggestion, o.backgroundSuggestion, i);
    }
    forall i, j | 0 <= i < j < n
      ensures ImageCall(o, i) != ImageCall(o, j)
    {
      if ImageCall(o, i) == ImageCall(o, j) {
        ImageCallIdentifiesSeed(o, i, j);
      }
    }
  }
}
