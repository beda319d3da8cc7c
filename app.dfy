/** The page of App.tsx: the form's inputs, the three status fields
    `results`, `isLoading` and `error`, and `handleGenerateContent`, which
    checks that both pictures are uploaded, resets the status, runs the batch
    and records either the tagged results or an error message. React's state
    setters become assignments to the fields, in the order the handler makes
    them; `Date.now()` is a clock parameter and the SDK is the oracle of
    module Generation. */
module AppState {
  import opened Types
  import opened Strings
  import opened Generation

  /** The error shown when a picture is missing. */
  const MissingImagesMessage := "Vui lòng tải lên cả ảnh người mẫu và ảnh sản phẩm."

  /** What the error shown for a thrown Error starts with. */
  const ErrorPrefix := "Đã xảy ra lỗi: "

  /** The error shown when something other than an Error is thrown. */
  const UnknownErrorMessage := "Đã xảy ra lỗi không xác định."

  /** The result counts the form offers. */
  const ResultCountChoices: seq<nat> := [1, 2, 3, 4]

  // ---------------------------------------------------------------------------
  // Identifiers and messages

  /** `result-${index}-${Date.now()}`. */
  function ResultId(index: nat, now: nat): string
  {
    "result-" + Decimal(index) + "-" + Decimal(now)
  }

  /** An identifier gives back both its index and its clock reading. */
  lemma ResultIdsDistinct(i: nat, j: nat, now1: nat, now2: nat)
    requires ResultId(i, now1) == ResultId(j, now2)
    ensures i == j && now1 == now2
  {
    var lead := "result-";
    assert ResultId(i, now1) == lead + Decimal(i) + ("-" + Decimal(now1));
    assert ResultId(j, now2) == lead + Decimal(j) + ("-" + Decimal(now2));
    SameLeadSameNumber(lead, i, j, "-" + Decimal(now1), "-" + Decimal(now2));
    var head := lead + Decimal(i) + "-";
    assert ResultId(i, now1) == head + Decimal(now1) && ResultId(j, now2) == head + Decimal(now2);
    assert Decimal(now1) == ResultId(i, now1)[|head|..];
    DecimalInjective(now1, now2);
  }

  /** No two results of a list share an id. */
  predicate DistinctIds(rs: seq<GeneratedResult>)
  {
    forall i, j :: 0 <= i < j < |rs| ==> rs[i].id != rs[j].id
  }

  /** `generatedResults.map((res, index) => ({...res, id: ...}))`, where
      `clock(index)` is what `Date.now()` reads while entry `index` is tagged. */
  function TagResults(generated: seq<SingleResult>, clock: nat -> nat): (tagged: seq<GeneratedResult>)
    ensures |tagged| == |generated|
    ensures forall i :: 0 <= i < |generated| ==>
      tagged[i].imageUrl == generated[i].imageUrl && tagged[i].promptSets == generated[i].promptSets
      && tagged[i].id == ResultId(i, clock(i))
  {
    if generated == [] then []
    else
      var n := |generated| - 1;
      TagResults(generated[..n], clock) + [GeneratedResult(ResultId(n, clock(n)), generated[n].imageUrl, generated[n].promptSets)]
  }

  /** Whatever the clock reads, the ids of one batch are pairwise distinct. */
  lemma TaggedIdsDistinct(generated: seq<SingleResult>, clock: nat -> nat)
    ensures DistinctIds(TagResults(generated, clock))
  {
    var tagged := TagResults(generated, clock);
    forall i, j | 0 <= i < j < |tagged|
      ensures tagged[i].id != tagged[j].id
    {
      if tagged[i].id == tagged[j].id {
        ResultIdsDistinct(i, j, clock(i), clock(j));
      }
    }
  }

  /** The message the catch block shows for a thrown value. */
  function ErrorMessage(thrown: Thrown): string
  {
    match thrown
    case ErrorObject(message) => ErrorPrefix + message
    case NonErrorValue => UnknownErrorMessage
  }

  /** The error shown keeps an Error's message whole after the prefix, tells
      an Error from any other thrown value, and is never the missing-picture
      message. */
  lemma ErrorMessageKeepsCause(t1: Thrown, t2: Thrown)
    ensures t1.ErrorObject? ==> ErrorPrefix <= ErrorMessage(t1) && EndsWith(ErrorMessage(t1), t1.message)
    ensures ErrorMessage(t1) == ErrorMessage(t2) ==> t1 == t2
    ensures ErrorMessage(t1) != MissingImagesMessage
  {
    // The three messages differ at index 13: ':' after the prefix, ' ' in the
    // generic message and 'l' in the missing-picture message.
    assert UnknownErrorMessage[13] == ' ' && MissingImagesMessage[13] == 'l';
    if t1.ErrorObject? {
      assert ErrorMessage(t1)[|ErrorPrefix|..] == t1.message;
      assert ErrorMessage(t1)[13] == ':';
    }
    if t2.ErrorObject? {
      assert ErrorMessage(t2)[13] == ':';
    }
    if ErrorMessage(t1) == ErrorMessage(t2) && t1.ErrorObject? && t2.ErrorObject? {
      assert t1.message == ErrorMessage(t1)[|ErrorPrefix|..];
    }
  }

  // ---------------------------------------------------------------------------
  // The page's state

  /** The three status fields. */
  datatype Status = Status(results: seq<GeneratedResult>, isLoading: bool, error: Option<string>)

  /** The form's inputs. */
  datatype Inputs = Inputs(
    modelImage: Option<ImageData>,
    productImage: Option<ImageData>,
    aspectRatio: AspectRatio,
    voice: Voice,
    region: Region,
    numberOfResults: nat,
    outfitSuggestion: string,
    backgroundSuggestion: string,
    productInfo: string)

  /** The status while a batch runs: loading, no error, no results. */
  const Loading := Status([], true, None)

  /** The status once a batch has settled: the tagged results with no error,
      or no results and the error message; loading is over either way. */
  function Settled(r: Outcome<seq<SingleResult>>, clock: nat -> nat): (s: Status)
    ensures !s.isLoading
    ensures r.Resolved? ==> s.error.None? && s.results == TagResults(r.value, clock) && DistinctIds(s.results)
    ensures r.Rejected? ==> s.results == [] && s.error == Some(ErrorMessage(r.thrown))
  {
    match r
    case Resolved(generated) =>
      TaggedIdsDistinct(generated, clock);
      Status(TagResults(generated, clock), false, None)
    case Rejected(thrown) => Status([], false, Some(ErrorMessage(thrown)))
  }

  /** What the generator is handed: the uploaded payloads and the choices. */
  function OptionsOf(i: Inputs): (o: Options)
    requires i.modelImage.Some? && i.productImage.Some?
    ensures o.modelImage == i.modelImage.value.base64 && o.productImage == i.productImage.value.base64
    ensures o.aspectRatio == i.aspectRatio && o.voice == i.voice && o.region == i.region
    ensures o.outfitSuggestion == i.outfitSuggestion && o.backgroundSuggestion == i.backgroundSuggestion
    ensures o.productInfo == i.productInfo
  {
    Options(i.modelImage.value.base64, i.productImage.value.base64, i.aspectRatio, i.voice, i.region,
            i.outfitSuggestion, i.backgroundSuggestion, i.productInfo)
  }

  class App {
    var modelImage: Option<ImageData>
    var productImage: Option<ImageData>
    var results: seq<GeneratedResult>
    var isLoading: bool
    var error: Option<string>
    var aspectRatio: AspectRatio
    var voice: Voice
    var region: Region
    var numberOfResults: nat
    var outfitSuggestion: string
    var backgroundSuggestion: string
    var productInfo: string

    /** The result count is one the form offers; the results never share an
        id; while a batch runs there is neither a result nor an error. */
    ghost predicate Valid()
      reads this
    {
      numberOfResults in ResultCountChoices && DistinctIds(results)
      && (isLoading ==> results == [] && error.None?)
    }

    function CurrentStatus(): Status
      reads this
    {
      Status(results, isLoading, error)
    }

    function CurrentInputs(): Inputs
      reads this
    {
      Inputs(modelImage, productImage, aspectRatio, voice, region, numberOfResults,
             outfitSuggestion, backgroundSuggestion, productInfo)
    }

    /** Whether the generate button is enabled: both pictures are uploaded
        and no batch is running. */
    predicate CanGenerate()
      reads this
    {
      modelImage.Some? && productImage.Some? && !isLoading
    }

    /** The page as first rendered: portrait, a female voice, the southern
        accent, one result, no hints, no pictures, nothing generated. */
    constructor()
      ensures Valid() && !CanGenerate()
      ensures CurrentInputs() == Inputs(None, None, Portrait, Female, South, 1, "", "", "")
      ensures CurrentStatus() == Status([], false, None)
    {
      modelImage, productImage := None, None;
      results, isLoading, error := [], false, None;
      aspectRatio, voice, region := Portrait, Female, South;
      numberOfResults := 1;
      outfitSuggestion, backgroundSuggestion, productInfo := "", "", "";
    }

    /** The person's picture is uploaded (`setModelImage`). */
    method SetModelImage(image: ImageData)
      modifies this
      requires Valid()
      ensures Valid()
      ensures CurrentInputs() == old(CurrentInputs()).(modelImage := Some(image))
      ensures CurrentStatus() == old(CurrentStatus())
    {
      modelImage := Some(image);
    }

    /** The product's picture is uploaded (`setProductImage`). */
    method SetProductImage(image: ImageData)
      modifies this
      requires Valid()
      ensures Valid()
      ensures CurrentInputs() == old(CurrentInputs()).(productImage := Some(image))
      ensures CurrentStatus() == old(CurrentStatus())
    {
      productImage := Some(image);
    }

    /** An aspect-ratio button is pressed. */
    method SetAspectRatio(a: AspectRatio)
      modifies this
      requires Valid()
      ensures Valid()
      ensures CurrentInputs() == old(CurrentInputs()).(aspectRatio := a)
      ensures CurrentStatus() == old(CurrentStatus())
    {
      aspectRatio := a;
    }

    /** A voice button is pressed. */
    method SetVoice(v: Voice)
      modifies this
      requires Valid()
      ensures Valid()
      ensures CurrentInputs() == old(CurrentInputs()).(voice := v)
      ensures CurrentStatus() == old(CurrentStatus())
    {
      voice := v;
    }

    /** A region button is pressed. */
    method SetRegion(r: Region)
      modifies this
      requires Valid()
      ensures Valid()
      ensures CurrentInputs() == old(CurrentInputs()).(region := r)
      ensures CurrentStatus() == old(CurrentStatus())
    {
      region := r;
    }

    /** A result-count button is pressed; the form only has buttons for the
        counts it offers. */
    method SelectResultCount(n: nat)
      modifies this
      requires Valid() && n in ResultCountChoices
      ensures Valid() && 1 <= numberOfResults <= 4
      ensures CurrentInputs() == old(CurrentInputs()).(numberOfResults := n)
      ensures CurrentStatus() == old(CurrentStatus())
    {
      numberOfResults := n;
    }

    /** The outfit hint is edited. */
    method SetOutfitSuggestion(hint: string)
      modifies this
      requires Valid()
      ensures Valid()
      ensures CurrentInputs() == old(CurrentInputs()).(outfitSuggestion := hint)
      ensures CurrentStatus() == old(CurrentStatus())
    {
      outfitSuggestion := hint;
    }

    /** The background hint is edited. */
    method SetBackgroundSuggestion(hint: string)
      modifies this
      requires Valid()
      ensures Valid()
      ensures CurrentInputs() == old(CurrentInputs()).(backgroundSuggestion := hint)
      ensures CurrentStatus() == old(CurrentStatus())
    {
      backgroundSuggestion := hint;
    }

    /** The product information is edited. */
    method SetProductInfo(info: string)
      modifies this
      requires Valid()
      ensures Valid()
      ensures CurrentInputs() == old(CurrentInputs()).(productInfo := info)
      ensures CurrentStatus() == old(CurrentStatus())
    {
      productInfo := info;
    }

    /** The reset before a batch: loading, no error, no results. */
    method StartGeneration()
      modifies this
      requires Valid()
      ensures Valid() && !CanGenerate()
      ensures CurrentStatus() == Loading
      ensures CurrentInputs() == old(CurrentInputs())
    {
      isLoading := true;
      error := None;
      results := [];
    }

    /** The end of a batch: the tagged results on success, the error message
        on failure, and loading off in either case. */
    method FinishGeneration(generated: Outcome<seq<SingleResult>>, clock: nat -> nat)
      modifies this
      requires Valid() && CurrentStatus() == Loading
      ensures Valid() && CurrentStatus() == Settled(generated, clock)
      ensures CurrentInputs() == old(CurrentInputs())
    {
      match generated {
        case Resolved(generatedResults) =>
          TaggedIdsDistinct(generatedResults, clock);
          results := TagResults(generatedResults, clock);
        case Rejected(thrown) =>
          error := Some(ErrorMessage(thrown));
      }
      isLoading := false;
    }

    /** `handleGenerateContent`. Without both pictures it only shows the
        missing-picture message and makes no request. It is only reached
        while no batch runs, since the button is disabled during one.
        Otherwise it resets
        the status, runs `numberOfResults` units with the current choices,
        and ends with the status `Settled` gives for the batch's outcome;
        `units[i]` is the list of requests unit `i` made. */
    method HandleGenerateContent(g: Generator, clock: nat -> nat)
      returns (units: seq<seq<Request>>)
      modifies this
      requires Valid() && !isLoading
      ensures Valid() && !isLoading
      ensures CurrentInputs() == old(CurrentInputs())
      ensures old(modelImage.None? || productImage.None?) ==>
        units == [] && CurrentStatus() == old(CurrentStatus()).(error := Some(MissingImagesMessage))
      ensures old(modelImage.Some? && productImage.Some?) ==>
        var o := OptionsOf(old(CurrentInputs()));
        |units| == old(numberOfResults) &&
        (forall i :: 0 <= i < |units| ==> units[i] == SingleResultRun(g, o, i).calls) &&
        CurrentStatus() == Settled(PromiseAll(UnitOutcomes(g, o, old(numberOfResults))), clock)
    {
      if modelImage.None? || productImage.None? {
        error := Some(MissingImagesMessage);
        return [];
      }
      var o := OptionsOf(CurrentInputs());
      StartGeneration();
      var generated;
      generated, units := GenerateAllContent(g, o, numberOfResults);
      FinishGeneration(generated, clock);
    }
  }

  /** A full run of the handler from a page with both pictures: exactly
      `numberOfResults` results in seed order when every unit succeeds,
      each keeping its unit's picture and single prompt set under its own
      id; otherwise no results and the message of some unit's error. */
  lemma HandlerOutcome(g: Generator, o: Options, n: nat, clock: nat -> nat)
    ensures var s := Settled(PromiseAll(UnitOutcomes(g, o, n)), clock);
      s.error.None? ==>
        |s.results| == n && DistinctIds(s.results) &&
        forall i :: 0 <= i < n ==>
          SingleResultRun(g, o, i).outcome == Resolved(SingleResult(s.results[i].imageUrl, s.results[i].promptSets))
          && |s.results[i].promptSets| == 1 && s.results[i].id == ResultId(i, clock(i))
    ensures var s := Settled(PromiseAll(UnitOutcomes(g, o, n)), clock);
      s.error.Some? <==> exists i :: 0 <= i < n && SingleResultRun(g, o, i).outcome.Rejected?
    ensures var s := Settled(PromiseAll(UnitOutcomes(g, o, n)), clock);
      s.error.Some? ==>
        s.results == [] &&
        exists i :: 0 <= i < n && SingleResultRun(g, o, i).outcome.Rejected?
          && s.error.value == ErrorMessage(SingleResultRun(g, o, i).outcome.thrown)
  {
    var r := PromiseAll(UnitOutcomes(g, o, n));
    AllContentIsOrderedAndAllOrNothing(g, o, n);
    if r.Resolved? {
      var s := Settled(r, clock);
      forall i | 0 <= i < n
        ensures SingleResultRun(g, o, i).outcome == Resolved(SingleResult(s.results[i].imageUrl, s.results[i].promptSets))
      {
        assert SingleResultRun(g, o, i).outcome == Resolved(r.value[i]);
      }
    } else {
      var i :| 0 <= i < n && SingleResultRun(g, o, i).outcome == Rejected(r.thrown);
      assert SingleResultRun(g, o, i).outcome.Rejected?;
    }
  }
}
