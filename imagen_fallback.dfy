/**
 * The Imagen generator with model fallback: it tries a custom model and then
 * three fixed Imagen models in turn, moving on only when an attempt fails
 * with a quota-type error (one whose lower-cased message mentions "quota",
 * "rate limit" or "429"). The SDK call is the parameter `generate`, which
 * maps a model name and an image count to the `imageBytes` of the generated
 * images or to the message of the error it throws.
 */
module ImagenFallback {
  import opened Wrappers
  import opened Text

  const KEY_REQUIRED := "Google GenAI API key is required"
  const CANDIDATES: seq<string> := ["imagen-4.0-generate-001", "imagen-4.0-fast-generate-001", "imagen-4.0-ultra-generate-001"]
  const NO_IMAGE_DATA := "No image data from Imagen model: "
  const ALL_FAILED := "All Imagen models failed. Last error: "
  const UNKNOWN_ERROR := "Unknown error"

  /** What the generator answers: the base64 images and the creation time in seconds. */
  datatype Generated = Generated(data: seq<string>, created: int)

  /**
   * The constructor's guard, shared by the Gemini generator: a missing or
   * empty key throws, any other key is kept.
   */
  function RequireApiKey(apiKey: Option<string>): (r: Result<string>)
    ensures r.Ok? <==> apiKey.Some? && apiKey.value != ""
    ensures r.Ok? ==> r.value == apiKey.value
    ensures r.Err? ==> r.error == KEY_REQUIRED
  {
    if apiKey.None? || apiKey.value == "" then Err(KEY_REQUIRED) else Ok(apiKey.value)
  }

  // ---------------------------------------------------------------- try order

  /** `xs.filter(m => m !== x)`. */
  function Without(xs: seq<string>, x: string): (r: seq<string>)
    ensures forall y :: y in r <==> y in xs && y != x
  {
    if xs == [] then [] else (if xs[0] == x then [] else [xs[0]]) + Without(xs[1..], x)
  }

  /** A list in which no model name appears twice. */
  predicate NoDuplicates(xs: seq<string>) {
    forall i, j :: 0 <= i < j < |xs| ==> xs[i] != xs[j]
  }

  /** The models to try: a non-empty custom model first, then the fixed candidates other than it. */
  function ModelsToTry(custom: Option<string>): (r: seq<string>)
  {
    if custom.Some? && custom.value != "" then [custom.value] + Without(CANDIDATES, custom.value) else CANDIDATES
  }

  /** Removing an element that occurs once, at `k`, from a list without duplicates cuts it out. */
  lemma {:induction false} WithoutCutsOut(xs: seq<string>, k: nat)
    requires k < |xs| && NoDuplicates(xs)
    ensures Without(xs, xs[k]) == xs[..k] + xs[k + 1..]
  {
    if k == 0 {
      assert Without(xs[1..], xs[0]) == xs[1..] by { WithoutAbsent(xs[1..], xs[0]); }
    } else {
      WithoutCutsOut(xs[1..], k - 1);
      assert xs[1..][k - 1] == xs[k];
      assert xs[1..][..k - 1] + xs[1..][k..] == xs[1..k] + xs[k + 1..];
      assert xs[..k] == [xs[0]] + xs[1..k];
    }
  }

  /** A listed name put first, before the others in their order. */
  lemma MovedToFront(xs: seq<string>, k: nat)
    requires k < |xs| && NoDuplicates(xs)
    ensures [xs[k]] + Without(xs, xs[k]) == [xs[k]] + xs[..k] + xs[k + 1..]
  {
    WithoutCutsOut(xs, k);
    ConcatAssoc([xs[k]], xs[..k], xs[k + 1..]);
  }

  lemma ConcatAssoc(a: seq<string>, b: seq<string>, c: seq<string>)
    ensures a + (b + c) == a + b + c
  {
  }

  /** Removing an element that is not there changes nothing. */
  lemma {:induction false} WithoutAbsent(xs: seq<string>, x: string)
    requires x !in xs
    ensures Without(xs, x) == xs
  {
    if xs != [] {
      WithoutAbsent(xs[1..], x);
      assert xs == [xs[0]] + xs[1..];
    }
  }

  /**
   * The try order: without a custom model, the three candidates in their
   * fixed order; with one, the custom model first and then every other
   * candidate once, in the fixed order. No model is tried twice.
   */
  lemma TryOrder(custom: Option<string>)
    ensures custom.None? || custom == Some("") ==> ModelsToTry(custom) == CANDIDATES
    ensures custom.Some? && custom.value != "" && custom.value !in CANDIDATES ==>
      ModelsToTry(custom) == [custom.value] + CANDIDATES
    ensures forall k :: 0 <= k < |CANDIDATES| && custom == Some(CANDIDATES[k]) ==>
      ModelsToTry(custom) == [CANDIDATES[k]] + CANDIDATES[..k] + CANDIDATES[k + 1..]
    ensures NoDuplicates(ModelsToTry(custom))
  {
    assert NoDuplicates(CANDIDATES);
    if custom.Some? && custom.value != "" {
      var m := custom.value;
      assert ModelsToTry(custom) == [m] + Without(CANDIDATES, m);
      WithoutKeepsDistinct(CANDIDATES, m);
      DistinctCons(m, Without(CANDIDATES, m));
      if m !in CANDIDATES {
        WithoutAbsent(CANDIDATES, m);
      }
      forall k | 0 <= k < |CANDIDATES| && custom == Some(CANDIDATES[k])
        ensures ModelsToTry(custom) == [CANDIDATES[k]] + CANDIDATES[..k] + CANDIDATES[k + 1..]
      {
        MovedToFront(CANDIDATES, k);
      }
    }
  }

  /** Filtering a list without duplicates leaves one without duplicates. */
  lemma {:induction false} WithoutKeepsDistinct(xs: seq<string>, x: string)
    requires NoDuplicates(xs)
    ensures NoDuplicates(Without(xs, x))
  {
    if xs != [] {
      assert NoDuplicates(xs[1..]) by {
        forall i, j | 0 <= i < j < |xs[1..]| ensures xs[1..][i] != xs[1..][j] {
          assert xs[1..][i] == xs[i + 1] && xs[1..][j] == xs[j + 1];
        }
      }
      WithoutKeepsDistinct(xs[1..], x);
      assert xs[0] !in xs[1..] by {
        forall j | 0 <= j < |xs[1..]| ensures xs[1..][j] != xs[0] {
          assert xs[1..][j] == xs[j + 1];
        }
      }
      if xs[0] != x {
        DistinctCons(xs[0], Without(xs[1..], x));
      }
    }
  }

  /** A name put in front of a list without duplicates that does not hold it. */
  lemma DistinctCons(x: string, xs: seq<string>)
    requires NoDuplicates(xs) && x !in xs
    ensures NoDuplicates([x] + xs)
  {
    var ys := [x] + xs;
    forall i, j | 0 <= i < j < |ys| ensures ys[i] != ys[j] {
      assert ys[j] == xs[j - 1];
      if i > 0 {
        assert ys[i] == xs[i - 1];
      }
    }
  }

  // ---------------------------------------------------------------- one attempt

  /** The `imageBytes` kept from the generated images: every present, non-empty one, in order. */
  function ImageBytes(generated: seq<Option<string>>): (r: seq<string>)
    ensures |r| <= |generated|
  {
    if generated == [] then []
    else
      var last := generated[|generated| - 1];
      ImageBytes(generated[..|generated| - 1]) + (if last.Some? && last.value != "" then [last.value] else [])
  }

  /** A byte string is kept exactly when some generated image carries it and it is not empty. */
  lemma {:induction false} ImageBytesKeeps(generated: seq<Option<string>>, b: string)
    ensures b in ImageBytes(generated) <==> b != "" && Some(b) in generated
  {
    if generated != [] {
      var init := generated[..|generated| - 1];
      ImageBytesKeeps(init, b);
      assert generated == init + [generated[|generated| - 1]];
    }
  }

  /** The loop of `tryGenerateWithModel` that pushes each image with bytes. */
  method CollectImages(generated: seq<Option<string>>) returns (images: seq<string>)
    ensures images == ImageBytes(generated)
  {
    images := [];
    for i := 0 to |generated|
      invariant images == ImageBytes(generated[..i])
    {
      assert generated[..i + 1][..i] == generated[..i];
      if generated[i].Some? && generated[i].value != "" {
        images := images + [generated[i].value];
      }
    }
    assert generated[..|generated|] == generated;
  }

  /** `tryGenerateWithModel`: the SDK error, or the images, or an error when there are none. */
  function Attempt(generate: (string, int) -> Result<seq<Option<string>>>, model: string, n: int): (r: Result<seq<string>>)
    ensures r.Ok? ==> r.value != [] && forall b :: b in r.value ==> b != ""
  {
    match generate(model, n)
    case Err(e) => Err(e)
    case Ok(generated) =>
      var images := ImageBytes(generated);
      if images == [] then Err(NO_IMAGE_DATA + model)
      else
        assert forall b :: b in images ==> b != "" by {
          forall b | b in images ensures b != "" { ImageBytesKeeps(generated, b); }
        }
        Ok(images)
  }

  /** `tryGenerateWithModel` as the source writes it. */
  method AttemptIn(generate: (string, int) -> Result<seq<Option<string>>>, model: string, n: int) returns (r: Result<seq<string>>)
    ensures r == Attempt(generate, model, n)
  {
    var response := generate(model, n);
    if response.Err? {
      return Err(response.error);
    }
    var images := CollectImages(response.value);
    if images == [] {
      return Err(NO_IMAGE_DATA + model);
    }
    r := Ok(images);
  }

  // ---------------------------------------------------------------- the fallback chain

  /** A quota-type error: its lower-cased message mentions "quota", "rate limit" or "429". */
  predicate IsQuota(message: string) {
    var m := Lower(message);
    Contains(m, "quota") || Contains(m, "rate limit") || Contains(m, "429")
  }

  /** `lastError?.message || "Unknown error"`. */
  function LastMessage(lastError: Option<string>): string {
    if lastError.Some? && lastError.value != "" then lastError.value else UNKNOWN_ERROR
  }

  /**
   * The loop over the models from the current one on, `lastError` being the
   * error of the model before: a success is returned, a non-quota error is
   * rethrown, a quota error moves on, and running out gives the summary error.
   */
  function Chain(generate: (string, int) -> Result<seq<Option<string>>>, n: int, models: seq<string>, lastError: Option<string>): (r: Result<seq<string>>)
    decreases |models|
  {
    if models == [] then Err(ALL_FAILED + LastMessage(lastError))
    else
      match Attempt(generate, models[0], n)
      case Ok(images) => Ok(images)
      case Err(e) => if IsQuota(e) then Chain(generate, n, models[1..], Some(e)) else Err(e)
  }

  /** Every model before `k` failed with a quota-type error. */
  predicate QuotaFailuresBefore(generate: (string, int) -> Result<seq<Option<string>>>, n: int, models: seq<string>, k: int)
    requires k <= |models|
  {
    forall j :: 0 <= j < k ==> Attempt(generate, models[j], n).Err? && IsQuota(Attempt(generate, models[j], n).error)
  }

  /** After `k` quota failures the chain carries on from model `k` with the `k-1`-th error. */
  lemma {:induction false} ChainSkipsQuota(generate: (string, int) -> Result<seq<Option<string>>>, n: int, models: seq<string>, lastError: Option<string>, k: nat)
    requires 0 < k <= |models| && QuotaFailuresBefore(generate, n, models, k)
    ensures Chain(generate, n, models, lastError) == Chain(generate, n, models[k..], Some(Attempt(generate, models[k - 1], n).error))
  {
    var e := Attempt(generate, models[0], n).error;
    assert Chain(generate, n, models, lastError) == Chain(generate, n, models[1..], Some(e));
    if k > 1 {
      assert QuotaFailuresBefore(generate, n, models[1..], k - 1) by {
        forall j | 0 <= j < k - 1 ensures models[1..][j] == models[j + 1] { }
      }
      ChainSkipsQuota(generate, n, models[1..], Some(e), k - 1);
      assert models[1..][k - 1..] == models[k..];
      assert models[1..][k - 2] == models[k - 1];
    }
  }

  /** The first model to succeed, after quota failures only, gives the result, whatever the models after it would do. */
  lemma FirstSuccessWins(generate: (string, int) -> Result<seq<Option<string>>>, n: int, models: seq<string>, k: nat)
    requires k < |models| && QuotaFailuresBefore(generate, n, models, k)
    requires Attempt(generate, models[k], n).Ok?
    ensures Chain(generate, n, models, None) == Attempt(generate, models[k], n)
  {
    if k > 0 {
      ChainSkipsQuota(generate, n, models, None, k);
    }
  }

  /** A non-quota error, after quota failures only, is the result: the models after it are never tried. */
  lemma OtherErrorStops(generate: (string, int) -> Result<seq<Option<string>>>, n: int, models: seq<string>, k: nat)
    requires k < |models| && QuotaFailuresBefore(generate, n, models, k)
    requires Attempt(generate, models[k], n).Err? && !IsQuota(Attempt(generate, models[k], n).error)
    ensures Chain(generate, n, models, None) == Err(Attempt(generate, models[k], n).error)
  {
    if k > 0 {
      ChainSkipsQuota(generate, n, models, None, k);
    }
  }

  /** When every model fails with a quota-type error, the summary names the last one's message. */
  lemma AllQuotaFailures(generate: (string, int) -> Result<seq<Option<string>>>, n: int, models: seq<string>)
    requires |models| > 0 && QuotaFailuresBefore(generate, n, models, |models|)
    ensures Chain(generate, n, models, None) == Err(ALL_FAILED + LastMessage(Some(Attempt(generate, models[|models| - 1], n).error)))
  {
    ChainSkipsQuota(generate, n, models, None, |models|);
  }

  /** A success is always some model's images, reached after quota failures only. */
  lemma {:induction false} SuccessComesFromAModel(generate: (string, int) -> Result<seq<Option<string>>>, n: int, models: seq<string>, lastError: Option<string>)
    requires Chain(generate, n, models, lastError).Ok?
    ensures exists k :: (0 <= k < |models| && QuotaFailuresBefore(generate, n, models, k)
      && Attempt(generate, models[k], n) == Chain(generate, n, models, lastError))
    decreases |models|
  {
    var a := Attempt(generate, models[0], n);
    if a.Ok? {
      assert QuotaFailuresBefore(generate, n, models, 0);
    } else {
      SuccessComesFromAModel(generate, n, models[1..], Some(a.error));
      var k :| 0 <= k < |models[1..]| && QuotaFailuresBefore(generate, n, models[1..], k)
        && Attempt(generate, models[1..][k], n) == Chain(generate, n, models[1..], Some(a.error));
      assert QuotaFailuresBefore(generate, n, models, k + 1) by {
        forall j | 1 <= j < k + 1 ensures models[j] == models[1..][j - 1] { }
      }
    }
  }

  /** `generateImage`: the try order, the chain, and the creation time in seconds. */
  function GenerateImage(generate: (string, int) -> Result<seq<Option<string>>>, custom: Option<string>, n: Option<int>, nowMs: nat): (r: Result<Generated>)
  {
    var count := if n.Some? then n.value else 1;
    match Chain(generate, count, ModelsToTry(custom), None)
    case Ok(images) => Ok(Generated(images, nowMs / 1000))
    case Err(e) => Err(e)
  }

  /** The loop of `generateImage`, which keeps the last error and leaves on a success or a non-quota error. */
  method GenerateImageIn(generate: (string, int) -> Result<seq<Option<string>>>, custom: Option<string>, n: Option<int>, nowMs: nat)
    returns (r: Result<Generated>)
    ensures r == GenerateImage(generate, custom, n, nowMs)
  {
    var count := if n.Some? then n.value else 1;
    var models := ModelsToTry(custom);
    var lastError: Option<string> := None;
    var i := 0;
    while i < |models|
      invariant 0 <= i <= |models|
      invariant Chain(generate, count, models, None) == Chain(generate, count, models[i..], lastError)
    {
      assert models[i..][0] == models[i] && models[i..][1..] == models[i + 1..];
      var attempt := AttemptIn(generate, models[i], count);
      if attempt.Ok? {
        return Ok(Generated(attempt.value, nowMs / 1000));
      }
      lastError := Some(attempt.error);
      if !IsQuota(attempt.error) {
        return Err(attempt.error);
      }
      i := i + 1;
    }
    r := Err(ALL_FAILED + LastMessage(lastError));
  }

  // ---------------------------------------------------------------- the no-image error

  predicate IsQ9(c: char) { c == 'q' || c == 'Q' || c == '9' }
  predicate IsL(c: char) { c == 'l' || c == 'L' }
  predicate IsI(c: char) { c == 'i' || c == 'I' }

  /**
   * Text with no 'q', no '9' and no "li", in either case: lower-cased, it can
   * mention none of "quota", "rate limit" and "429".
   */
  predicate QuotaFree(t: string) {
    forall k :: 0 <= k < |t| ==> !IsQ9(t[k]) && (k + 1 < |t| ==> !IsL(t[k]) || !IsI(t[k + 1]))
  }

  /** `QuotaFree` from position `k` on, one character at a time, for short literal pieces. */
  predicate QuotaFreeFrom(t: string, k: nat)
    decreases |t| - k
  {
    k >= |t| || (!IsQ9(t[k]) && (k + 1 < |t| ==> !IsL(t[k]) || !IsI(t[k + 1])) && QuotaFreeFrom(t, k + 1))
  }

  lemma {:induction false} QuotaFreeFromAll(t: string, k: nat)
    requires QuotaFreeFrom(t, k)
    ensures forall j :: k <= j < |t| ==> !IsQ9(t[j]) && (j + 1 < |t| ==> !IsL(t[j]) || !IsI(t[j + 1]))
    decreases |t| - k
  {
    if k < |t| {
      QuotaFreeFromAll(t, k + 1);
    }
  }

  /** Two quota-free pieces make a quota-free text unless an 'l' meets an 'i' where they join. */
  lemma QuotaFreeAppend(a: string, b: string)
    requires QuotaFree(a) && QuotaFree(b)
    requires |a| > 0 && |b| > 0 ==> !IsL(a[|a| - 1]) || !IsI(b[0])
    ensures QuotaFree(a + b)
  {
    var t := a + b;
    forall k | 0 <= k < |t| ensures !IsQ9(t[k]) && (k + 1 < |t| ==> !IsL(t[k]) || !IsI(t[k + 1])) {
      if k + 1 < |a| {
        assert t[k] == a[k] && t[k + 1] == a[k + 1];
      } else if k + 1 == |a| {
        assert t[k] == a[k];
        if k + 1 < |t| { assert t[k + 1] == b[0]; }
      } else {
        assert t[k] == b[k - |a|];
        if k + 1 < |t| { assert t[k + 1] == b[k + 1 - |a|]; }
      }
    }
  }

  /** Lower-casing keeps a quota-free text free of `word` when `word` has a character at `p` it cannot have. */
  lemma AvoidsWord(message: string, word: string, p: nat)
    requires QuotaFree(message) && p < |word|
    requires word[p] == 'q' || word[p] == '9' || (p + 1 < |word| && word[p] == 'l' && word[p + 1] == 'i')
    ensures !Contains(Lower(message), word)
  {
    var t := Lower(message);
    ContainsIffOccurs(t, word);
    forall i | 0 <= i ensures !OccursAt(t, word, i) {
      if i + |word| <= |t| {
        assert t[i..i + |word|][p] == LowerChar(message[i + p]);
        if p + 1 < |word| {
          assert t[i..i + |word|][p + 1] == LowerChar(message[i + p + 1]);
        }
      }
    }
  }

  lemma QuotaFreeIsNotQuota(message: string)
    requires QuotaFree(message)
    ensures !IsQuota(message)
  {
    AvoidsWord(message, "quota", 0);
    AvoidsWord(message, "rate limit", 5);
    AvoidsWord(message, "429", 2);
  }

  /** A quota-free piece, checked one character at a time. */
  lemma Piece(t: string)
    requires QuotaFreeFrom(t, 0)
    ensures QuotaFree(t)
  {
    QuotaFreeFromAll(t, 0);
  }

  lemma PrefixHead()
    ensures QuotaFree("No image" + " data from")
  {
    Piece("No image");
    Piece(" data from");
    QuotaFreeAppend("No image", " data from");
  }

  lemma PrefixTail()
    ensures QuotaFree(" Imagen" + " model: ")
  {
    Piece(" Imagen");
    Piece(" model: ");
    QuotaFreeAppend(" Imagen", " model: ");
  }

  /** The fixed prefix of the no-image message is quota-free and ends in a space. */
  lemma NoImagePrefixQuotaFree()
    ensures QuotaFree(NO_IMAGE_DATA) && NO_IMAGE_DATA[|NO_IMAGE_DATA| - 1] == ' '
  {
    var a, b := "No image" + " data from", " Imagen" + " model: ";
    assert NO_IMAGE_DATA == a + b;
    PrefixHead();
    PrefixTail();
    QuotaFreeAppend(a, b);
  }

  /**
   * The no-image error for a model whose name is quota-free is not
   * quota-type, so the chain stops there.
   */
  lemma NoImageDataIsNotQuota(model: string)
    requires QuotaFree(model)
    ensures !IsQuota(NO_IMAGE_DATA + model)
  {
    NoImagePrefixQuotaFree();
    QuotaFreeAppend(NO_IMAGE_DATA, model);
    QuotaFreeIsNotQuota(NO_IMAGE_DATA + model);
  }

  lemma CandidatePieces()
    ensures QuotaFree("imagen-4.0") && QuotaFree("-generate-001")
  {
    Piece("imagen-4.0");
    Piece("-generate-001");
  }

  lemma VariantPieces()
    ensures QuotaFree("-fast") && QuotaFree("-ultra")
  {
    Piece("-fast");
    Piece("-ultra");
  }

  /** The candidate `imagen-4.0<variant>-generate-001` is quota-free when its variant is. */
  lemma CandidateQuotaFree(variant: string)
    requires QuotaFree(variant) && (|variant| == 0 || variant[0] == '-')
    ensures QuotaFree("imagen-4.0" + variant + "-generate-001")
  {
    CandidatePieces();
    QuotaFreeAppend("imagen-4.0", variant);
    QuotaFreeAppend("imagen-4.0" + variant, "-generate-001");
  }

  lemma StandardQuotaFree()
    ensures QuotaFree(CANDIDATES[0])
  {
    CandidateQuotaFree("");
    assert CANDIDATES[0] == "imagen-4.0" + "" + "-generate-001";
  }

  lemma FastQuotaFree()
    ensures QuotaFree(CANDIDATES[1])
  {
    VariantPieces();
    CandidateQuotaFree("-fast");
    assert CANDIDATES[1] == "imagen-4.0" + "-fast" + "-generate-001";
  }

  lemma UltraQuotaFree()
    ensures QuotaFree(CANDIDATES[2])
  {
    VariantPieces();
    CandidateQuotaFree("-ultra");
    assert CANDIDATES[2] == "imagen-4.0" + "-ultra" + "-generate-001";
  }

  /** Every fixed candidate has a quota-free name. */
  lemma CandidatesQuotaFree(k: nat)
    requires k < |CANDIDATES|
    ensures QuotaFree(CANDIDATES[k])
  {
    if k == 0 {
      StandardQuotaFree();
    } else if k == 1 {
      FastQuotaFree();
    } else {
      UltraQuotaFree();
    }
  }

  /**
   * With the fixed order, a candidate that answers without image bytes ends
   * the chain with the no-image error: the candidates after it are not tried.
   */
  lemma EmptyCandidateStops(generate: (string, int) -> Result<seq<Option<string>>>, n: int, k: nat)
    requires k < |CANDIDATES| && QuotaFailuresBefore(generate, n, CANDIDATES, k)
    requires generate(CANDIDATES[k], n).Ok? && forall g :: g in generate(CANDIDATES[k], n).value ==> g.None? || g.value == ""
    ensures Chain(generate, n, CANDIDATES, None) == Err(NO_IMAGE_DATA + CANDIDATES[k])
  {
    var generated := generate(CANDIDATES[k], n).value;
    if ImageBytes(generated) != [] {
      var b := ImageBytes(generated)[0];
      ImageBytesKeeps(generated, b);
    }
    CandidatesQuotaFree(k);
    NoImageDataIsNotQuota(CANDIDATES[k]);
    OtherErrorStops(generate, n, CANDIDATES, k);
  }
}
