/**
 * Client-side image normalisation: HEIC detection and renaming, the
 * fit-within-box resize rule, the size-budget re-encoding ladder and the
 * extraction of the base64 payload of a data URL. Decoding and encoding are
 * browser services and enter the model as parameters.
 */
module ImageConverter {
  import opened Wrappers
  import opened Strings
  import opened AppContext
  import opened Thrown
  import opened JsMath

  // ------------------------------------------------------------------ resize

  datatype Dimensions = Dimensions(width: nat, height: nat)

  /** First clamp of the resize rule: a too-wide picture is narrowed to maxWidth, height scaled along. */
  function ClampWidth(w: real, h: real, maxWidth: real): (real, real)
    requires maxWidth >= 0.0
  {
    if w > maxWidth then (maxWidth, h * maxWidth / w) else (w, h)
  }

  /** Second clamp: a still too-tall picture is lowered to maxHeight, the ORIGINAL width scaled along. */
  function ClampHeight(w0: real, h0: real, w1: real, h1: real, maxHeight: real): (real, real)
    requires h1 > maxHeight ==> h0 > 0.0
  {
    if h1 > maxHeight then (w0 * maxHeight / h0, maxHeight) else (w1, h1)
  }

  /** x * a / b <= c whenever x * a <= c * b and b is positive. */
  lemma ScaledAtMost(x: real, a: real, b: real, c: real)
    requires b > 0.0 && x * a <= c * b
    ensures x * a / b <= c
  {
    assert x * a / b * b == x * a;
  }

  /** x * a / b, times b, is x * a. */
  lemma ScaledTimes(x: real, a: real, b: real)
    requires b > 0.0
    ensures x * a / b * b == x * a
  {
  }

  lemma ClampWidthProperties(w: real, h: real, maxWidth: real)
    requires w >= 0.0 && h >= 0.0 && maxWidth >= 0.0
    ensures var (w1, h1) := ClampWidth(w, h, maxWidth);
            && 0.0 <= w1 <= w && w1 <= maxWidth && 0.0 <= h1 <= h && w1 * h == h1 * w
  {
    if w > maxWidth {
      var h1 := h * maxWidth / w;
      assert h * maxWidth <= h * w;
      ScaledAtMost(h, maxWidth, w, h);
      ScaledTimes(h, maxWidth, w);
      assert 0.0 <= h * maxWidth;
    }
  }

  lemma ClampHeightProperties(w0: real, h0: real, w1: real, h1: real, maxWidth: real, maxHeight: real)
    requires 0.0 <= w1 <= w0 && w1 <= maxWidth && 0.0 <= h1 <= h0 && w1 * h0 == h1 * w0 && maxHeight >= 0.0
    ensures h1 > maxHeight ==> h0 > 0.0
    ensures h1 > maxHeight ==>
              var (w2, h2) := ClampHeight(w0, h0, w1, h1, maxHeight);
              && 0.0 <= w2 <= w1 && h2 == maxHeight && w2 * h0 == h2 * w0
  {
    if h1 > maxHeight {
      var w2 := w0 * maxHeight / h0;
      ScaledTimes(w0, maxHeight, h0);
      assert w0 * maxHeight <= w0 * h1;
      assert w0 * maxHeight <= w1 * h0;
      ScaledAtMost(w0, maxHeight, h0, w1);
      assert 0.0 <= w0 * maxHeight;
    }
  }

  /**
   * The resize rule before rounding: clamp the width, then clamp the height,
   * each time scaling the other side to keep the aspect ratio.
   */
  function FitExact(width: nat, height: nat, maxWidth: nat, maxHeight: nat): (r: (real, real))
  {
    var w0, h0 := width as real, height as real;
    var (w1, h1) := ClampWidth(w0, h0, maxWidth as real);
    ClampWidthProperties(w0, h0, maxWidth as real);
    ClampHeight(w0, h0, w1, h1, maxHeight as real)
  }

  /**
   * Before rounding the result fits the box, never exceeds the original size
   * and keeps the aspect ratio exactly; a picture that already fits is kept.
   */
  lemma {:induction false} FitExactProperties(width: nat, height: nat, maxWidth: nat, maxHeight: nat)
    ensures var (w, h) := FitExact(width, height, maxWidth, maxHeight);
            && 0.0 <= w <= maxWidth as real && 0.0 <= h <= maxHeight as real
            && w <= width as real && h <= height as real
            && w * height as real == h * width as real
    ensures width <= maxWidth && height <= maxHeight ==>
              FitExact(width, height, maxWidth, maxHeight) == (width as real, height as real)
  {
    var w0, h0 := width as real, height as real;
    ClampWidthProperties(w0, h0, maxWidth as real);
    var (w1, h1) := ClampWidth(w0, h0, maxWidth as real);
    ClampHeightProperties(w0, h0, w1, h1, maxWidth as real, maxHeight as real);
  }

  /** A factor of at most one half in size scales k to at most half of k either way. */
  lemma HalfScale(e: real, k: real)
    requires -0.5 <= e <= 0.5 && k >= 0.0
    ensures -0.5 * k <= e * k <= 0.5 * k
  {
  }

  /** Converting a product of integers to a real is multiplying their conversions. */
  lemma CastProduct(a: int, b: int)
    ensures (a * b) as real == a as real * b as real
  {
  }

  /**
   * Moving each side of an exact-ratio size w x h by at most one half moves
   * the cross products with the original W x H apart by at most (W + H) / 2.
   */
  lemma PerturbedCrossProducts(a: real, b: real, w: real, h: real, W: real, H: real)
    requires -0.5 <= a - w <= 0.5 && -0.5 <= b - h <= 0.5 && W >= 0.0 && H >= 0.0 && w * H == h * W
    ensures 2.0 * (a * H - b * W) <= W + H && 2.0 * (b * W - a * H) <= W + H
  {
    var e1, e2 := a - w, b - h;
    HalfScale(e1, H);
    HalfScale(e2, W);
    assert a * H == (w + e1) * H == w * H + e1 * H;
    assert b * W == (h + e2) * W == h * W + e2 * W;
    assert a * H - b * W == e1 * H - e2 * W;
  }

  /**
   * Rounding both sides of an exact-ratio size w x h of a width x height
   * picture moves the cross products apart by at most half their sum.
   */
  lemma RoundedKeepsAspect(w: real, h: real, width: nat, height: nat)
    requires w >= 0.0 && h >= 0.0 && w * height as real == h * width as real
    ensures 2 * (Round(w) * height - Round(h) * width) <= width + height
    ensures 2 * (Round(h) * width - Round(w) * height) <= width + height
  {
    CastProduct(Round(w), height);
    CastProduct(Round(h), width);
    PerturbedCrossProducts(Round(w) as real, Round(h) as real, w, h, width as real, height as real);
  }

  /**
   * `calculateResizeDimensions`: fit within maxWidth x maxHeight, never upscale,
   * then round each side: the result is the exact fit, rounded.
   */
  function CalculateResizeDimensions(width: nat, height: nat, maxWidth: nat, maxHeight: nat): (d: Dimensions)
    ensures width <= maxWidth && height <= maxHeight ==> d == Dimensions(width, height)
    ensures d.width <= maxWidth && d.height <= maxHeight
    ensures d.width <= width && d.height <= height
    ensures var (w, h) := FitExact(width, height, maxWidth, maxHeight);
            w >= 0.0 && h >= 0.0 && d == Dimensions(Round(w), Round(h))
  {
    FitExactProperties(width, height, maxWidth, maxHeight);
    var (w, h) := FitExact(width, height, maxWidth, maxHeight);
    RoundWithin(w, maxWidth);
    RoundWithin(w, width);
    RoundWithin(h, maxHeight);
    RoundWithin(h, height);
    Dimensions(Round(w), Round(h))
  }

  /**
   * The resized picture keeps the original aspect ratio up to rounding: its
   * cross products with the original size differ by at most half the sum
   * of the original sides.
   */
  lemma ResizeKeepsAspect(width: nat, height: nat, maxWidth: nat, maxHeight: nat)
    ensures var d := CalculateResizeDimensions(width, height, maxWidth, maxHeight);
            && 2 * (d.width * height - d.height * width) <= width + height
            && 2 * (d.height * width - d.width * height) <= width + height
  {
    FitExactProperties(width, height, maxWidth, maxHeight);
    var (w, h) := FitExact(width, height, maxWidth, maxHeight);
    RoundedKeepsAspect(w, h, width, height);
  }

  // -------------------------------------------------------------------- HEIC

  /** An input file: its name, declared MIME type and bytes. */
  datatype File = File(name: string, mimeType: string, data: Bytes)

  predicate IsHeicByExtension(name: string)
  {
    EndsWith(ToLower(name), ".heic") || EndsWith(ToLower(name), ".heif")
  }

  predicate IsHeicByMime(mimeType: string)
  {
    mimeType == "image/heic" || mimeType == "image/heif"
  }

  /** `name.replace(/\.heic$/i, ".jpg")`: only a trailing ".heic", in any letter case. */
  function RenameHeic(name: string): (r: string)
    ensures EndsWith(ToLower(name), ".heic") ==> r == name[..|name| - 5] + ".jpg"
    ensures !EndsWith(ToLower(name), ".heic") ==> r == name
  {
    if EndsWith(ToLower(name), ".heic") then name[..|name| - 5] + ".jpg" else name
  }

  /** The suffix test of the renaming looks at the last five characters only. */
  lemma LowerSuffix(name: string, k: nat)
    requires k <= |name|
    ensures ToLower(name)[|name| - k..] == ToLower(name[|name| - k..])
  {
  }

  /**
   * Only the last five characters decide: a name whose suffix lower-cases to
   * ".heic" keeps its stem and gets ".jpg"; any other name is left as it was,
   * and the name counts as HEIC exactly when that suffix is ".heic" or ".heif".
   */
  lemma {:induction false} RenameHeicBySuffix(stem: string, suffix: string)
    requires |suffix| == 5
    ensures ToLower(suffix) == ".heic" ==> RenameHeic(stem + suffix) == stem + ".jpg"
    ensures ToLower(suffix) != ".heic" ==> RenameHeic(stem + suffix) == stem + suffix
    ensures IsHeicByExtension(stem + suffix) <==> ToLower(suffix) == ".heic" || ToLower(suffix) == ".heif"
  {
    var n := stem + suffix;
    LowerSuffix(n, 5);
    assert n[|n| - 5..] == suffix;
    assert n[..|n| - 5] == stem;
  }

  /** The four spellings of the HEIC suffixes lower-case as expected. */
  lemma HeicSpellings()
    ensures ToLower(".heic") == ".heic" && ToLower(".HEIC") == ".heic"
    ensures ToLower(".heif") == ".heif" && ToLower(".HEIF") == ".heif"
  {
  }

  /** ".heic" and ".HEIC" are renamed; ".heif" is not, although ".HEIF" counts as HEIC. */
  lemma {:induction false} HeicCaseExamples(stem: string)
    ensures RenameHeic(stem + ".heic") == stem + ".jpg"
    ensures RenameHeic(stem + ".HEIC") == stem + ".jpg"
    ensures RenameHeic(stem + ".heif") == stem + ".heif"
    ensures IsHeicByExtension(stem + ".HEIF")
  {
    HeicSpellings();
    RenameHeicBySuffix(stem, ".heic");
    RenameHeicBySuffix(stem, ".HEIC");
    RenameHeicBySuffix(stem, ".heif");
    RenameHeicBySuffix(stem, ".HEIF");
  }

  /**
   * The HEIC step of `convertImageFormat`. `transcoded` is what the HEIC
   * transcoder yielded (its first blob) or threw; it is consulted only when
   * the step actually calls the transcoder.
   */
  function PrepareInput(file: File, transcoded: Result<Bytes, Thrown>): (p: File)
    ensures !IsHeicByMime(file.mimeType) ==> p == file
    ensures IsHeicByMime(file.mimeType) && transcoded.Success? ==>
              p == File(RenameHeic(file.name), "image/jpeg", transcoded.value)
    ensures transcoded.Failure? ==> p == file
  {
    var isHeic := IsHeicByExtension(file.name) || IsHeicByMime(file.mimeType);
    if isHeic && IsHeicByMime(file.mimeType) then
      match transcoded
      case Success(bytes) => File(RenameHeic(file.name), "image/jpeg", bytes)
      case Failure(_) => file
    else file
  }

  /** A HEIC-named file with another declared type is never transcoded, even when the transcoder would succeed. */
  lemma ExtensionAloneNeverTranscodes(file: File, bytes: Bytes)
    requires IsHeicByExtension(file.name) && !IsHeicByMime(file.mimeType)
    ensures PrepareInput(file, Success(bytes)) == file
  {
  }

  // ------------------------------------------------------ the reduction ladder

  datatype Format = Png | Jpeg

  /** `format === "jpeg" ? "image/jpeg" : "image/png"`. */
  function MimeFor(format: Format): (m: string)
    ensures m in {"image/jpeg", "image/png"}
    ensures format == Jpeg ==> m == "image/jpeg"
    ensures format == Png ==> m == "image/png"
  {
    if format == Jpeg then "image/jpeg" else "image/png"
  }

  /** Encoder quality in hundredths (0.85 is 85) and the current maximum dimension. */
  datatype Setting = Setting(quality: int, maxDimension: nat)

  const QualityFloor: int := 40
  const QualityStep: int := 15
  const DimensionFloor: nat := 800

  /** `Math.floor(d * 0.75)` for a whole, non-negative d. */
  function ShrinkDimension(d: nat): (r: nat)
    ensures 4 * r <= 3 * d < 4 * r + 4
  {
    (3 * d) / 4
  }

  /**
   * One rung down the ladder from an over-budget encode: lower the JPEG
   * quality first, then the dimension, or give up (None).
   */
  function Reduce(format: Format, s: Setting): (next: Option<Setting>)
    ensures next.None? <==> (format != Jpeg || s.quality <= QualityFloor) && s.maxDimension <= DimensionFloor
    ensures format == Png && next.Some? ==> next.value.quality == s.quality
    ensures next.Some? ==>
              || (next.value.maxDimension == s.maxDimension
                  && QualityFloor <= next.value.quality < s.quality
                  && next.value.quality >= s.quality - QualityStep)
              || (next.value.quality == s.quality
                  && DimensionFloor <= next.value.maxDimension < s.maxDimension)
  {
    if s.quality > QualityFloor && format == Jpeg then
      Some(Setting(if s.quality - QualityStep > QualityFloor then s.quality - QualityStep else QualityFloor, s.maxDimension))
    else if s.maxDimension > DimensionFloor then
      Some(Setting(s.quality, if ShrinkDimension(s.maxDimension) > DimensionFloor then ShrinkDimension(s.maxDimension) else DimensionFloor))
    else None
  }

  /** How many more times the quality can still be lowered. */
  function QualityRungs(format: Format, quality: int): nat
    decreases if quality > 0 then quality else 0
  {
    if format == Jpeg && quality > QualityFloor then
      1 + QualityRungs(format, if quality - QualityStep > QualityFloor then quality - QualityStep else QualityFloor)
    else 0
  }

  /** How many more times the dimension can still be shrunk. */
  function DimensionRungs(d: nat): nat
  {
    if d > DimensionFloor then
      1 + DimensionRungs(if ShrinkDimension(d) > DimensionFloor then ShrinkDimension(d) else DimensionFloor)
    else 0
  }

  /** The number of reductions still possible from a setting. */
  function Rungs(format: Format, s: Setting): nat
  {
    QualityRungs(format, s.quality) + DimensionRungs(s.maxDimension)
  }

  /** Every reduction uses up exactly one rung, and a setting without rungs cannot be reduced. */
  lemma {:induction false} ReduceUsesOneRung(format: Format, s: Setting)
    ensures Reduce(format, s).Some? ==> Rungs(format, Reduce(format, s).value) + 1 == Rungs(format, s)
    ensures Reduce(format, s).None? <==> Rungs(format, s) == 0
  {
    if !(s.quality > QualityFloor && format == Jpeg) {
      assert QualityRungs(format, s.quality) == 0;
    }
  }

  /** The defaults: JPEG from quality 0.85 at 1920 px has 3 + 4 rungs, PNG at 1920 px has 4. */
  lemma DefaultRungs()
    ensures Rungs(Jpeg, Setting(85, 1920)) == 7
    ensures Rungs(Png, Setting(85, 1920)) == 4
  {
    assert QualityRungs(Jpeg, 40) == 0;
    assert QualityRungs(Jpeg, 55) == 1;
    assert QualityRungs(Jpeg, 70) == 2;
    assert QualityRungs(Jpeg, 85) == 3;
    assert ShrinkDimension(1920) == 1440 && ShrinkDimension(1440) == 1080 && ShrinkDimension(1080) == 810;
    assert DimensionRungs(800) == 0;
    assert DimensionRungs(810) == 1;
    assert DimensionRungs(1080) == 2;
    assert DimensionRungs(1440) == 3;
    assert DimensionRungs(1920) == 4;
  }

  /** What the canvas encoder is asked for. */
  datatype EncodeRequest = EncodeRequest(width: nat, height: nat, mimeType: string, quality: int)

  /**
   * One conversion job: the decoded picture's size, the options, and the
   * canvas encoder (`toBlob`), which yields bytes or nothing.
   */
  datatype Job = Job(
    width: nat,
    height: nat,
    format: Format,
    maxSizeKB: nat,
    maxDimension: nat,
    encode: EncodeRequest -> Option<Bytes>)

  /** `blob.size / 1024 > maxSizeKB`, cleared of the division. */
  predicate TooLarge(blob: Blob, maxSizeKB: nat)
  {
    blob.Size() > 1024 * maxSizeKB
  }

  /** The encode request of one attempt: the canvas resized from the ORIGINAL size. */
  function RequestFor(job: Job, s: Setting): EncodeRequest
  {
    var canvas := CalculateResizeDimensions(job.width, job.height, s.maxDimension, s.maxDimension);
    EncodeRequest(canvas.width, canvas.height, MimeFor(job.format), s.quality)
  }

  /** The outcome of the ladder and the settings it encoded with, in order. */
  datatype Run = Run(outcome: Result<Blob, string>, tried: seq<Setting>)

  /** The recursive retry of `convertWithQuality`, as a function of the encoder. */
  function Ladder(job: Job, s: Setting): (run: Run)
    decreases Rungs(job.format, s)
  {
    match job.encode(RequestFor(job, s))
    case None => Run(Failure("Failed to convert image"), [s])
    case Some(bytes) =>
      var blob := Blob(bytes, MimeFor(job.format));
      if !TooLarge(blob, job.maxSizeKB) then Run(Success(blob), [s])
      else match Reduce(job.format, s)
        case None => Run(Success(blob), [s])
        case Some(next) =>
          ReduceUsesOneRung(job.format, s);
          var rest := Ladder(job, next);
          Run(rest.outcome, [s] + rest.tried)
  }

  /**
   * The ladder's guarantees: it encodes at most once per rung plus once; a
   * first encode within budget is returned at once; the result is in the
   * requested raster format; an over-budget result only comes back when both
   * quality (for JPEG) and dimension are at their floors; PNG quality is never
   * lowered and no dimension ever exceeds the starting one.
   */
  lemma {:induction false} LadderProperties(job: Job, s: Setting)
    ensures var run := Ladder(job, s);
            && 1 <= |run.tried| <= 1 + Rungs(job.format, s)
            && run.tried[0] == s
            && (run.outcome.Success? ==> run.outcome.value.mimeType == MimeFor(job.format))
            && (run.outcome.Failure? ==> run.outcome.error == "Failed to convert image")
            && (run.outcome.Success? && TooLarge(run.outcome.value, job.maxSizeKB) ==>
                  Reduce(job.format, run.tried[|run.tried| - 1]).None?)
            && (forall i :: 0 <= i < |run.tried| ==> run.tried[i].maxDimension <= s.maxDimension)
            && (job.format == Png ==> forall i :: 0 <= i < |run.tried| ==> run.tried[i].quality == s.quality)
    ensures job.encode(RequestFor(job, s)).Some?
            && !TooLarge(Blob(job.encode(RequestFor(job, s)).value, MimeFor(job.format)), job.maxSizeKB) ==>
              Ladder(job, s) == Run(Success(Blob(job.encode(RequestFor(job, s)).value, MimeFor(job.format))), [s])
    decreases Rungs(job.format, s)
  {
    var req := RequestFor(job, s);
    if job.encode(req).Some? {
      var blob := Blob(job.encode(req).value, MimeFor(job.format));
      if TooLarge(blob, job.maxSizeKB) && Reduce(job.format, s).Some? {
        var next := Reduce(job.format, s).value;
        ReduceUsesOneRung(job.format, s);
        LadderProperties(job, next);
        var rest := Ladder(job, next);
        assert Ladder(job, s).tried == [s] + rest.tried;
        forall i | 0 <= i < |Ladder(job, s).tried|
          ensures Ladder(job, s).tried[i].maxDimension <= s.maxDimension
          ensures job.format == Png ==> Ladder(job, s).tried[i].quality == s.quality
        {
          if i > 0 {
            assert Ladder(job, s).tried[i] == rest.tried[i - 1];
          }
        }
      }
    }
  }

  /** What the encoder gives for one attempt, as a blob of the requested type. */
  function Encoded(job: Job, s: Setting): (b: Option<Blob>)
    ensures b.Some? <==> job.encode(RequestFor(job, s)).Some?
    ensures b.Some? ==> b.value == Blob(job.encode(RequestFor(job, s)).value, MimeFor(job.format))
  {
    match job.encode(RequestFor(job, s))
    case None => None
    case Some(bytes) => Some(Blob(bytes, MimeFor(job.format)))
  }

  /** One step of the ladder, in terms of the attempt's encoding. */
  lemma LadderStep(job: Job, s: Setting)
    ensures Encoded(job, s).None? ==> Ladder(job, s) == Run(Failure("Failed to convert image"), [s])
    ensures Encoded(job, s).Some? && (!TooLarge(Encoded(job, s).value, job.maxSizeKB) || Reduce(job.format, s).None?) ==>
              Ladder(job, s) == Run(Success(Encoded(job, s).value), [s])
    ensures Encoded(job, s).Some? && TooLarge(Encoded(job, s).value, job.maxSizeKB) && Reduce(job.format, s).Some? ==>
              Rungs(job.format, Reduce(job.format, s).value) < Rungs(job.format, s)
              && var rest := Ladder(job, Reduce(job.format, s).value);
                 Ladder(job, s) == Run(rest.outcome, [s] + rest.tried)
  {
    ReduceUsesOneRung(job.format, s);
  }

  /**
   * The ladder's trace: each attempt after the first is one reduction of the
   * one before, every attempt but the last encoded a blob over the budget,
   * and the outcome is the last attempt's blob, or the encoder failure.
   */
  lemma {:induction false} LadderTrace(job: Job, s: Setting)
    ensures var run := Ladder(job, s);
            |run.tried| >= 1
            && (forall i :: 0 <= i < |run.tried| - 1 ==> Reduce(job.format, run.tried[i]) == Some(run.tried[i + 1]))
            && (forall i :: 0 <= i < |run.tried| - 1 ==>
                  Encoded(job, run.tried[i]).Some? && TooLarge(Encoded(job, run.tried[i]).value, job.maxSizeKB))
            && (run.outcome.Success? ==> Encoded(job, run.tried[|run.tried| - 1]) == Some(run.outcome.value))
            && (run.outcome.Failure? ==> Encoded(job, run.tried[|run.tried| - 1]).None?)
    decreases Rungs(job.format, s)
  {
    var run := Ladder(job, s);
    LadderStep(job, s);
    if Encoded(job, s).Some? && TooLarge(Encoded(job, s).value, job.maxSizeKB) && Reduce(job.format, s).Some? {
      var next := Reduce(job.format, s).value;
      LadderTrace(job, next);
      var rest := Ladder(job, next);
      assert run.tried[|run.tried| - 1] == rest.tried[|rest.tried| - 1];
      forall i | 0 <= i < |run.tried| - 1
        ensures Reduce(job.format, run.tried[i]) == Some(run.tried[i + 1])
        ensures Encoded(job, run.tried[i]).Some? && TooLarge(Encoded(job, run.tried[i]).value, job.maxSizeKB)
      {
        if i > 0 {
          assert run.tried[i] == rest.tried[i - 1] && run.tried[i + 1] == rest.tried[i];
        }
      }
    }
  }

  /**
   * `convertWithQuality` as a loop: the canvas is redrawn from the original
   * size whenever the dimension is below the starting one, the encoder is
   * called once per iteration, and the loop ends with a blob within budget,
   * a blob at the floors, or an encoder failure. Its result and its number of
   * encodes are those of the ladder.
   */
  method ConvertWithQuality(job: Job, quality: int) returns (result: Result<Blob, string>, encodes: nat)
    ensures result == Ladder(job, Setting(quality, job.maxDimension)).outcome
    ensures encodes == |Ladder(job, Setting(quality, job.maxDimension)).tried|
    ensures 1 <= encodes <= 1 + Rungs(job.format, Setting(quality, job.maxDimension))
  {
    ghost var start := Setting(quality, job.maxDimension);
    LadderProperties(job, start);
    var currentQuality: int, currentMaxDimension: nat := quality, job.maxDimension;
    var canvas := CalculateResizeDimensions(job.width, job.height, job.maxDimension, job.maxDimension);
    encodes := 0;
    while true
      invariant currentMaxDimension <= job.maxDimension
      invariant currentMaxDimension == job.maxDimension ==>
                  canvas == CalculateResizeDimensions(job.width, job.height, currentMaxDimension, currentMaxDimension)
      invariant Ladder(job, start).outcome == Ladder(job, Setting(currentQuality, currentMaxDimension)).outcome
      invariant |Ladder(job, start).tried| == encodes + |Ladder(job, Setting(currentQuality, currentMaxDimension)).tried|
      decreases Rungs(job.format, Setting(currentQuality, currentMaxDimension))
    {
      var s := Setting(currentQuality, currentMaxDimension);
      if currentMaxDimension < job.maxDimension {
        canvas := CalculateResizeDimensions(job.width, job.height, currentMaxDimension, currentMaxDimension);
      }
      assert EncodeRequest(canvas.width, canvas.height, MimeFor(job.format), currentQuality) == RequestFor(job, s);
      var bytes := job.encode(EncodeRequest(canvas.width, canvas.height, MimeFor(job.format), currentQuality));
      encodes := encodes + 1;
      if bytes.None? {
        result := Failure("Failed to convert image");
        return;
      }
      var blob := Blob(bytes.value, MimeFor(job.format));
      if !TooLarge(blob, job.maxSizeKB) {
        result := Success(blob);
        return;
      }
      if currentQuality > QualityFloor && job.format == Jpeg {
        currentQuality := if currentQuality - QualityStep > QualityFloor then currentQuality - QualityStep else QualityFloor;
      } else if currentMaxDimension > DimensionFloor {
        var shrunk := ShrinkDimension(currentMaxDimension);
        currentMaxDimension := if shrunk > DimensionFloor then shrunk else DimensionFloor;
      } else {
        result := Success(blob);
        return;
      }
      ReduceUsesOneRung(job.format, s);
      assert Reduce(job.format, s) == Some(Setting(currentQuality, currentMaxDimension));
    }
  }

  /** How reading and decoding the (possibly transcoded) file ended. */
  datatype Decoded = ReadFailed | LoadFailed | Loaded(width: nat, height: nat)

  /**
   * How the synchronous part of the image's load handler ended, up to the
   * request for the first encoding: a 2D context was obtained and drawn on,
   * `getContext("2d")` gave null, or something in that part threw.
   */
  datatype CanvasSetup = CanvasReady | NoContext | SetupThrew(err: Thrown)

  /** The `new Error(message)` the converter rejects with. */
  function Rejection(message: string): (t: Thrown)
    ensures IsErrorInstance(t) && MessageOf(t) == message
  {
    JsError("Error", message)
  }

  /**
   * `convertImageFormat`: the HEIC step, then decoding, then the canvas,
   * then the ladder from the caller's quality at the caller's maximum
   * dimension. A rejection is the converter's own `Error`, or whatever the
   * canvas set-up threw. The output is never HEIC: it carries the requested
   * raster type.
   */
  method ConvertImageFormat(
    file: File,
    format: Format,
    quality: int,
    maxSizeKB: nat,
    maxDimension: nat,
    transcoded: Result<Bytes, Thrown>,
    decode: File -> Decoded,
    canvas: CanvasSetup,
    encode: EncodeRequest -> Option<Bytes>)
    returns (result: Result<Blob, Thrown>)
    ensures decode(PrepareInput(file, transcoded)) == ReadFailed ==> result == Failure(Rejection("Failed to read file"))
    ensures decode(PrepareInput(file, transcoded)) == LoadFailed ==> result == Failure(Rejection("Failed to load image"))
    ensures decode(PrepareInput(file, transcoded)).Loaded? && canvas == NoContext ==>
              result == Failure(Rejection("Failed to get canvas context"))
    ensures decode(PrepareInput(file, transcoded)).Loaded? && canvas.SetupThrew? ==> result == Failure(canvas.err)
    ensures decode(PrepareInput(file, transcoded)).Loaded? && canvas == CanvasReady ==>
              var d := decode(PrepareInput(file, transcoded));
              var run := Ladder(Job(d.width, d.height, format, maxSizeKB, maxDimension, encode),
                                Setting(quality, maxDimension));
              (run.outcome.Success? ==> result == Success(run.outcome.value))
              && (run.outcome.Failure? ==> result == Failure(Rejection(run.outcome.error)))
    ensures result.Success? ==> decode(PrepareInput(file, transcoded)).Loaded? && canvas == CanvasReady
                                && result.value.mimeType == MimeFor(format)
                                && result.value.mimeType in {"image/jpeg", "image/png"}
  {
    var processFile := PrepareInput(file, transcoded);
    match decode(processFile)
    case ReadFailed =>
      result := Failure(Rejection("Failed to read file"));
    case LoadFailed =>
      result := Failure(Rejection("Failed to load image"));
    case Loaded(w, h) =>
      match canvas
      case NoContext =>
        result := Failure(Rejection("Failed to get canvas context"));
      case SetupThrew(err) =>
        result := Failure(err);
      case CanvasReady =>
        var job := Job(w, h, format, maxSizeKB, maxDimension, encode);
        LadderProperties(job, Setting(quality, maxDimension));
        var outcome, encodes := ConvertWithQuality(job, quality);
        result := if outcome.Success? then Success(outcome.value) else Failure(Rejection(outcome.error));
  }

  // ------------------------------------------------------------------ base64

  /** The data URL a reader produces for a blob. */
  function DataUrl(mimeType: string, payload: string): string
  {
    "data:" + mimeType + ";base64," + payload
  }

  /**
   * `dataUrl.split(",")[1]`: the text between the first comma and the next
   * one (or the end); None (undefined) when there is no comma.
   */
  function Base64Payload(dataUrl: string): (r: Option<string>)
    ensures r.None? <==> ',' !in dataUrl
    ensures r.Some? ==> ',' !in r.value
    ensures r.Some? ==> exists i :: 0 <= i && i + 1 + |r.value| <= |dataUrl| && dataUrl[i] == ',' && ',' !in dataUrl[..i]
                                     && dataUrl[i + 1..][..|r.value|] == r.value
                                     && (i + 1 + |r.value| == |dataUrl| || dataUrl[i + 1 + |r.value|] == ',')
  {
    match IndexOf(dataUrl, ',')
    case None => None
    case Some(i) =>
      var rest := dataUrl[i + 1..];
      match IndexOf(rest, ',')
      case None =>
        assert rest[..|rest|] == rest;
        Some(rest)
      case Some(j) =>
        assert dataUrl[i + 1 + j] == rest[j];
        Some(rest[..j])
  }

  /** Stripping the prefix of a base64 data URL gives back exactly its payload. */
  lemma {:induction false} Base64PayloadOfDataUrl(mimeType: string, payload: string)
    requires ',' !in mimeType && ',' !in payload
    ensures Base64Payload(DataUrl(mimeType, payload)) == Some(payload)
  {
    var prefix := "data:" + mimeType + ";base64";
    var url := DataUrl(mimeType, payload);
    assert url == prefix + "," + payload;
    assert ',' !in prefix by {
      forall k | 0 <= k < |prefix| ensures prefix[k] != ',' {
        if k >= 5 && k < 5 + |mimeType| {
          assert prefix[k] == mimeType[k - 5];
        }
      }
    }
    assert url[..|prefix|] == prefix;
    assert url[|prefix|] == ',';
    assert IndexOf(url, ',') == Some(|prefix|);
    assert url[|prefix| + 1..] == payload;
  }
}
