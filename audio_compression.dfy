/**
 * The compression helper (src/utils/audio_compression.py): size estimates,
 * split counting, and the fixed recommendation tables, command lists and
 * instruction texts it offers. Sizes are exact reals; numbers that the source
 * prints through a float format (`:.2f`, `:.1f`, `:.0f`) go through a
 * `render(value, places)` function supplied by the caller, so their text is
 * opaque to the model.
 */
module AudioCompression {

  import opened Wrappers
  import opened Text

  /** The only arithmetic failure the helper can raise: Python's ZeroDivisionError. */
  datatype ArithmeticError = ZeroDivision

  // ---------------------------------------------------------------- size estimate

  /** Base ratios of known conversions, keyed by lower-case (source, target) names. */
  const Ratios: map<(string, string), real> :=
    map[("wav", "mp3") := 0.1, ("flac", "mp3") := 0.3, ("m4a", "mp3") := 0.6, ("mp3", "mp3") := 0.7]

  /** The ratio for a conversion; a pair that is not in the table uses 0.5. */
  function CompressionRatio(originalFormat: string, targetFormat: string): (r: real)
    ensures 0.1 <= r <= 0.7
    ensures (Lower(originalFormat), Lower(targetFormat)) !in Ratios ==> r == 0.5
  {
    var key := (Lower(originalFormat), Lower(targetFormat));
    if key in Ratios then Ratios[key] else 0.5
  }

  /** The linear estimate before the 1 MB floor. */
  function ScaledSize(originalSizeMb: real, originalFormat: string, targetFormat: string, bitrate: int): real {
    originalSizeMb * CompressionRatio(originalFormat, targetFormat) * (bitrate as real / 128.0)
  }

  /** `estimate_compressed_size`: the scaled size, but never less than 1 MB. */
  function EstimateCompressedSize(originalSizeMb: real, originalFormat: string, targetFormat: string, bitrate: int): (r: real)
    ensures r >= 1.0
    ensures r >= ScaledSize(originalSizeMb, originalFormat, targetFormat, bitrate)
    ensures r == 1.0 || r == ScaledSize(originalSizeMb, originalFormat, targetFormat, bitrate)
  {
    var estimated := ScaledSize(originalSizeMb, originalFormat, targetFormat, bitrate);
    if estimated > 1.0 then estimated else 1.0
  }

  lemma MulMonotone(c: real, x: real, y: real)
    requires c >= 0.0 && x <= y
    ensures c * x <= c * y
  {
  }

  lemma MulStrictMonotone(c: real, x: real, y: real)
    requires c > 0.0 && x < y
    ensures c * x < c * y
  {
  }

  /** For a non-negative size and fixed formats, a higher bitrate never gives a smaller estimate. */
  lemma EstimateMonotoneInBitrate(size: real, source: string, target: string, b1: int, b2: int)
    requires size >= 0.0 && b1 <= b2
    ensures EstimateCompressedSize(size, source, target, b1) <= EstimateCompressedSize(size, source, target, b2)
  {
    ScaledMonotoneInBitrate(size, source, target, b1, b2);
    FloorKeepsOrder(ScaledSize(size, source, target, b1), ScaledSize(size, source, target, b2),
                    EstimateCompressedSize(size, source, target, b1), EstimateCompressedSize(size, source, target, b2));
  }

  lemma ScaledMonotoneInBitrate(size: real, source: string, target: string, b1: int, b2: int)
    requires size >= 0.0 && b1 <= b2
    ensures ScaledSize(size, source, target, b1) <= ScaledSize(size, source, target, b2)
  {
    var ratio := CompressionRatio(source, target);
    var c := size * ratio;
    MulMonotone(ratio, 0.0, size);
    MulMonotone(c, b1 as real / 128.0, b2 as real / 128.0);
  }

  /** Two values in order stay in order once both are raised to at least 1. */
  lemma FloorKeepsOrder(x1: real, x2: real, r1: real, r2: real)
    requires x1 <= x2
    requires r1 == 1.0 || r1 == x1
    requires r2 >= 1.0 && r2 >= x2
    ensures r1 <= r2
  {
  }

  /** For a non-negative bitrate and fixed formats, a larger original never gives a smaller estimate. */
  lemma EstimateMonotoneInSize(s1: real, s2: real, source: string, target: string, bitrate: int)
    requires s1 <= s2 && bitrate >= 0
    ensures EstimateCompressedSize(s1, source, target, bitrate) <= EstimateCompressedSize(s2, source, target, bitrate)
  {
    var c := CompressionRatio(source, target) * (bitrate as real / 128.0);
    MulMonotone(c, s1, s2);
    assert ScaledSize(s1, source, target, bitrate) == c * s1;
    assert ScaledSize(s2, source, target, bitrate) == c * s2;
  }

  /** Format names are compared case-insensitively. */
  lemma RatioIgnoresCase(source: string, target: string)
    ensures CompressionRatio(Lower(source), Lower(target)) == CompressionRatio(source, target)
  {
    LowerIdempotent(source);
    LowerIdempotent(target);
  }

  /** The table entries and the worked figures: 52 MB of m4a gives 31.2 MB at 128 kbps. */
  lemma EstimateExamples()
    ensures CompressionRatio("WAV", "mp3") == 0.1 && CompressionRatio("flac", "MP3") == 0.3
    ensures CompressionRatio("m4a", "mp3") == 0.6 && CompressionRatio("mp3", "mp3") == 0.7
    ensures CompressionRatio("ogg", "mp3") == 0.5 && CompressionRatio("wav", "ogg") == 0.5
    ensures EstimateCompressedSize(52.0, "m4a", "mp3", 128) == 31.2
    ensures EstimateCompressedSize(52.0, "m4a", "mp3", 64) == 15.6
    ensures EstimateCompressedSize(52.0, "m4a", "mp3", 16) == 3.9
    ensures EstimateCompressedSize(10.0, "mp3", "mp3", 128) == 7.0
    ensures EstimateCompressedSize(5.0, "wav", "mp3", 128) == 1.0
  {
    assert Lower("WAV") == "wav" && Lower("MP3") == "mp3" && Lower("mp3") == "mp3";
    assert Lower("flac") == "flac" && Lower("m4a") == "m4a";
    assert Lower("ogg") == "ogg" && Lower("wav") == "wav";
  }

  // ---------------------------------------------------------------- splitting

  /** Python's `int(x)` on a float: truncation toward zero. */
  function Trunc(x: real): (r: int)
    ensures x >= 0.0 ==> r as real <= x < r as real + 1.0
    ensures x < 0.0 ==> r as real - 1.0 < x <= r as real
  {
    if x >= 0.0 then x.Floor else -((-x).Floor)
  }

  /**
   * `should_split_file`: (False, 1) for a file within one segment, otherwise
   * (True, int(size / max) + 1); the division fails when the maximum is 0.
   */
  function ShouldSplitFile(fileSizeMb: real, maxSegmentMb: real): (r: Result<(bool, int), ArithmeticError>)
    ensures r.Failure? <==> fileSizeMb > maxSegmentMb && maxSegmentMb == 0.0
    ensures fileSizeMb <= maxSegmentMb ==> r == Success((false, 1))
    ensures maxSegmentMb > 0.0 && fileSizeMb > maxSegmentMb ==>
      r.Success? && r.value.0 && r.value.1 >= 2 &&
      r.value.1 as real * maxSegmentMb > fileSizeMb &&
      (r.value.1 - 1) as real * maxSegmentMb <= fileSizeMb
  {
    if fileSizeMb <= maxSegmentMb then Success((false, 1))
    else if maxSegmentMb == 0.0 then Failure(ZeroDivision)
    else
      var q := fileSizeMb / maxSegmentMb;
      var n := Trunc(q) + 1;
      if maxSegmentMb > 0.0 then
        SegmentCountBounds(fileSizeMb, maxSegmentMb, q, n);
        Success((true, n))
      else
        Success((true, n))
  }

  lemma SegmentCountBounds(size: real, max: real, q: real, n: int)
    requires max > 0.0 && size > max && q == size / max && n == Trunc(q) + 1
    ensures n >= 2 && n as real * max > size && (n - 1) as real * max <= size
  {
    assert size == max * q;
    var one := 1.0;
    if q <= one {
      MulMonotone(max, q, one);
    }
    var f, g := (n - 1) as real, n as real;
    assert f <= q < g;
    BracketProduct(size, max, q, f, g);
    assert g * max == max * g && f * max == max * f;
  }

  /** A quotient lying in [f, g) puts the dividend between f and g divisors. */
  lemma BracketProduct(size: real, max: real, q: real, f: real, g: real)
    requires max > 0.0 && size == max * q && f <= q < g
    ensures max * g > size && max * f <= size
  {
    MulMonotone(max, f, q);
    MulStrictMonotone(max, q, g);
  }

  /** With a positive maximum, the file is split exactly when it exceeds one segment. */
  lemma SplitIffOverMaximum(size: real, max: real)
    requires max > 0.0
    ensures ShouldSplitFile(size, max).Success?
    ensures ShouldSplitFile(size, max).value.0 <==> size > max
    ensures !ShouldSplitFile(size, max).value.0 ==> ShouldSplitFile(size, max).value.1 == 1
  {
  }

  // ---------------------------------------------------------------- recommendations

  /** The format groups the recommendation table distinguishes. */
  datatype FormatFamily = WavFamily | FlacFamily | M4aFamily | OtherFamily

  function Family(fileFormat: string): FormatFamily {
    var f := Lower(fileFormat);
    if f == "wav" then WavFamily
    else if f == "flac" then FlacFamily
    else if f == "m4a" then M4aFamily
    else OtherFamily
  }

  /** The advertised size reduction, in percent, as (low, high). */
  function ReductionRange(family: FormatFamily): (nat, nat) {
    match family
    case WavFamily => (80, 90)
    case FlacFamily => (60, 80)
    case M4aFamily => (40, 60)
    case OtherFamily => (30, 50)
  }

  /** The reduction as the source writes it, "low-high%". */
  function ReductionText(family: FormatFamily): string {
    NatToString(ReductionRange(family).0) + "-" + NatToString(ReductionRange(family).1) + "%"
  }

  /** The three format-specific suggestions. */
  function FormatMethods(family: FormatFamily): (methods: seq<string>)
    ensures |methods| == 3
  {
    match family
    case WavFamily => [
      "Convertir en MP3 (réduction ~90%)",
      "Réduire la qualité d'échantillonnage (44.1kHz → 22kHz)",
      "Convertir en mono si stéréo (réduction ~50%)"]
    case FlacFamily => [
      "Convertir en MP3 (réduction ~70%)",
      "Réduire le bitrate (320kbps → 128kbps)",
      "Convertir en mono si stéréo"]
    case M4aFamily => [
      "Réduire le bitrate (256kbps → 128kbps)",
      "Convertir en MP3",
      "Réduire la fréquence d'échantillonnage"]
    case OtherFamily => [
      "Réduire le bitrate (320kbps → 128kbps ou 96kbps)",
      "Convertir en mono si stéréo",
      "Couper les silences au début/fin"]
  }

  /** The general tools listed for every format. */
  const GeneralTools: seq<string> := [
    "Audacity (gratuit, interface graphique)",
    "FFmpeg (ligne de commande, très puissant)",
    "Online Audio Converter",
    "VLC Media Player (conversion simple)",
    "HandBrake (pour formats vidéo avec audio)"]

  datatype Recommendations = Recommendations(
    currentSize: string,
    targetSize: string,
    methods: seq<string>,
    tools: seq<string>,
    estimatedReduction: string)

  /** `get_compression_recommendations`. */
  function GetCompressionRecommendations(fileSizeMb: real, fileFormat: string, render: (real, nat) -> string): (rec: Recommendations)
    ensures rec.targetSize == "< 25 MB"
    ensures |rec.methods| == 3 && |rec.tools| == 5
    ensures rec.currentSize == render(fileSizeMb, 2) + " MB"
  {
    var family := Family(fileFormat);
    Recommendations(
      currentSize := render(fileSizeMb, 2) + " MB",
      targetSize := "< 25 MB",
      methods := FormatMethods(family),
      tools := GeneralTools,
      estimatedReduction := ReductionText(family))
  }

  lemma TwoDigits(n: nat)
    requires 10 <= n < 100
    ensures NatToString(n) == [DigitChar(n / 10), DigitChar(n % 10)]
  {
  }

  /** The reduction text of each family, as the source spells it. */
  lemma ReductionTexts()
    ensures ReductionText(WavFamily) == "80-90%" && ReductionText(FlacFamily) == "60-80%"
    ensures ReductionText(M4aFamily) == "40-60%" && ReductionText(OtherFamily) == "30-50%"
  {
    TwoDigits(80); TwoDigits(90); TwoDigits(60); TwoDigits(40); TwoDigits(30); TwoDigits(50);
  }

  /** The estimated reduction for each format, matched after lower-casing. */
  lemma ReductionTable(render: (real, nat) -> string, size: real, fileFormat: string)
    ensures var reduction := GetCompressionRecommendations(size, fileFormat, render).estimatedReduction;
      && (Lower(fileFormat) == "wav" ==> reduction == "80-90%")
      && (Lower(fileFormat) == "flac" ==> reduction == "60-80%")
      && (Lower(fileFormat) == "m4a" ==> reduction == "40-60%")
      && (Lower(fileFormat) !in {"wav", "flac", "m4a"} ==> reduction == "30-50%")
  {
    ReductionTexts();
  }

  /** The recommendation depends on the format only through its lower-case name. */
  lemma RecommendationIgnoresCase(size: real, fileFormat: string, render: (real, nat) -> string)
    ensures GetCompressionRecommendations(size, Lower(fileFormat), render) == GetCompressionRecommendations(size, fileFormat, render)
  {
    LowerIdempotent(fileFormat);
  }

  /**
   * The two tables agree: the reduction the 128 kbps mp3 estimate predicts,
   * 1 - ratio, lies inside the range the recommendation advertises.
   */
  lemma AdvertisedReductionCoversEstimate(fileFormat: string)
    ensures var (lo, hi) := ReductionRange(Family(fileFormat));
      var predicted := 100.0 * (1.0 - CompressionRatio(fileFormat, "mp3"));
      lo as real <= predicted <= hi as real
  {
    assert Lower("mp3") == "mp3";
  }

  // ---------------------------------------------------------------- command texts

  /** One ffmpeg re-encoding command to mp3 with the given encoder options. */
  function FfmpegCommand(inputFile: string, outputFile: string, options: string): (c: string)
    ensures StartsWith(c, "ffmpeg -i \"" + inputFile + "\"")
    ensures EndsWith(c, "\"" + outputFile + "\"")
  {
    var prefix := "ffmpeg -i \"" + inputFile + "\"";
    var c := prefix + " -codec:a libmp3lame " + options + " \"" + outputFile + "\"";
    assert c[..|prefix|] == prefix;
    c
  }

  /** The encoder options of the five commands, from mildest to the reduced sample rate. */
  const CommandOptions: seq<string> :=
    ["-b:a 128k", "-b:a 96k", "-b:a 64k", "-ac 1 -b:a 128k", "-ar 22050 -b:a 128k"]

  /** `get_ffmpeg_commands`: the target size is accepted and not used. */
  function GetFfmpegCommands(inputFile: string, outputFile: string, targetSizeMb: real): (commands: seq<string>)
    ensures |commands| == 5
    ensures forall i :: 0 <= i < |commands| ==>
      StartsWith(commands[i], "ffmpeg -i \"" + inputFile + "\"") && EndsWith(commands[i], "\"" + outputFile + "\"")
  {
    [FfmpegCommand(inputFile, outputFile, "-b:a 128k"),
     FfmpegCommand(inputFile, outputFile, "-b:a 96k"),
     FfmpegCommand(inputFile, outputFile, "-b:a 64k"),
     FfmpegCommand(inputFile, outputFile, "-ac 1 -b:a 128k"),
     FfmpegCommand(inputFile, outputFile, "-ar 22050 -b:a 128k")]
  }

  /** The commands come in the fixed ladder order, and the target size changes nothing. */
  lemma FfmpegCommandLadder(inputFile: string, outputFile: string, t1: real, t2: real)
    ensures var commands := GetFfmpegCommands(inputFile, outputFile, t1);
      forall i :: 0 <= i < 5 ==> commands[i] == FfmpegCommand(inputFile, outputFile, CommandOptions[i])
    ensures GetFfmpegCommands(inputFile, outputFile, t1) == GetFfmpegCommands(inputFile, outputFile, t2)
  {
  }

  /** `get_audacity_instructions`: seven fixed steps. */
  const AudacityInstructions: seq<string> := [
    "1. Ouvrir Audacity et importer votre fichier audio",
    "2. Sélectionner tout l'audio (Ctrl+A)",
    "3. Aller dans Pistes → Mixer et rendre → Mixer et rendre",
    "4. Si stéréo, aller dans Pistes → Mixer → Convertir en mono",
    "5. Aller dans Fichier → Exporter → Exporter en MP3",
    "6. Choisir une qualité de 128 kbps ou moins",
    "7. Cliquer sur Enregistrer"]

  // ---------------------------------------------------------------- splitting instructions

  /** The file name the i-th (1-based) segment is written to. */
  function SegmentFile(index: nat): string {
    "\"segment_" + NatToString(index) + ".wav\""
  }

  /** Two segments with the same file name are the same segment. */
  lemma SegmentFileInjective(i: nat, j: nat)
    requires SegmentFile(i) == SegmentFile(j)
    ensures i == j
  {
    var prefix := "\"segment_";
    var a, b := NatToString(i), NatToString(j);
    assert |a| == |b|;
    assert a == SegmentFile(i)[|prefix|..|prefix| + |a|];
    assert b == SegmentFile(j)[|prefix|..|prefix| + |b|];
    NatToStringInjective(i, j);
  }

  /** The ffmpeg line that cuts one segment: start and length in seconds, copied stream. */
  function SegmentCommand(render: (real, nat) -> string, startSeconds: real, lengthSeconds: real, index: nat): (line: string)
    ensures StartsWith(line, "ffmpeg -i \"input.wav\" -ss ")
    ensures EndsWith(line, SegmentTail(index))
  {
    var head := "ffmpeg -i \"input.wav\" -ss ";
    var tail := SegmentTail(index);
    var line := head + render(startSeconds, 0) + " -t " + render(lengthSeconds, 0) + tail;
    assert line[..|head|] == head;
    assert line[|line| - |tail|..] == tail;
    line
  }

  /** The ten fixed lines before the per-segment commands. */
  function SplitHeader(render: (real, nat) -> string, numSegments: int, segmentDuration: real): (header: seq<string>)
    ensures |header| == 10
  {
    ["Diviser le fichier en " + IntToString(numSegments) + " segments de ~" + render(segmentDuration, 1) + " minutes chacun:",
     "",
     "**Avec Audacity:**",
     "1. Ouvrir le fichier dans Audacity",
     "2. Utiliser l'outil de sélection pour marquer chaque segment",
     "3. Sélectionner le premier segment (0 à " + render(segmentDuration, 1) + " min)",
     "4. Aller dans Fichier → Exporter → Exporter la sélection en MP3",
     "5. Répéter pour chaque segment",
     "",
     "**Avec FFmpeg:**"]
  }

  /** The per-segment commands for `count` segments of `segmentDuration` minutes each. */
  function SegmentCommands(render: (real, nat) -> string, count: nat, segmentDuration: real): (lines: seq<string>)
    ensures |lines| == count
  {
    if count == 0 then []
    else
      SegmentCommands(render, count - 1, segmentDuration)
        + [SegmentCommand(render, SegmentStart(count - 1, segmentDuration), segmentDuration * 60.0, count)]
  }

  /** The i-th command writes segment i + 1. */
  lemma {:induction false} SegmentCommandsEndings(render: (real, nat) -> string, count: nat, segmentDuration: real)
    ensures forall i :: 0 <= i < count ==>
      EndsWith(SegmentCommands(render, count, segmentDuration)[i], SegmentTail(i + 1))
  {
    if count > 0 {
      SegmentCommandsEndings(render, count - 1, segmentDuration);
      var lines := SegmentCommands(render, count, segmentDuration);
      var before := SegmentCommands(render, count - 1, segmentDuration);
      assert forall i :: 0 <= i < count - 1 ==> lines[i] == before[i];
    }
  }

  /** Where the segment after `index` earlier ones starts, in seconds. */
  function SegmentStart(index: nat, segmentDuration: real): real {
    index as real * segmentDuration * 60.0
  }

  /**
   * `get_splitting_instructions`: the header, then one command per segment,
   * the i-th starting at i segment lengths and writing segment i + 1. A zero
   * segment count fails on the division; a negative one gives the header only.
   */
  method GetSplittingInstructions(durationMinutes: real, numSegments: int, render: (real, nat) -> string)
    returns (r: Result<seq<string>, ArithmeticError>)
    ensures r.Failure? <==> numSegments == 0
    ensures r.Success? ==>
      var segmentDuration := durationMinutes / numSegments as real;
      r.value == SplitHeader(render, numSegments, segmentDuration)
        + SegmentCommands(render, if numSegments > 0 then numSegments else 0, segmentDuration)
  {
    if numSegments == 0 {
      return Failure(ZeroDivision);
    }
    var segmentDuration := durationMinutes / numSegments as real;
    var header := SplitHeader(render, numSegments, segmentDuration);
    var commands := CollectSegmentCommands(numSegments, segmentDuration, render);
    return Success(header + commands);
  }

  /** The loop of `get_splitting_instructions`: one ffmpeg line per segment, in order. */
  method CollectSegmentCommands(numSegments: int, segmentDuration: real, render: (real, nat) -> string)
    returns (commands: seq<string>)
    ensures commands == SegmentCommands(render, if numSegments > 0 then numSegments else 0, segmentDuration)
  {
    commands := [];
    var i := 0;
    while i < numSegments
      invariant 0 <= i <= (if numSegments > 0 then numSegments else 0)
      invariant commands == SegmentCommands(render, i, segmentDuration)
    {
      var startTime := SegmentStart(i, segmentDuration);
      commands := commands + [SegmentCommand(render, startTime, segmentDuration * 60.0, i + 1)];
      i := i + 1;
    }
  }

  /** How a segment command ends. */
  function SegmentTail(index: nat): string {
    " -c copy " + SegmentFile(index)
  }

  /**
   * A line ending with the tail of segment x has '_' just before the number
   * and digits from there up to the closing ".wav\"".
   */
  lemma TailLayout(line: string, x: nat)
    requires EndsWith(line, SegmentTail(x))
    ensures var d := NatToString(x);
      |line| >= |d| + 23 &&
      line[|line| - |d| - 6] == '_' &&
      forall j :: |line| - |d| - 5 <= j < |line| - 5 ==> IsDigit(line[j])
  {
    var d := NatToString(x);
    var t := SegmentTail(x);
    var prefix := " -c copy \"segment_";
    assert |prefix| == 18 && prefix[17] == '_';
    assert t == prefix + d + ".wav\"";
    var start := |line| - |t|;
    assert line[start..] == t;
    forall j | |line| - |d| - 5 <= j < |line| - 5
      ensures IsDigit(line[j])
    {
      assert line[j] == t[j - start] == d[j - start - 18];
    }
    assert line[|line| - |d| - 6] == t[17] == prefix[17];
  }

  /**
   * Tails of two segments that one line both ends with have numbers of the
   * same length: otherwise the '_' before the shorter number would be a digit.
   */
  lemma TailNumbersHaveEqualLength(line: string, x: nat, y: nat)
    requires EndsWith(line, SegmentTail(x)) && EndsWith(line, SegmentTail(y))
    ensures |NatToString(x)| <= |NatToString(y)|
  {
    TailLayout(line, x);
    TailLayout(line, y);
    assert !IsDigit(line[|line| - |NatToString(y)| - 6]);
  }

  /** The line after the header for segment i names segment i + 1, and no other segment. */
  lemma SegmentLineNamesItsSegment(render: (real, nat) -> string, count: nat, segmentDuration: real, i: nat, j: nat)
    requires i < count
    requires EndsWith(SegmentCommands(render, count, segmentDuration)[i], SegmentTail(j))
    ensures j == i + 1
  {
    var line := SegmentCommands(render, count, segmentDuration)[i];
    SegmentCommandsEndings(render, count, segmentDuration);
    var a, b := SegmentTail(i + 1), SegmentTail(j);
    TailNumbersHaveEqualLength(line, i + 1, j);
    TailNumbersHaveEqualLength(line, j, i + 1);
    assert a == line[|line| - |a|..] == b;
    assert SegmentFile(i + 1) == a[9..] == b[9..] == SegmentFile(j);
    SegmentFileInjective(i + 1, j);
  }
}
