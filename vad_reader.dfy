/**
 * The arithmetic over the audio segments a voice-activity detector produces: the share of
 * speech, the recording's length in seconds and the share of each label.
 *
 * Results that Kotlin computes as `Double` or `Float` are exact reals here; a division by zero
 * gives the IEEE infinity or NaN that the source would see.
 */
module VadReader {
  import opened Text

  /** A section of a recording: where it ends, its length in bytes, whether it is speech, and its sound label (`label`). */
  datatype AudioSegment = AudioSegment(position: int, length: int, hasSpeech: bool, soundLabel: string)

  /** The value of a floating-point division. */
  datatype Float = Finite(value: real) | PositiveInfinity | NegativeInfinity | NotANumber

  /** `a.toDouble() / b.toDouble()` on integers. */
  function Divide(a: int, b: int): (r: Float)
    ensures b != 0 ==> r == Finite(a as real / b as real)
    ensures b == 0 ==> !r.Finite? && (r.NotANumber? <==> a == 0)
  {
    if b != 0 then Finite(a as real / b as real)
    else if a > 0 then PositiveInfinity
    else if a < 0 then NegativeInfinity
    else NotANumber
  }

  /** `fold(0) { acc, segment -> acc + segment.length }` */
  function TotalLength(segments: seq<AudioSegment>): int
  {
    if |segments| == 0 then 0 else TotalLength(segments[..|segments| - 1]) + segments[|segments| - 1].length
  }

  /** The total length of the segments flagged as speech. */
  function SpeechLength(segments: seq<AudioSegment>): int
  {
    if |segments| == 0 then 0
    else
      var last := segments[|segments| - 1];
      SpeechLength(segments[..|segments| - 1]) + (if last.hasSpeech then last.length else 0)
  }

  predicate NonNegativeLengths(segments: seq<AudioSegment>)
  {
    forall i :: 0 <= i < |segments| ==> segments[i].length >= 0
  }

  /** With no negative length, the speech segments are a part of the total: 0 <= speech <= total. */
  lemma {:induction false} SpeechWithinTotal(segments: seq<AudioSegment>)
    requires NonNegativeLengths(segments)
    ensures 0 <= SpeechLength(segments) <= TotalLength(segments)
  {
    if |segments| > 0 {
      SpeechWithinTotal(segments[..|segments| - 1]);
    }
  }

  /** `calculateSpeechPercentage`: 0 for no audio or no speech, else speech over total. */
  function SpeechPercentage(segments: seq<AudioSegment>): (r: real)
    ensures TotalLength(segments) == 0 || SpeechLength(segments) == 0 ==> r == 0.0
    ensures TotalLength(segments) != 0 && SpeechLength(segments) != 0
            ==> r * (TotalLength(segments) as real) == SpeechLength(segments) as real
  {
    var total := TotalLength(segments);
    var speech := SpeechLength(segments);
    if total == 0 then 0.0
    else if speech == 0 then 0.0
    else speech as real / total as real
  }

  /** For segments of non-negative length the speech percentage is a fraction. */
  lemma SpeechPercentageIsFraction(segments: seq<AudioSegment>)
    requires NonNegativeLengths(segments)
    ensures 0.0 <= SpeechPercentage(segments) <= 1.0
  {
    SpeechWithinTotal(segments);
    if TotalLength(segments) != 0 {
      Fraction(SpeechLength(segments), TotalLength(segments));
    }
  }

  /** A part over its whole is a fraction. */
  lemma Fraction(part: int, whole: int)
    requires 0 <= part <= whole && whole != 0
    ensures 0.0 <= part as real / whole as real <= 1.0
  {
    assert part as real <= whole as real;
  }

  /** Kotlin's `Int` division, which truncates towards zero. */
  function IntDiv(a: int, b: int): (q: int)
    requires b > 0
    ensures a >= 0 ==> q == a / b
    ensures a < 0 ==> q == -((-a) / b)
  {
    if a >= 0 then a / b else -((-a) / b)
  }

  /** The bytes per second of audio at a bit depth and sample rate, in `Int` arithmetic. */
  function ByteRate(sampleRate: int, depth: int): int
  {
    IntDiv(Wrap32(depth * sampleRate), 8)
  }

  /** `calculateLength`: the recording's length in seconds, its bytes over the byte rate. */
  function RecordingLength(segments: seq<AudioSegment>, sampleRate: int, depth: int): (r: Float)
    ensures ByteRate(sampleRate, depth) != 0 ==>
            r == Finite(TotalLength(segments) as real / ByteRate(sampleRate, depth) as real)
  {
    Divide(TotalLength(segments), ByteRate(sampleRate, depth))
  }

  /** At 16 kHz in 16-bit samples the byte rate is 32000, so the length is the byte count over 32000. */
  lemma SixteenBitSixteenKilohertz(segments: seq<AudioSegment>)
    ensures RecordingLength(segments, 16000, 16) == Finite(TotalLength(segments) as real / 32000.0)
  {
    Wrap32InRange(256000);
  }

  /** Kotlin's `Boolean.toString()`. */
  function BoolToString(b: bool): string
  {
    if b then "true" else "false"
  }

  /** The group key of `percentagePerLabel`: the label and the speech flag. */
  function LabelKey(s: AudioSegment): string
  {
    s.soundLabel + "/" + BoolToString(s.hasSpeech)
  }

  /** The total length of the segments whose group key is `key`. */
  function GroupLength(segments: seq<AudioSegment>, key: string): int
  {
    if |segments| == 0 then 0
    else
      var last := segments[|segments| - 1];
      GroupLength(segments[..|segments| - 1], key) + (if LabelKey(last) == key then last.length else 0)
  }

  /** The group keys present in the segments. */
  function LabelKeys(segments: seq<AudioSegment>): (keys: set<string>)
    ensures forall k :: k in keys <==> exists i :: 0 <= i < |segments| && LabelKey(segments[i]) == k
  {
    set i | 0 <= i < |segments| :: LabelKey(segments[i])
  }

  /** `percentagePerLabel`: for each group key, the group's length over the total length. */
  function PercentagePerLabel(segments: seq<AudioSegment>): (r: map<string, Float>)
    ensures r.Keys == LabelKeys(segments)
    ensures forall k :: k in r ==> r[k] == Divide(GroupLength(segments, k), TotalLength(segments))
  {
    map k | k in LabelKeys(segments) :: Divide(GroupLength(segments, k), TotalLength(segments))
  }

  /** A group is a part of the total when no length is negative, so each share is a fraction. */
  lemma {:induction false} GroupWithinTotal(segments: seq<AudioSegment>, key: string)
    requires NonNegativeLengths(segments)
    ensures 0 <= GroupLength(segments, key) <= TotalLength(segments)
  {
    if |segments| > 0 {
      GroupWithinTotal(segments[..|segments| - 1], key);
    }
  }

  /** Every share of `percentagePerLabel` lies in [0, 1] when there is audio. */
  lemma LabelSharesAreFractions(segments: seq<AudioSegment>, key: string)
    requires NonNegativeLengths(segments) && TotalLength(segments) != 0 && key in PercentagePerLabel(segments)
    ensures PercentagePerLabel(segments)[key].Finite?
    ensures 0.0 <= PercentagePerLabel(segments)[key].value <= 1.0
  {
    GroupWithinTotal(segments, key);
    Fraction(GroupLength(segments, key), TotalLength(segments));
  }
}
