/**
 * The segmenter that turns a stream of classified audio frame chunks into segments: a segment
 * ends where the sound label changes, and the section still open at the end of the stream is
 * the last one.
 */
module AudioSegmentReader {
  import opened Wrappers
  import opened VadReader

  /** A frame chunk as the segmenter sees it: its byte count and the label its sound was classified as. */
  datatype Chunk = Chunk(size: int, soundLabel: string)

  /** The reader's fields: bytes read so far, bytes in the open section, and the open section's label ("" before the first chunk). */
  datatype ReaderState = ReaderState(position: int, currentSectionLength: int, previousSectionLabel: string)

  const Initial: ReaderState := ReaderState(0, 0, "")

  /** `isSpeech` */
  predicate IsSpeech(soundLabel: string)
  {
    soundLabel == "Speech"
  }

  /** The open section as a segment, ending at the current position. */
  function Section(s: ReaderState): (seg: AudioSegment)
    ensures seg.hasSpeech <==> seg.soundLabel == "Speech"
    ensures seg.position == s.position && seg.length == s.currentSectionLength
  {
    AudioSegment(s.position, s.currentSectionLength, IsSpeech(s.previousSectionLabel), s.previousSectionLabel)
  }

  /**
   * `processFrameChunk`: before the first label, adopt the chunk's label; on a label change,
   * close the open section as a segment and start a new one; in every case the chunk's bytes go
   * to the open section and to the position.
   */
  function Process(s: ReaderState, c: Chunk): (r: (ReaderState, Option<AudioSegment>))
    ensures r.1.Some? <==> s.previousSectionLabel != "" && c.soundLabel != s.previousSectionLabel
    ensures r.1.Some? ==> r.1.value == Section(s) && r.0.currentSectionLength == c.size
    ensures r.1.None? ==> r.0.currentSectionLength == s.currentSectionLength + c.size
    ensures r.0.previousSectionLabel == c.soundLabel
    ensures r.0.position == s.position + c.size
  {
    if s.previousSectionLabel == "" then
      (s.(previousSectionLabel := c.soundLabel, currentSectionLength := s.currentSectionLength + c.size,
          position := s.position + c.size), None)
    else if c.soundLabel != s.previousSectionLabel then
      (ReaderState(s.position + c.size, c.size, c.soundLabel), Some(Section(s)))
    else
      (s.(currentSectionLength := s.currentSectionLength + c.size, position := s.position + c.size), None)
  }

  function OptionToSeq<T>(o: Option<T>): seq<T>
  {
    if o.Some? then [o.value] else []
  }

  /** Feeding chunks one after another: the final state and the segments emitted, in order. */
  function Feed(s: ReaderState, chunks: seq<Chunk>): (ReaderState, seq<AudioSegment>)
  {
    if |chunks| == 0 then (s, [])
    else
      var before := Feed(s, chunks[..|chunks| - 1]);
      var step := Process(before.0, chunks[|chunks| - 1]);
      (step.0, before.1 + OptionToSeq(step.1))
  }

  function TotalSize(chunks: seq<Chunk>): int
  {
    if |chunks| == 0 then 0 else TotalSize(chunks[..|chunks| - 1]) + chunks[|chunks| - 1].size
  }

  lemma TotalLengthAppend(segments: seq<AudioSegment>, more: seq<AudioSegment>)
    requires |more| <= 1
    ensures TotalLength(segments + more) == TotalLength(segments) + TotalLength(more)
  {
    if |more| == 1 {
      assert (segments + more)[..|segments|] == segments;
      assert more[..0] == [];
    } else {
      assert segments + more == segments;
    }
  }

  /**
   * No byte is lost or counted twice: the emitted segments and the open section together hold
   * every byte fed in, and the position is the number of bytes fed in.
   */
  lemma {:induction false} FeedConservesBytes(chunks: seq<Chunk>)
    ensures var r := Feed(Initial, chunks);
            TotalLength(r.1) + r.0.currentSectionLength == TotalSize(chunks)
            && r.0.position == TotalSize(chunks)
  {
    if |chunks| > 0 {
      var before := Feed(Initial, chunks[..|chunks| - 1]);
      FeedConservesBytes(chunks[..|chunks| - 1]);
      TotalLengthAppend(before.1, OptionToSeq(Process(before.0, chunks[|chunks| - 1]).1));
    }
  }

  /** The segments a detector reports, the last section included, add up to the bytes fed in. */
  lemma SegmentsCoverAllBytes(chunks: seq<Chunk>)
    ensures var r := Feed(Initial, chunks);
            TotalLength(r.1 + [Section(r.0)]) == TotalSize(chunks)
  {
    var r := Feed(Initial, chunks);
    FeedConservesBytes(chunks);
    TotalLengthAppend(r.1, [Section(r.0)]);
    assert [Section(r.0)][..0] == [];
  }

  /** Every chunk label is a real label. */
  predicate Labelled(chunks: seq<Chunk>)
  {
    forall i :: 0 <= i < |chunks| ==> chunks[i].soundLabel != ""
  }

  /** No segment is unlabelled and no two segments in a row have the same label. */
  predicate Alternating(segments: seq<AudioSegment>)
  {
    && (forall i :: 0 <= i < |segments| ==> segments[i].soundLabel != "")
    && (forall i :: 0 < i < |segments| ==> segments[i - 1].soundLabel != segments[i].soundLabel)
  }

  lemma AlternatingExtend(segments: seq<AudioSegment>, a: AudioSegment, b: AudioSegment)
    requires Alternating(segments + [a]) && b.soundLabel != "" && b.soundLabel != a.soundLabel
    ensures Alternating(segments + [a] + [b])
  {
  }

  lemma AlternatingReplaceLast(segments: seq<AudioSegment>, a: AudioSegment, b: AudioSegment)
    requires Alternating(segments + [a]) && b.soundLabel == a.soundLabel
    ensures Alternating(segments + [b])
  {
    assert forall i :: 0 <= i < |segments| ==> (segments + [b])[i] == (segments + [a])[i];
  }

  /**
   * With every chunk labelled, the segments emitted and then the last section never repeat a
   * label twice in a row, and no segment is unlabelled; a label is open once a chunk was fed.
   */
  lemma {:induction false} FeedAlternates(chunks: seq<Chunk>)
    requires Labelled(chunks)
    ensures var r := Feed(Initial, chunks);
            (|chunks| > 0 ==> Alternating(r.1 + [Section(r.0)])) && (|chunks| > 0 <==> r.0.previousSectionLabel != "")
  {
    if |chunks| > 0 {
      var init := chunks[..|chunks| - 1];
      assert Labelled(init) by {
        forall i | 0 <= i < |init| ensures init[i].soundLabel != "" {
          assert init[i] == chunks[i];
        }
      }
      FeedAlternates(init);
      var before := Feed(Initial, init);
      var c := chunks[|chunks| - 1];
      assert c.soundLabel != "";
      var step := Process(before.0, c);
      assert Feed(Initial, chunks) == (step.0, before.1 + OptionToSeq(step.1));
      if step.1.Some? {
        AlternatingExtend(before.1, Section(before.0), Section(step.0));
        assert before.1 + OptionToSeq(step.1) == before.1 + [Section(before.0)];
      } else if |init| > 0 {
        AlternatingReplaceLast(before.1, Section(before.0), Section(step.0));
        assert before.1 + OptionToSeq(step.1) == before.1;
      } else {
        assert before.1 + OptionToSeq(step.1) == [];
      }
    }
  }

  /** The first chunk never closes a segment. */
  lemma FirstChunkEmitsNothing(c: Chunk)
    ensures Feed(Initial, [c]).1 == []
  {
    assert [c][..0] == [];
  }

  /** The segmenter, with the fields of the source. */
  class Segmenter {
    var position: int
    var currentSectionLength: int
    var previousSectionLabel: string

    function Model(): ReaderState
      reads this
    {
      ReaderState(position, currentSectionLength, previousSectionLabel)
    }

    constructor ()
      ensures Model() == Initial
    {
      position := 0;
      currentSectionLength := 0;
      previousSectionLabel := "";
    }

    /** `processFrameChunk` on a chunk of `frameChunk` bytes labelled `soundLabel`. */
    method ProcessFrameChunk(frameChunk: seq<bv8>, soundLabel: string) returns (segment: Option<AudioSegment>)
      modifies this
      ensures (Model(), segment) == Process(old(Model()), Chunk(|frameChunk|, soundLabel))
    {
      segment := None;
      if previousSectionLabel == "" {
        previousSectionLabel := soundLabel;
      } else if soundLabel != previousSectionLabel {
        segment := Some(AudioSegment(position, currentSectionLength, IsSpeech(previousSectionLabel), previousSectionLabel));
        currentSectionLength := 0;
        previousSectionLabel := soundLabel;
      }
      currentSectionLength := currentSectionLength + |frameChunk|;
      position := position + |frameChunk|;
    }

    /** `getLastSection` */
    method GetLastSection() returns (segment: AudioSegment)
      ensures segment == Section(Model())
    {
      segment := AudioSegment(position, currentSectionLength, IsSpeech(previousSectionLabel), previousSectionLabel);
    }
  }

  /**
   * How a detector uses the segmenter: feed every frame chunk with its label, keep the segments
   * it closes, and finish with the last section.
   */
  method Segment(frames: seq<seq<bv8>>, labels: seq<string>) returns (segments: seq<AudioSegment>)
    requires |frames| == |labels|
    ensures var chunks := seq(|frames|, i requires 0 <= i < |frames| => Chunk(|frames[i]|, labels[i]));
            var r := Feed(Initial, chunks);
            segments == r.1 + [Section(r.0)]
  {
    ghost var chunks := seq(|frames|, i requires 0 <= i < |frames| => Chunk(|frames[i]|, labels[i]));
    var reader := new Segmenter();
    segments := [];
    for i := 0 to |frames|
      invariant reader.Model() == Feed(Initial, chunks[..i]).0
      invariant segments == Feed(Initial, chunks[..i]).1
    {
      assert chunks[..i + 1][..i] == chunks[..i];
      var segment := reader.ProcessFrameChunk(frames[i], labels[i]);
      if segment.Some? {
        segments := segments + [segment.value];
      }
    }
    assert chunks[..|frames|] == chunks;
    var last := reader.GetLastSection();
    segments := segments + [last];
  }
}
