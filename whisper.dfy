/** The segment filter of the transcriber: the text segments the speech recogniser
    returns are trimmed, and empty segments, repeats of the last kept segment and
    segments carrying a typical recogniser hallucination are dropped. The recogniser
    itself is outside the model: its success flag and its segments are inputs. */
module Transcript {
  import opened RustStd

  /** Phrases the recogniser produces on silence or music rather than speech. */
  const HALLUCINATIONS: seq<string> := [
    "Субтитры",
    "субтитры",
    "Подписывайтесь",
    "подписывайтесь",
    "Спасибо за просмотр",
    "www.",
    "http",
    "...",
    "♪",
    "Продолжение следует"
  ]

  /** Some marker of `markers` is a substring of `text` (the `any` over the list). */
  function AnyContained(markers: seq<string>, text: string): bool {
    markers != [] && (Contains(text, markers[0]) || AnyContained(markers[1..], text))
  }

  lemma {:induction false} AnyContainedMeaning(markers: seq<string>, text: string)
    ensures AnyContained(markers, text) <==> exists k: nat, j: nat :: k < |markers| && OccursAt(text, markers[k], j)
  {
    if markers != [] {
      AnyContainedMeaning(markers[1..], text);
      assert forall k: nat, j: nat :: 0 < k < |markers| ==>
        (OccursAt(text, markers[k], j) <==> OccursAt(text, markers[1..][k - 1], j));
    }
  }

  /** `is_hallucination`: some entry of HALLUCINATIONS occurs in `text`. */
  function IsHallucination(text: string): (r: bool)
    ensures r <==> exists k: nat, j: nat :: k < |HALLUCINATIONS| && OccursAt(text, HALLUCINATIONS[k], j)
  {
    AnyContainedMeaning(HALLUCINATIONS, text);
    AnyContained(HALLUCINATIONS, text)
  }

  /** The previous kept text, or the empty string before anything was kept. */
  function LastOr(kept: seq<string>): string {
    if kept == [] then "" else kept[|kept| - 1]
  }

  /** Whether a trimmed segment survives, given the last kept one and the marker list. */
  predicate Keeps(text: string, prev: string, markers: seq<string>) {
    !(text == [] || text == prev || AnyContained(markers, text))
  }

  /** One iteration of the filter: the kept texts after looking at one more segment.
      A `None` stands for a segment index the recogniser yields no text for. */
  function Step(kept: seq<string>, seg: Option<string>, markers: seq<string>): seq<string> {
    match seg
    case None => kept
    case Some(raw) =>
      var text := Trim(raw);
      if Keeps(text, LastOr(kept), markers) then kept + [text] else kept
  }

  /** The reference filter: the kept segments of `segs`, processed in index order. The
      marker list is a parameter so that the lemmas about the filter hold for any list. */
  function Filtered(segs: seq<Option<string>>, markers: seq<string>): seq<string>
    decreases |segs|
  {
    if segs == [] then [] else Step(Filtered(segs[..|segs| - 1], markers), segs[|segs| - 1], markers)
  }

  /** The filter with the recogniser's hallucination list. */
  function Kept(segs: seq<Option<string>>): seq<string> {
    Filtered(segs, HALLUCINATIONS)
  }

  /** `transcribe`: when the recognition run fails nothing is returned; otherwise the
      segments are filtered in index order, comparing each with the last kept one. */
  method Transcribe(fullOk: bool, segments: seq<Option<string>>) returns (results: seq<string>)
    ensures !fullOk ==> results == []
    ensures fullOk ==> results == Kept(segments)
    ensures forall k :: 0 <= k < |results| ==>
              results[k] != [] && IsTrimmed(results[k]) && !IsHallucination(results[k])
    ensures NoAdjacentRepeats(results)
  {
    if !fullOk {
      return [];
    }
    results := [];
    var prevText := "";
    for i := 0 to |segments|
      invariant results == Kept(segments[..i])
      invariant prevText == LastOr(results)
    {
      assert segments[..i + 1][..i] == segments[..i];
      match segments[i] {
        case None =>
        case Some(raw) =>
          var text := Trim(raw);
          if text == [] || text == prevText || IsHallucination(text) {
            continue;
          }
          results := results + [text];
          prevText := text;
      }
    }
    assert segments[..|segments|] == segments;
    FilteredClean(segments, HALLUCINATIONS);
    FilteredNoAdjacentRepeats(segments, HALLUCINATIONS);
  }

  /** A text the filter can return: trimmed, non-empty and free of the markers. */
  predicate Clean(text: string, markers: seq<string>) {
    text != [] && IsTrimmed(text) && !AnyContained(markers, text)
  }

  predicate NoAdjacentRepeats(texts: seq<string>) {
    forall k :: 0 <= k < |texts| - 1 ==> texts[k] != texts[k + 1]
  }

  /** Every kept segment is trimmed, non-empty and free of the markers. */
  lemma {:induction false} FilteredClean(segs: seq<Option<string>>, markers: seq<string>)
    ensures forall k :: 0 <= k < |Filtered(segs, markers)| ==> Clean(Filtered(segs, markers)[k], markers)
  {
    if segs != [] {
      var init := segs[..|segs| - 1];
      FilteredClean(init, markers);
      match segs[|segs| - 1]
      case None =>
      case Some(raw) =>
        var text := Trim(raw);
        if Keeps(text, LastOr(Filtered(init, markers)), markers) {
          assert Clean(text, markers);
        }
    }
  }

  /** No two adjacent kept segments are equal. */
  lemma {:induction false} FilteredNoAdjacentRepeats(segs: seq<Option<string>>, markers: seq<string>)
    ensures NoAdjacentRepeats(Filtered(segs, markers))
  {
    if segs != [] {
      var init := segs[..|segs| - 1];
      var kept := Filtered(init, markers);
      FilteredNoAdjacentRepeats(init, markers);
      match segs[|segs| - 1]
      case None =>
      case Some(raw) =>
        var text := Trim(raw);
        if Keeps(text, LastOr(kept), markers) {
          var r := kept + [text];
          assert kept != [] ==> r[|kept| - 1] != r[|kept|];
        }
    }
  }

  /** The indices of the segments the filter keeps, in index order. */
  function KeptIndices(segs: seq<Option<string>>, markers: seq<string>): seq<nat>
    decreases |segs|
  {
    if segs == [] then []
    else
      var last := |segs| - 1;
      var init := segs[..last];
      var prefix := KeptIndices(init, markers);
      if segs[last].Some? && Keeps(Trim(segs[last].value), LastOr(Filtered(init, markers)), markers)
      then prefix + [last] else prefix
  }

  /** The kept indices are valid and strictly increasing. */
  lemma {:induction false} KeptIndicesIncrease(segs: seq<Option<string>>, markers: seq<string>)
    ensures forall k :: 0 <= k < |KeptIndices(segs, markers)| ==> KeptIndices(segs, markers)[k] < |segs|
    ensures forall j, k :: 0 <= j < k < |KeptIndices(segs, markers)| ==>
              KeptIndices(segs, markers)[j] < KeptIndices(segs, markers)[k]
  {
    if segs != [] {
      KeptIndicesIncrease(segs[..|segs| - 1], markers);
    }
  }

  /** The result is a subsequence of the trimmed segments: its k-th text is the trim of
      the segment at the k-th kept index, and those indices increase. */
  lemma {:induction false} FilteredIsSubsequence(segs: seq<Option<string>>, markers: seq<string>)
    ensures |KeptIndices(segs, markers)| == |Filtered(segs, markers)|
    ensures forall k :: 0 <= k < |KeptIndices(segs, markers)| ==>
              var i := KeptIndices(segs, markers)[k];
              i < |segs| && segs[i].Some? && Filtered(segs, markers)[k] == Trim(segs[i].value)
  {
    if segs != [] {
      var last := |segs| - 1;
      var init := segs[..last];
      FilteredIsSubsequence(init, markers);
      KeptIndicesIncrease(init, markers);
      var prefix, kept := KeptIndices(init, markers), Filtered(init, markers);
      var ks, fs := KeptIndices(segs, markers), Filtered(segs, markers);
      if segs[last].Some? && Keeps(Trim(segs[last].value), LastOr(kept), markers) {
        assert ks == prefix + [last] && fs == kept + [Trim(segs[last].value)];
      } else {
        assert ks == prefix && fs == kept;
      }
      forall k | 0 <= k < |ks|
        ensures ks[k] < |segs| && segs[ks[k]].Some? && fs[k] == Trim(segs[ks[k]].value)
      {
        if k < |prefix| {
          assert ks[k] == prefix[k] && fs[k] == kept[k];
          assert segs[prefix[k]] == init[prefix[k]];
        }
      }
    }
  }

  /** A dropped segment leaves no trace: whatever follows it is filtered exactly as if
      it were absent, because the duplicate check compares against the last KEPT text. */
  lemma {:induction false} DroppedSegmentIsTransparent(segs: seq<Option<string>>, s: Option<string>,
                                                       tail: seq<Option<string>>, markers: seq<string>)
    requires Filtered(segs + [s], markers) == Filtered(segs, markers)
    ensures Filtered(segs + [s] + tail, markers) == Filtered(segs + tail, markers)
    decreases |tail|
  {
    if tail == [] {
      assert segs + [s] + tail == segs + [s];
      assert segs + tail == segs;
    } else {
      var init := tail[..|tail| - 1];
      DroppedSegmentIsTransparent(segs, s, init, markers);
      assert (segs + [s] + tail)[..|segs + [s] + tail| - 1] == segs + [s] + init;
      assert (segs + tail)[..|segs + tail| - 1] == segs + init;
      assert (segs + [s] + tail)[|segs + [s] + tail| - 1] == tail[|tail| - 1];
      assert (segs + tail)[|segs + tail| - 1] == tail[|tail| - 1];
    }
  }

  /** A segment that trims to the last kept text is dropped, even when segments that
      were themselves dropped lie between the two. */
  lemma RepeatAfterDroppedIsDropped(segs: seq<Option<string>>, dropped: seq<Option<string>>,
                                    raw: string, markers: seq<string>)
    requires Trim(raw) == LastOr(Filtered(segs, markers))
    requires Filtered(segs + dropped, markers) == Filtered(segs, markers)
    ensures Filtered(segs + dropped + [Some(raw)], markers) == Filtered(segs, markers)
  {
    assert (segs + dropped + [Some(raw)])[..|segs + dropped + [Some(raw)]| - 1] == segs + dropped;
  }
}
