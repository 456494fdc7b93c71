/**
 The access-unit assembler of the iOS device bridge: it cuts a depacketized H.265 byte stream,
 handed over in chunks, into frames.

 The reference is a one-shot cut of the whole stream at a set of positions, `CutAt`. The
 positions are the access unit delimiters of the stream, in the Annex B framing of ITU-T
 H.265, and the ends of the chunks whose packet had the RTP marker bit of section 4.1 of
 RFC 7798.
 */
module AccessUnits {

  type byte = b: int | 0 <= b < 256

  type Bytes = seq<byte>

  const MAX_FRAME_BYTES: nat := 8 * 1024 * 1024

  const ACCESS_UNIT_DELIMITER: Bytes := [0x00, 0x00, 0x00, 0x01, 0x46, 0x01, 0x50]

  const DELIMITER_BYTES: nat := 7

  predicate DelimiterAt(stream: Bytes, offset: int) {
    0 <= offset && offset + DELIMITER_BYTES <= |stream|
    && stream[offset..offset + DELIMITER_BYTES] == ACCESS_UNIT_DELIMITER
  }

  /** The offsets of the delimiters, from `from` on. */
  function DelimitersFrom(stream: Bytes, from: nat): (offsets: seq<nat>)
    decreases |stream| - from
  {
    if from + DELIMITER_BYTES > |stream| then []
    else if DelimiterAt(stream, from) then [from] + DelimitersFrom(stream, from + 1)
    else DelimitersFrom(stream, from + 1)
  }

  /** `offsets` are exactly the delimiters from `from` on, ascending. */
  ghost predicate Lists(stream: Bytes, from: nat, offsets: seq<nat>) {
    && (forall i :: 0 <= i < |offsets| ==> from <= offsets[i] && DelimiterAt(stream, offsets[i]))
    && (forall offset :: from <= offset && DelimiterAt(stream, offset) ==> offset in offsets)
    && (forall i, j :: 0 <= i < j < |offsets| ==> offsets[i] < offsets[j])
  }

  lemma {:induction false} DelimitersAreAll(stream: Bytes, from: nat)
    ensures Lists(stream, from, DelimitersFrom(stream, from))
    decreases |stream| - from
  {
    if from + DELIMITER_BYTES <= |stream| {
      DelimitersAreAll(stream, from + 1);
    }
  }

  // ---------------------------------------------------------------------------------------------
  // Cutting a stream at a set of positions

  /** The completed segments, and the one that is still open. */
  datatype Cutting = Cutting(done: seq<Bytes>, open: Bytes)

  /** A cut at position `p` falls before byte `p`, or after the last byte. */
  function CutAt(stream: Bytes, cuts: set<nat>): Cutting {
    var grown :=
      if stream == [] then Cutting([], [])
      else
        var before := CutAt(stream[..|stream| - 1], cuts);
        Cutting(before.done, before.open + [stream[|stream| - 1]]);
    if |stream| in cuts then Cutting(grown.done + [grown.open], []) else grown
  }

  function Flatten(parts: seq<Bytes>): Bytes {
    if parts == [] then [] else Flatten(parts[..|parts| - 1]) + parts[|parts| - 1]
  }

  lemma FlattenAppend(parts: seq<Bytes>, last: Bytes)
    ensures Flatten(parts + [last]) == Flatten(parts) + last
  {
    assert (parts + [last])[..|parts|] == parts;
  }

  lemma Regroups<T>(one: seq<T>, two: seq<T>, three: seq<T>)
    ensures one + two + three == one + (two + three)
  {
  }

  /** Nothing of the stream is lost or doubled: the segments and the open one make up the stream. */
  lemma {:induction false} CuttingConserves(stream: Bytes, cuts: set<nat>)
    ensures var cutting := CutAt(stream, cuts);
            Flatten(cutting.done) + cutting.open == stream
  {
    var grown := Cutting([], []);
    if stream != [] {
      var before := CutAt(stream[..|stream| - 1], cuts);
      CuttingConserves(stream[..|stream| - 1], cuts);
      grown := Cutting(before.done, before.open + [stream[|stream| - 1]]);
      Regroups(Flatten(before.done), before.open, [stream[|stream| - 1]]);
      assert stream == stream[..|stream| - 1] + [stream[|stream| - 1]];
    }
    assert Flatten(grown.done) + grown.open == stream;
    FlattenAppend(grown.done, grown.open);
  }

  /** Only positions up to the end of the stream matter. */
  lemma {:induction false} SameCuts(stream: Bytes, cuts: set<nat>, others: set<nat>)
    requires forall p: nat :: p <= |stream| ==> (p in cuts <==> p in others)
    ensures CutAt(stream, cuts) == CutAt(stream, others)
  {
    if stream != [] {
      SameCuts(stream[..|stream| - 1], cuts, others);
    }
  }

  /** More bytes without a cut go to the open segment. */
  lemma {:induction false} CutGrows(stream: Bytes, more: Bytes, cuts: set<nat>)
    requires forall p: nat :: |stream| < p <= |stream| + |more| ==> p !in cuts
    ensures var before := CutAt(stream, cuts);
            CutAt(stream + more, cuts) == Cutting(before.done, before.open + more)
  {
    if more == [] {
      assert stream + more == stream;
    } else {
      var n := |more| - 1;
      CutGrows(stream, more[..n], cuts);
      assert (stream + more)[..|stream| + n] == stream + more[..n];
      assert CutAt(stream, cuts).open + more[..n] + [more[n]] == CutAt(stream, cuts).open + more;
    }
  }

  /** A cut at the end completes the open segment; a second one there finds it empty. */
  lemma CutAtEnd(stream: Bytes, cuts: set<nat>)
    ensures var before := CutAt(stream, cuts);
            var after := CutAt(stream, cuts + {|stream|});
            if |stream| in cuts then after == before && before.open == []
            else after == Cutting(before.done + [before.open], [])
  {
    if |stream| in cuts {
      assert cuts + {|stream|} == cuts;
    } else if stream != [] {
      SameCuts(stream[..|stream| - 1], cuts, cuts + {|stream|});
    }
  }

  // ---------------------------------------------------------------------------------------------
  // Which segments become frames

  predicate Keeps(segment: Bytes) {
    segment != [] && |segment| <= MAX_FRAME_BYTES && segment != ACCESS_UNIT_DELIMITER
  }

  /** The segments that are non-empty, within the cap and more than a bare delimiter, in order. */
  function Kept(segments: seq<Bytes>): seq<Bytes> {
    if segments == [] then []
    else
      var last := segments[|segments| - 1];
      Kept(segments[..|segments| - 1]) + if Keeps(last) then [last] else []
  }

  lemma KeptAppend(segments: seq<Bytes>, last: Bytes)
    ensures Kept(segments + [last]) == Kept(segments) + if Keeps(last) then [last] else []
  {
    assert (segments + [last])[..|segments|] == segments;
  }

  /** Each segment is a frame or not by itself: when it has bytes, no more than the cap, and is not a bare delimiter. */
  lemma FramesAre(segments: seq<Bytes>, more: seq<Bytes>, segment: Bytes)
    ensures Kept(segments + more) == Kept(segments) + Kept(more)
    ensures Kept([segment]) ==
              if 0 < |segment| <= 8_388_608 && segment != [0, 0, 0, 1, 70, 1, 80] then [segment] else []
  {
    KeptBoth(segments, more);
    KeptAppend([], segment);
    assert [] + [segment] == [segment];
  }

  lemma {:induction false} KeptBoth(segments: seq<Bytes>, more: seq<Bytes>)
    ensures Kept(segments + more) == Kept(segments) + Kept(more)
    decreases |more|
  {
    hide Keeps;
    if more == [] {
      assert segments + more == segments;
    } else {
      var n := |more| - 1;
      KeptBoth(segments, more[..n]);
      hide Kept;
      KeptAppend(segments + more[..n], more[n]);
      KeptAppend(more[..n], more[n]);
      Regroups(Kept(segments), Kept(more[..n]), if Keeps(more[n]) then [more[n]] else []);
      Regroups(segments, more[..n], [more[n]]);
      assert more == more[..n] + [more[n]];
    }
  }

  // ---------------------------------------------------------------------------------------------
  // The assembler

  function Shifted(offsets: seq<nat>, at: nat): set<nat> {
    if offsets == [] then {}
    else Shifted(offsets[..|offsets| - 1], at) + {at + offsets[|offsets| - 1]}
  }

  lemma {:induction false} ShiftedAre(offsets: seq<nat>, at: nat, p: nat)
    ensures p in Shifted(offsets, at) <==> at <= p && p - at in offsets
  {
    if offsets != [] {
      ShiftedAre(offsets[..|offsets| - 1], at, p);
      assert offsets == offsets[..|offsets| - 1] + [offsets[|offsets| - 1]];
    }
  }

  /** The positions a chunk is cut at when it comes at `at`. */
  function ChunkCuts(bytes: Bytes, marker: bool, at: nat): set<nat> {
    Shifted(DelimitersFrom(bytes, 0), at) + if marker then {at + |bytes|} else {}
  }

  class AccessUnitAssembler {
    var pending: Bytes
    var oversized: bool
    // All bytes pushed so far, where they were cut, and the frames handed out.
    ghost var stream: Bytes
    ghost var cuts: set<nat>
    ghost var frames: seq<Bytes>

    ghost predicate Valid()
      reads this
    {
      var cutting := CutAt(stream, cuts);
      && frames == Kept(cutting.done)
      && oversized == (|cutting.open| > MAX_FRAME_BYTES)
      && pending == (if oversized then [] else cutting.open)
      && forall p :: p in cuts ==> p <= |stream|
    }

    constructor ()
      ensures Valid() && stream == [] && cuts == {} && frames == []
    {
      pending, oversized := [], false;
      stream, cuts, frames := [], {}, [];
    }

    /** What the depacketizer put out for one packet, and the marker flag of that packet. */
    method Push(output: Bytes, marker: bool) returns (finished: seq<Bytes>)
      requires Valid()
      modifies this
      ensures Valid() && stream == old(stream) + output
      ensures cuts == old(cuts) + ChunkCuts(output, marker, |old(stream)|)
      ensures frames == old(frames) + finished
    {
      hide CutAt, Kept, DelimitersFrom;
      var boundaries := DelimitersFrom(output, 0);
      DelimitersAreAll(output, 0);
      var start: nat;
      finished, start := CutAtBoundaries(output, boundaries);
      Append(output[start..]);
      assert output[..start] + output[start..] == output;
      if marker {
        var frame := Finish();
        finished := finished + frame;
      }
    }

    /** A delimiter ends the access unit before it, also when the packet with the marker was lost. */
    method CutAtBoundaries(output: Bytes, boundaries: seq<nat>) returns (finished: seq<Bytes>, start: nat)
      requires Valid()
      requires forall i :: 0 <= i < |boundaries| ==> boundaries[i] <= |output|
      requires forall i, j :: 0 <= i < j < |boundaries| ==> boundaries[i] < boundaries[j]
      modifies this
      ensures Valid() && start <= |output| && stream == old(stream) + output[..start]
      ensures cuts == old(cuts) + Shifted(boundaries, |old(stream)|)
      ensures frames == old(frames) + finished
    {
      hide CutAt, Kept;
      finished, start := [], 0;
      for i := 0 to |boundaries|
        invariant Valid() && start <= |output|
        invariant start == (if i == 0 then 0 else boundaries[i - 1])
        invariant stream == old(stream) + output[..start]
        invariant cuts == old(cuts) + Shifted(boundaries[..i], |old(stream)|)
        invariant frames == old(frames) + finished
      {
        var frame := CutAfter(output[start..boundaries[i]]);
        finished := finished + frame;
        assert output[..boundaries[i]] == output[..start] + output[start..boundaries[i]];
        start := boundaries[i];
        assert boundaries[..i + 1][..i] == boundaries[..i];
      }
      assert boundaries[..|boundaries|] == boundaries;
    }

    method CutAfter(bytes: Bytes) returns (frame: seq<Bytes>)
      requires Valid()
      modifies this
      ensures Valid() && cuts == old(cuts) + {|stream|} && frames == old(frames) + frame
      ensures stream == old(stream) + bytes
    {
      hide CutAt, Kept;
      Append(bytes);
      frame := Finish();
    }

    method Append(bytes: Bytes)
      requires Valid()
      modifies this`pending, this`oversized, this`stream
      ensures Valid() && stream == old(stream) + bytes
    {
      CutGrows(stream, bytes, cuts);
      stream := stream + bytes;
      if oversized {
        return;
      }
      if |pending| + |bytes| > MAX_FRAME_BYTES {
        oversized := true;
        pending := [];
        return;
      }
      pending := pending + bytes;
    }

    /** The frame that ends here, if there is one. */
    method Finish() returns (frame: seq<Bytes>)
      requires Valid()
      modifies this`pending, this`oversized, this`cuts, this`frames
      ensures Valid() && cuts == old(cuts) + {|stream|} && frames == old(frames) + frame
    {
      ghost var before := CutAt(stream, cuts);
      CutAtEnd(stream, cuts);
      KeptAppend(before.done, before.open);
      var last := pending;
      var skipped := oversized;
      pending, oversized := [], false;
      cuts := cuts + {|stream|};
      if skipped {
        frame := [];
      } else {
        frame := if last != [] && last != ACCESS_UNIT_DELIMITER then [last] else [];
      }
      frames := frames + frame;
    }
  }

  // ---------------------------------------------------------------------------------------------
  // Runs

  datatype Chunk = Chunk(bytes: Bytes, marker: bool)

  function Stream(run: seq<Chunk>): Bytes {
    if run == [] then [] else Stream(run[..|run| - 1]) + run[|run| - 1].bytes
  }

  /** Where chunk `i` begins in the stream. */
  function StartOf(run: seq<Chunk>, i: nat): nat
    requires i <= |run|
  {
    |Stream(run[..i])|
  }

  /** The ends of the chunks with a marker. */
  ghost function Marks(run: seq<Chunk>): set<nat> {
    if run == [] then {}
    else Marks(run[..|run| - 1]) + if run[|run| - 1].marker then {|Stream(run)|} else {}
  }

  /** Where the assembler cuts: at the delimiters it sees within a chunk, and at the marks. */
  ghost function CutsOf(run: seq<Chunk>): set<nat> {
    if run == [] then {}
    else
      var last := run[|run| - 1];
      CutsOf(run[..|run| - 1]) + ChunkCuts(last.bytes, last.marker, |Stream(run[..|run| - 1])|)
  }

  /** The frames of a run are the kept segments of one cut of the whole stream. */
  method Assemble(run: seq<Chunk>) returns (frames: seq<Bytes>)
    ensures frames == Kept(CutAt(Stream(run), CutsOf(run)).done)
  {
    var assembler := new AccessUnitAssembler();
    frames := [];
    for i := 0 to |run|
      invariant fresh(assembler) && assembler.Valid() && assembler.frames == frames
      invariant assembler.stream == Stream(run[..i]) && assembler.cuts == CutsOf(run[..i])
    {
      assert run[..i + 1][..i] == run[..i];
      var finished := assembler.Push(run[i].bytes, run[i].marker);
      frames := frames + finished;
    }
    assert run[..|run|] == run;
  }

  /** The delimiters of the whole stream. */
  ghost function DelimitersOf(stream: Bytes): set<nat> {
    set offset | 0 <= offset < |stream| && DelimiterAt(stream, offset)
  }

  /** A delimiter at `p` lies in one chunk. */
  ghost predicate WithinOneChunk(run: seq<Chunk>, p: nat) {
    exists i: nat :: InChunk(run, i, p)
  }

  ghost predicate InChunk(run: seq<Chunk>, i: nat, p: nat) {
    i < |run| && StartOf(run, i) <= p && p + DELIMITER_BYTES <= StartOf(run, i + 1)
  }

  lemma {:induction false} StreamSplits(run: seq<Chunk>, i: nat)
    requires i < |run|
    ensures StartOf(run, i + 1) == StartOf(run, i) + |run[i].bytes| <= |Stream(run)|
    ensures Stream(run)[StartOf(run, i)..StartOf(run, i + 1)] == run[i].bytes
    decreases |run|
  {
    var shorter := run[..|run| - 1];
    if i == |run| - 1 {
      assert run[..i + 1] == run;
    } else {
      StreamSplits(shorter, i);
      assert shorter[..i] == run[..i] && shorter[..i + 1] == run[..i + 1];
      assert Stream(run)[..|Stream(shorter)|] == Stream(shorter);
    }
  }

  /** A delimiter of the stream within one chunk is one of that chunk. */
  lemma DelimiterInChunk(run: seq<Chunk>, i: nat, p: nat)
    requires InChunk(run, i, p)
    ensures DelimiterAt(Stream(run), p) <==> DelimiterAt(run[i].bytes, p - StartOf(run, i))
  {
    StreamSplits(run, i);
    var start := StartOf(run, i);
    assert Stream(run)[start..StartOf(run, i + 1)][p - start..p - start + DELIMITER_BYTES]
        == Stream(run)[p..p + DELIMITER_BYTES];
  }

  /** Where the assembler cuts, position by position. */
  lemma {:induction false} CutsAre(run: seq<Chunk>, p: nat)
    ensures p in CutsOf(run) <==> p in Marks(run) || (DelimiterAt(Stream(run), p) && WithinOneChunk(run, p))
    decreases |run|
  {
    if run != [] {
      CutsAre(run[..|run| - 1], p);
      ShorterChunks(run, p);
      LastChunkCuts(run, p);
    }
  }

  lemma LastChunkCuts(run: seq<Chunk>, p: nat)
    requires run != []
    ensures var n := |run| - 1;
            p in ChunkCuts(run[n].bytes, run[n].marker, |Stream(run[..n])|) <==>
              || (DelimiterAt(Stream(run), p) && InChunk(run, n, p))
              || (run[n].marker && p == |Stream(run)|)
  {
    var n := |run| - 1;
    assert run[..n + 1] == run;
    ChunkCutsAre(run[n].bytes, run[n].marker, StartOf(run, n), p);
    if InChunk(run, n, p) {
      DelimiterInChunk(run, n, p);
    }
  }

  lemma ChunkCutsAre(bytes: Bytes, marker: bool, at: nat, p: nat)
    ensures p in ChunkCuts(bytes, marker, at) <==>
              (at <= p && DelimiterAt(bytes, p - at)) || (marker && p == at + |bytes|)
  {
    DelimitersAreAll(bytes, 0);
    ShiftedAre(DelimitersFrom(bytes, 0), at, p);
  }

  lemma ShorterChunks(run: seq<Chunk>, p: nat)
    requires run != []
    ensures var n := |run| - 1;
            var shorter := run[..n];
            DelimiterAt(Stream(run), p) && WithinOneChunk(run, p) <==>
              || (DelimiterAt(Stream(shorter), p) && WithinOneChunk(shorter, p))
              || (DelimiterAt(Stream(run), p) && InChunk(run, n, p))
  {
    var n := |run| - 1;
    var shorter := run[..n];
    assert Stream(run)[..|Stream(shorter)|] == Stream(shorter);
    if p + DELIMITER_BYTES <= |Stream(shorter)| {
      assert Stream(run)[p..p + DELIMITER_BYTES] == Stream(shorter)[p..p + DELIMITER_BYTES];
    }
    if WithinOneChunk(run, p) {
      var i: nat :| InChunk(run, i, p);
      if i < n {
        SameChunk(run, i, p);
      }
    }
    if WithinOneChunk(shorter, p) {
      var i: nat :| InChunk(shorter, i, p);
      SameChunk(run, i, p);
      assert InChunk(run, i, p);
    }
  }

  lemma SameChunk(run: seq<Chunk>, i: nat, p: nat)
    requires i < |run| - 1
    ensures InChunk(run, i, p) <==> InChunk(run[..|run| - 1], i, p)
    ensures InChunk(run, i, p) ==> p + DELIMITER_BYTES <= |Stream(run[..|run| - 1])|
  {
    var shorter := run[..|run| - 1];
    assert shorter[..i] == run[..i] && shorter[..i + 1] == run[..i + 1];
    StreamSplits(shorter, i);
  }

  /** No delimiter straddles two chunks, except where a mark cuts anyway. */
  ghost predicate NoStraddle(run: seq<Chunk>) {
    forall p: nat :: DelimiterAt(Stream(run), p) ==> WithinOneChunk(run, p) || p in Marks(run)
  }

  /** The assembler cuts at every delimiter and every mark, and nowhere else, exactly when no delimiter straddles. */
  lemma CutsEverywhereIffNoStraddle(run: seq<Chunk>)
    ensures CutsOf(run) == DelimitersOf(Stream(run)) + Marks(run) <==> NoStraddle(run)
  {
    forall p: nat
      ensures p in CutsOf(run) <==> p in Marks(run) || (DelimiterAt(Stream(run), p) && WithinOneChunk(run, p))
    {
      CutsAre(run, p);
    }
    if CutsOf(run) == DelimitersOf(Stream(run)) + Marks(run) {
      forall p: nat | DelimiterAt(Stream(run), p) ensures WithinOneChunk(run, p) || p in Marks(run) {
        assert p in DelimitersOf(Stream(run));
      }
    }
    if NoStraddle(run) {
      forall p ensures p in CutsOf(run) <==> p in DelimitersOf(Stream(run)) + Marks(run) {
        if p in CutsOf(run) {
          assert p in Marks(run) || DelimiterAt(Stream(run), p);
        }
      }
    }
  }

  /** However the same stream with the same marks is chunked, without a straddling delimiter the frames are the same. */
  lemma ChunkingDoesNotMatter(run: seq<Chunk>, other: seq<Chunk>)
    requires NoStraddle(run) && NoStraddle(other) && Stream(run) == Stream(other) && Marks(run) == Marks(other)
    ensures Kept(CutAt(Stream(run), CutsOf(run)).done) == Kept(CutAt(Stream(other), CutsOf(other)).done)
    ensures CutAt(Stream(run), CutsOf(run)).open == CutAt(Stream(other), CutsOf(other)).open
  {
    CutsEverywhereIffNoStraddle(run);
    CutsEverywhereIffNoStraddle(other);
  }

  const FIRST_HALF: Bytes := [9, 0, 0, 0]
  const SECOND_HALF: Bytes := [1, 0x46, 1, 0x50, 7]
  const BOTH_HALVES: Bytes := [9, 0, 0, 0, 1, 0x46, 1, 0x50, 7]

  const HALVES := [Chunk(FIRST_HALF, false), Chunk(SECOND_HALF, true)]
  const WHOLE := [Chunk(BOTH_HALVES, true)]

  /** A delimiter in two chunks is missed: the two frames around it come out as one. */
  lemma StraddlingMergesFrames()
    ensures Stream(HALVES) == Stream(WHOLE) == BOTH_HALVES
    ensures Marks(HALVES) == Marks(WHOLE) == {|BOTH_HALVES|}
    ensures Kept(CutAt(BOTH_HALVES, CutsOf(HALVES)).done) == [BOTH_HALVES]
    ensures Kept(CutAt(BOTH_HALVES, CutsOf(WHOLE)).done) == [[9], ACCESS_UNIT_DELIMITER + [7]]
  {
    hide *;
    SameStreams();
    HalvesMerge();
    WholeSplits();
  }

  lemma SameStreams()
    ensures Stream(HALVES) == Stream(WHOLE) == BOTH_HALVES
    ensures Marks(HALVES) == Marks(WHOLE) == {|BOTH_HALVES|}
  {
    assert HALVES[..1] == [Chunk(FIRST_HALF, false)] && HALVES[..1][..0] == [] && WHOLE[..0] == [];
    assert FIRST_HALF + SECOND_HALF == BOTH_HALVES;
  }

  lemma HalvesMerge()
    ensures Kept(CutAt(BOTH_HALVES, CutsOf(HALVES)).done) == [BOTH_HALVES]
  {
    hide CutAt, Kept, CutsOf;
    CutsOfHalves(HALVES);
    CutWhole(BOTH_HALVES);
  }

  lemma WholeSplits()
    ensures Kept(CutAt(BOTH_HALVES, CutsOf(WHOLE)).done) == [[9], ACCESS_UNIT_DELIMITER + [7]]
  {
    hide CutAt, Kept, CutsOf;
    CutsOfWhole(WHOLE);
    assert [9] + (ACCESS_UNIT_DELIMITER + [7]) == BOTH_HALVES;
    CutInTwo([9], ACCESS_UNIT_DELIMITER + [7]);
  }

  lemma CutsOfHalves(halves: seq<Chunk>)
    requires halves == [Chunk(FIRST_HALF, false), Chunk(SECOND_HALF, true)]
    ensures CutsOf(halves) == {9}
  {
    var first := halves[..1];
    assert first[..0] == [] && halves[..|halves| - 1] == first;
    assert DelimitersFrom(FIRST_HALF, 0) == [] && DelimitersFrom(SECOND_HALF, 0) == [];
    assert |FIRST_HALF| == 4 && |SECOND_HALF| == 5;
    assert Stream(first) == FIRST_HALF;
    assert CutsOf(first) == {};
    assert ChunkCuts(SECOND_HALF, true, 4) == {9};
  }

  lemma CutsOfWhole(whole: seq<Chunk>)
    requires whole == [Chunk(BOTH_HALVES, true)]
    ensures CutsOf(whole) == {1, 9}
  {
    assert whole[..0] == [];
    assert BOTH_HALVES[1..8] == ACCESS_UNIT_DELIMITER;
    assert BOTH_HALVES[0..7][0] == 9 && BOTH_HALVES[2..9][2] == 1;
    assert DelimitersFrom(BOTH_HALVES, 3) == [];
    assert DelimitersFrom(BOTH_HALVES, 2) == [];
    assert DelimitersFrom(BOTH_HALVES, 1) == [1];
    assert DelimitersFrom(BOTH_HALVES, 0) == [1];
    assert [1][..0] == [];
    assert Shifted([1], 0) == {1};
  }

  /** Without cuts the whole stream stays open. */
  lemma CutNowhere(stream: Bytes)
    ensures CutAt(stream, {}) == Cutting([], stream)
  {
    assert CutAt([], {}) == Cutting([], []);
    hide CutAt;
    CutGrows([], stream, {});
    assert [] + stream == stream;
  }

  lemma CutOnce(stream: Bytes)
    ensures CutAt(stream, {|stream|}) == Cutting([stream], [])
  {
    hide CutAt;
    CutNowhere(stream);
    CutAtEnd(stream, {});
    assert {} + {|stream|} == {|stream|};
  }

  lemma CutTwice(left: Bytes, right: Bytes)
    requires right != []
    ensures CutAt(left + right, {|left|, |left| + |right|}) == Cutting([left, right], [])
  {
    hide CutAt;
    CutOnce(left);
    CutGrows(left, right, {|left|});
    assert [] + right == right;
    assert CutAt(left + right, {|left|}) == Cutting([left], right);
    SecondCut(left + right, [left], right, {|left|});
    assert {|left|} + {|left + right|} == {|left|, |left| + |right|};
    assert [left] + [right] == [left, right];
  }

  lemma SecondCut(stream: Bytes, done: seq<Bytes>, open: Bytes, cuts: set<nat>)
    requires CutAt(stream, cuts) == Cutting(done, open) && |stream| !in cuts
    ensures CutAt(stream, cuts + {|stream|}) == Cutting(done + [open], [])
  {
    hide CutAt;
    CutAtEnd(stream, cuts);
  }

  lemma CutWhole(stream: Bytes)
    requires Keeps(stream)
    ensures Kept(CutAt(stream, {|stream|}).done) == [stream]
  {
    hide CutAt;
    CutOnce(stream);
    KeptAppend([], stream);
    assert [] + [stream] == [stream];
  }

  lemma CutInTwo(left: Bytes, right: Bytes)
    requires Keeps(left) && Keeps(right)
    ensures Kept(CutAt(left + right, {|left|, |left| + |right|}).done) == [left, right]
  {
    hide CutAt;
    CutTwice(left, right);
    KeptAppend([], left);
    KeptAppend([left], right);
    assert [] + [left] == [left] && [left] + [right] == [left, right];
  }
}
