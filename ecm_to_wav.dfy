/** `ecm_to_wav`: the ECM container's header check, the removal of the anti-misoperation marker,
    and the loop that decodes the body in 60-byte Opus frames. The Opus decoder is a parameter: a
    state of type `S` (the one `opuslib.Decoder(16000, 1)` starts in, carried from frame to
    frame) and a step giving the next state and the frame's PCM (None where decoding it raises);
    writing the WAV and MP3 files is not modelled. */
module EcmToWav {
  import opened Wrappers
  import Text

  const HeaderSize := 20
  const ChunkSize := 60

  /** `b'\xEE\xEE\xEE' + b'\x00' * 57`. */
  function Marker(): (m: seq<bv8>)
    ensures |m| == ChunkSize && m[0] == m[1] == m[2] == 0xEE
    ensures forall k :: 3 <= k < ChunkSize ==> m[k] == 0
  {
    [0xEE, 0xEE, 0xEE] + seq(57, _ => 0 as bv8)
  }

  /** Why a file is refused: the first three bytes are not `ECM`, or the header ends before the
      byte being read (an `IndexError`). */
  datatype EcmError = NotEcm | Truncated

  /** The header check on `header = f.read(20)`: the magic first, then the version and audio
      type bytes are read (their values only decide what is printed). */
  function CheckHeader(data: seq<bv8>): (r: Option<EcmError>)
    ensures r == None <==> |data| >= 5 && data[..3] == [0x45, 0x43, 0x4D]
    ensures r == Some(NotEcm) ==> |data| >= 3 && data[..3] != [0x45, 0x43, 0x4D]
  {
    if |data| < 3 then Some(Truncated)
    else if data[0] != 0x45 || data[1] != 0x43 || data[2] != 0x4D then Some(NotEcm)
    else if |data| < 5 then Some(Truncated)
    else None
  }

  /** `f.read()` after the 20 header bytes. */
  function Body(data: seq<bv8>): seq<bv8> {
    if |data| <= HeaderSize then [] else data[HeaderSize..]
  }

  /** `body_data.replace(error_marker, b'')` under its `in` guard. */
  function StripMarkers(body: seq<bv8>): seq<bv8> {
    if Text.Contains(body, Marker()) then Text.ReplaceAll(body, Marker(), []) else body
  }

  /** The full 60-byte frames of the body, from offset 0; a trailing partial frame is dropped. */
  function Frames(body: seq<bv8>): (fs: seq<seq<bv8>>)
    ensures |fs| == |body| / ChunkSize
    ensures forall k :: 0 <= k < |fs| ==> fs[k] == body[k * ChunkSize..k * ChunkSize + ChunkSize]
    decreases |body|
  {
    if |body| < ChunkSize then []
    else
      var rest := Frames(body[ChunkSize..]);
      assert forall k :: 0 <= k < |rest| ==> rest[k] == body[(k + 1) * ChunkSize..(k + 1) * ChunkSize + ChunkSize];
      [body[..ChunkSize]] + rest
  }

  /** The decoder state after some frames, and the PCM they decoded to. */
  datatype Decoded<S> = Decoded(state: S, pcm: seq<bv8>)

  /** One decoder applied to the frames in order; a frame the decoder rejects contributes
      nothing, and every frame, rejected or not, moves the decoder on. */
  function Pcm<S>(init: S, frames: seq<seq<bv8>>, decode: (S, seq<bv8>) -> (S, Option<seq<bv8>>)): Decoded<S>
    decreases |frames|
  {
    if frames == [] then Decoded(init, [])
    else
      var before := Pcm(init, frames[..|frames| - 1], decode);
      var step := decode(before.state, frames[|frames| - 1]);
      Decoded(step.0, before.pcm + (match step.1 case Some(p) => p case None => []))
  }

  /** Decoding is frame by frame: a failure in the first part does not stop the second, which
      picks up the decoder where the first part left it. */
  lemma {:induction false} PcmAppend<S>(init: S, a: seq<seq<bv8>>, b: seq<seq<bv8>>, decode: (S, seq<bv8>) -> (S, Option<seq<bv8>>))
    ensures var first := Pcm(init, a, decode);
      var second := Pcm(first.state, b, decode);
      Pcm(init, a + b, decode) == Decoded(second.state, first.pcm + second.pcm)
    decreases |b|
  {
    if b != [] {
      var b' := b[..|b| - 1];
      assert (a + b)[..|a + b| - 1] == a + b';
      assert (a + b)[|a + b| - 1] == b[|b| - 1];
      PcmAppend(init, a, b', decode);
    } else {
      assert a + b == a;
    }
  }

  /** With a decoder that, in whatever state, produces 640 bytes for each of these frames, the
      PCM holds 640 bytes for each full frame. */
  lemma {:induction false} PcmLength<S>(init: S, frames: seq<seq<bv8>>, decode: (S, seq<bv8>) -> (S, Option<seq<bv8>>))
    requires forall st: S, k :: 0 <= k < |frames| ==> decode(st, frames[k]).1.Some? && |decode(st, frames[k]).1.value| == 640
    ensures |Pcm(init, frames, decode).pcm| == 640 * |frames|
    decreases |frames|
  {
    if frames != [] {
      var before := Pcm(init, frames[..|frames| - 1], decode);
      assert decode(before.state, frames[|frames| - 1]).1.Some?;
      PcmLength(init, frames[..|frames| - 1], decode);
    }
  }

  /** Frame `k` starts at `k * ChunkSize`, and it is a full frame exactly when it fits. */
  lemma FrameAt(body: seq<bv8>, k: nat)
    ensures k < |body| / ChunkSize <==> k * ChunkSize + ChunkSize <= |body|
  {
    var q := |body| / ChunkSize;
    assert |body| == q * ChunkSize + |body| % ChunkSize;
    if k < q {
      assert k * ChunkSize + ChunkSize <= q * ChunkSize;
    } else {
      assert q * ChunkSize + ChunkSize <= k * ChunkSize + ChunkSize;
    }
  }

  /** The decoding loop: `for i in range(0, len(body), 60)`, decoding each full chunk and
      extending the PCM buffer with what decodes. */
  method DecodeBody<S>(body: seq<bv8>, init: S, decode: (S, seq<bv8>) -> (S, Option<seq<bv8>>)) returns (pcm: seq<bv8>)
    ensures pcm == Pcm(init, Frames(body), decode).pcm
  {
    var decoder := init;
    pcm := [];
    var fs := Frames(body);
    var i := 0;
    ghost var k := 0;
    while i < |body|
      invariant 0 <= k <= |fs| && (i == k * ChunkSize || (k == |fs| && i >= |body|))
      invariant Decoded(decoder, pcm) == Pcm(init, fs[..k], decode)
      decreases |body| - i
    {
      var end := if i + ChunkSize <= |body| then i + ChunkSize else |body|;
      var chunk := body[i..end];
      FrameAt(body, k);
      if |chunk| == ChunkSize {
        assert fs[..k + 1][..k] == fs[..k];
        var step := decode(decoder, chunk);
        decoder := step.0;
        match step.1 {
          case Some(p) =>
            pcm := pcm + p;
          case None =>
        }
        k := k + 1;
      }
      i := i + ChunkSize;
    }
    FrameAt(body, k);
    assert fs[..|fs|] == fs;
  }

  /** `ecm_to_wav` up to the PCM it writes: refused headers raise; otherwise the markers are
      removed from the body and its full frames decoded. */
  method EcmToPcm<S>(data: seq<bv8>, init: S, decode: (S, seq<bv8>) -> (S, Option<seq<bv8>>)) returns (r: Result)
    ensures CheckHeader(data).Some? ==> r == Refused(CheckHeader(data).value)
    ensures CheckHeader(data).None? ==> r == Converted(Pcm(init, Frames(StripMarkers(Body(data))), decode).pcm)
  {
    var bad := CheckHeader(data);
    if bad.Some? {
      return Refused(bad.value);
    }
    var body := StripMarkers(Body(data));
    var pcm := DecodeBody(body, init, decode);
    return Converted(pcm);
  }

  datatype Result = Refused(error: EcmError) | Converted(pcm: seq<bv8>)

  /** The version and audio-type bytes never decide the outcome. */
  lemma VersionIgnored(data: seq<bv8>, version: bv8, audioType: bv8)
    requires |data| >= 5
    ensures CheckHeader(data[3 := version][4 := audioType]) == CheckHeader(data)
    ensures Body(data[3 := version][4 := audioType]) == Body(data)
  {
    var d := data[3 := version][4 := audioType];
    assert d[..3] == data[..3];
    if |data| > HeaderSize {
      assert d[HeaderSize..] == data[HeaderSize..];
    }
  }

  /** A body without the marker is decoded as it is. */
  lemma NoMarkerUnchanged(body: seq<bv8>)
    requires !Text.Contains(body, Marker())
    ensures StripMarkers(body) == body
  {
  }

  /** One step of `replace` where no match starts at the front. */
  lemma ReplaceSkip(s: seq<bv8>, m: seq<bv8>)
    requires m != [] && |s| >= |m| && s[..|m|] != m
    ensures Text.ReplaceAll(s, m, []) == [s[0]] + Text.ReplaceAll(s[1..], m, [])
  {
  }

  /** One step of `replace` where a match starts at the front. */
  lemma ReplaceHit(s: seq<bv8>, m: seq<bv8>)
    requires m != [] && |s| >= |m| && s[..|m|] == m
    ensures Text.ReplaceAll(s, m, []) == Text.ReplaceAll(s[|m|..], m, [])
  {
  }

  /** One byte that does not start a match, then a match, then too little for another. */
  lemma ReplaceAroundMatch(x: bv8, m: seq<bv8>, tail: seq<bv8>)
    requires m != [] && |tail| < |m| && ([x] + m)[..|m|] != m
    ensures Text.ReplaceAll([x] + m + tail, m, []) == [x] + tail
  {
    var s := [x] + m + tail;
    var u := m + tail;
    assert s[..|m|] == ([x] + m)[..|m|];
    ReplaceSkip(s, m);
    assert s[0] == x && s[1..] == u;
    assert u[..|m|] == m && u[|m|..] == tail;
    ReplaceHit(u, m);
  }

  /** A single pass of `replace` does not always leave the body marker-free: an `EE` byte
      before a marker and `EE EE` plus 57 zero bytes after it join into a new marker once the
      first one is cut out. */
  lemma MarkerCanReform()
    ensures var body := [0xEE as bv8] + Marker() + ([0xEE, 0xEE] + seq(57, _ => 0 as bv8));
      StripMarkers(body) == Marker() && Text.Contains(StripMarkers(body), Marker())
  {
    var m := Marker();
    var tail: seq<bv8> := [0xEE, 0xEE] + seq(57, _ => 0 as bv8);
    var body := [0xEE as bv8] + m + tail;
    assert ([0xEE as bv8] + m)[..|m|][3] != m[3];
    ReplaceAroundMatch(0xEE, m, tail);
    assert body[1..][..|m|] == m;
    assert Text.OccursAt(body, m, 1);
    assert [0xEE as bv8] + tail == m;
    assert Text.OccursAt(m, m, 0);
  }
}
