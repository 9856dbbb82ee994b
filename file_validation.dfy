/** Content ids: a digest of the uploader's id followed by a bounded sample of the file, and the
    check of a client-supplied id against it. The digest (MD5 as hex) is a parameter. */
module FileValidation {
  import Decimal

  /** The UTF-8 byte of an ASCII character. */
  function Byte(c: char): (b: bv8)
    requires c as int < 128
  {
    c as int as bv8
  }

  /** The UTF-8 bytes of an ASCII string. */
  function AsciiBytes(s: string): (b: seq<bv8>)
    requires forall k :: 0 <= k < |s| ==> s[k] as int < 128
    ensures |b| == |s| && forall k :: 0 <= k < |s| ==> b[k] == Byte(s[k])
  {
    seq(|s|, k requires 0 <= k < |s| => Byte(s[k]))
  }

  lemma IntToStrAscii(u: int)
    ensures forall k :: 0 <= k < |Decimal.IntToStr(u)| ==> Decimal.IntToStr(u)[k] as int < 128
  {
    var n := if u < 0 then -u else u;
    assert Decimal.AllDigits(Decimal.NatToStr(n));
  }

  /** `f"{user_id}".encode('utf8')`. */
  function UserIdBytes(u: int): (b: seq<bv8>)
    ensures |b| == |Decimal.IntToStr(u)|
  {
    IntToStrAscii(u);
    AsciiBytes(Decimal.IntToStr(u))
  }

  /** `file_content[:min(len(file_content), CONTENT_ID_MAX_SAMPLE_SIZE)]`. */
  function Sample(content: seq<bv8>, maxSample: nat): (s: seq<bv8>)
    ensures |s| == if |content| < maxSample then |content| else maxSample
    ensures s == content[..|s|]
  {
    content[..if |content| < maxSample then |content| else maxSample]
  }

  /** `generate_content_id`: the digest of the user id's decimal bytes followed by the sample. */
  function GenerateContentId(content: seq<bv8>, u: int, maxSample: nat, digest: seq<bv8> -> string): (id: string)
    ensures |content| <= maxSample ==> id == digest(UserIdBytes(u) + content)
    ensures |content| >= maxSample ==> id == digest(UserIdBytes(u) + content[..maxSample])
  {
    assert |content| <= maxSample ==> content[..|content|] == content;
    digest(UserIdBytes(u) + Sample(content, maxSample))
  }

  /** The digest input starts with the user id's digits and continues with the first bytes of
      the file, no more of them than the sample limit. */
  lemma DigestInput(content: seq<bv8>, u: int, maxSample: nat)
    ensures var input := UserIdBytes(u) + Sample(content, maxSample);
      && |input| <= |Decimal.IntToStr(u)| + maxSample
      && input[..|Decimal.IntToStr(u)|] == UserIdBytes(u)
      && input[|Decimal.IntToStr(u)|..] == content[..|input| - |Decimal.IntToStr(u)|]
  {
  }

  /** Bytes past the sample limit do not change the id. */
  lemma TailIgnored(c1: seq<bv8>, c2: seq<bv8>, u: int, maxSample: nat, digest: seq<bv8> -> string)
    requires |c1| >= maxSample && |c2| >= maxSample && c1[..maxSample] == c2[..maxSample]
    ensures GenerateContentId(c1, u, maxSample, digest) == GenerateContentId(c2, u, maxSample, digest)
  {
    assert Sample(c1, maxSample) == c1[..maxSample];
    assert Sample(c2, maxSample) == c2[..maxSample];
  }

  /** Without a separator, user 1 uploading a file that starts with the byte `'2'` and user 12
      uploading the same file without it hash the same bytes, so they get the same id. */
  lemma UserIdBoundaryShared(rest: seq<bv8>, maxSample: nat, digest: seq<bv8> -> string)
    requires |rest| + 1 <= maxSample
    ensures GenerateContentId([0x32] + rest, 1, maxSample, digest) == GenerateContentId(rest, 12, maxSample, digest)
  {
    assert Decimal.IntToStr(1) == "1";
    assert Decimal.IntToStr(12) == "12" by {
      assert Decimal.NatToStr(12) == Decimal.NatToStr(1) + [Decimal.DigitChar(2)];
    }
    assert UserIdBytes(1) == [0x31];
    assert UserIdBytes(12) == [0x31, 0x32];
    assert Sample([0x32] + rest, maxSample) == [0x32] + rest;
    assert Sample(rest, maxSample) == rest;
    assert [0x31] + ([0x32] + rest) == [0x31, 0x32] + rest;
  }

  /** `validate_content_id`: always True when verification is off; otherwise True exactly when
      the computed id equals the provided one. */
  function ValidateContentId(content: seq<bv8>, u: int, provided: string, enabled: bool,
                             maxSample: nat, digest: seq<bv8> -> string): (ok: bool)
    ensures !enabled ==> ok
    ensures enabled ==> (ok <==> GenerateContentId(content, u, maxSample, digest) == provided)
  {
    !enabled || GenerateContentId(content, u, maxSample, digest) == provided
  }

  /** The id the server computes always validates. */
  lemma OwnIdValidates(content: seq<bv8>, u: int, enabled: bool, maxSample: nat, digest: seq<bv8> -> string)
    ensures ValidateContentId(content, u, GenerateContentId(content, u, maxSample, digest), enabled, maxSample, digest)
  {
  }
}
