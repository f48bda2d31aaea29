/** The byte layouts of twilio-protocol.ts: media frames that carry a call fingerprint and a frame index,
  the provider's audio payload, and the check that recognises a fingerprint. Payloads are the decoded bytes;
  base64 is not part of this model. */
module TwilioProtocol {
  import opened Options

  type byte = b: int | 0 <= b < 256

  const FILL: byte := 255
  const PAYLOAD_LENGTH := 160
  const INDEX_OFFSET := 156
  const PROVIDER_COPY_LENGTH := 120
  const UINT32 := 0x1_0000_0000

  datatype Frame = Frame(sequence: nat, timestampMs: nat, payload: seq<byte>)

  function Ceil(x: real): int {
    -((-x).Floor)
  }

  function FrameCount(durationMs: real): nat {
    var count := Ceil(durationMs / 20.0);
    if count < 0 then 0 else count
  }

  function UInt32BE(n: nat): (s: seq<byte>)
    requires n < UINT32
    ensures |s| == 4
  {
    [n / 0x100_0000, n / 0x1_0000 % 0x100, n / 0x100 % 0x100, n % 0x100]
  }

  function ReadUInt32BE(s: seq<byte>): nat
    requires |s| == 4
  {
    var b0: int, b1: int, b2: int, b3: int := s[0], s[1], s[2], s[3];
    b0 * 0x100_0000 + b1 * 0x1_0000 + b2 * 0x100 + b3
  }

  /** What byte `k` of the frame with this index must be. */
  function FrameByte(fingerprint: seq<byte>, index: nat, k: nat): byte
    requires index < UINT32 && k < PAYLOAD_LENGTH
  {
    if INDEX_OFFSET <= k then UInt32BE(index)[k - INDEX_OFFSET]
    else if k < |fingerprint| then fingerprint[k]
    else FILL
  }

  function FramePayload(fingerprint: seq<byte>, index: nat): (payload: seq<byte>)
    requires index < UINT32
  {
    seq(PAYLOAD_LENGTH, k requires 0 <= k < PAYLOAD_LENGTH => FrameByte(fingerprint, index, k))
  }

  /** `Buffer.copy` of at most `limit` bytes into a buffer of fill bytes. */
  method CopyIntoFilled(source: seq<byte>, limit: nat) returns (payload: array<byte>)
    requires limit <= PAYLOAD_LENGTH
    ensures fresh(payload) && payload.Length == PAYLOAD_LENGTH
    ensures forall k :: 0 <= k < PAYLOAD_LENGTH ==> payload[k] == if k < |source| && k < limit then source[k] else FILL
  {
    payload := new byte[PAYLOAD_LENGTH](_ => FILL);
    var length := if |source| < limit then |source| else limit;
    for k := 0 to length
      invariant forall j :: 0 <= j < k ==> payload[j] == source[j]
      invariant forall j :: k <= j < PAYLOAD_LENGTH ==> payload[j] == FILL
    {
      payload[k] := source[k];
    }
  }

  method BuildFramePayload(fingerprint: seq<byte>, index: nat) returns (bytes: seq<byte>)
    requires index < UINT32
    ensures bytes == FramePayload(fingerprint, index)
  {
    var limit := if |fingerprint| < PAYLOAD_LENGTH then |fingerprint| else PAYLOAD_LENGTH;
    var payload := CopyIntoFilled(fingerprint, limit);
    var digits := UInt32BE(index);
    payload[INDEX_OFFSET], payload[INDEX_OFFSET + 1] := digits[0], digits[1];
    payload[INDEX_OFFSET + 2], payload[INDEX_OFFSET + 3] := digits[2], digits[3];
    bytes := payload[..];
  }

  /** `None` is the RangeError of `writeUInt32BE` on an index that does not fit four bytes. */
  method CreateTwilioMediaFrames(fingerprint: seq<byte>, durationMs: real) returns (result: Option<seq<Frame>>)
    ensures result.None? <==> FrameCount(durationMs) > UINT32
    ensures result.Some? ==> |result.value| == FrameCount(durationMs)
    ensures result.Some? ==> forall k :: 0 <= k < |result.value| ==>
      result.value[k] == Frame(k + 1, k * 20, FramePayload(fingerprint, k))
  {
    var count := FrameCount(durationMs);
    var frames: seq<Frame> := [];
    for index := 0 to count
      invariant |frames| == index <= UINT32
      invariant forall k :: 0 <= k < index ==> frames[k] == Frame(k + 1, k * 20, FramePayload(fingerprint, k))
    {
      if index >= UINT32 {
        return None;
      }
      var payload := BuildFramePayload(fingerprint, index);
      frames := frames + [Frame(index + 1, index * 20, payload)];
    }
    result := Some(frames);
  }

  method CreateProviderAudioFingerprint(fingerprint: seq<byte>) returns (bytes: seq<byte>)
    ensures bytes == ProviderPayload(fingerprint)
  {
    var payload := CopyIntoFilled(fingerprint, PROVIDER_COPY_LENGTH);
    bytes := payload[..];
  }

  function ProviderPayload(fingerprint: seq<byte>): (payload: seq<byte>) {
    seq(PAYLOAD_LENGTH, k requires 0 <= k < PAYLOAD_LENGTH =>
      if k < |fingerprint| && k < PROVIDER_COPY_LENGTH then fingerprint[k] else FILL)
  }

  predicate VerifyCallFingerprint(payload: seq<byte>, expected: seq<byte>) {
    |payload| >= |expected| && payload[..|expected|] == expected
  }

  /** A frame is recognised exactly when the fingerprint fits and whatever reaches into the
    index field happens to spell the index. */
  lemma FrameVerifiesExactly(fingerprint: seq<byte>, index: nat)
    requires index < UINT32
    ensures VerifyCallFingerprint(FramePayload(fingerprint, index), fingerprint)
      <==> |fingerprint| <= PAYLOAD_LENGTH
           && forall k :: INDEX_OFFSET <= k < |fingerprint| ==> fingerprint[k] == UInt32BE(index)[k - INDEX_OFFSET]
  {
  }

  lemma ShortFingerprintsVerify(fingerprint: seq<byte>, index: nat)
    requires index < UINT32 && |fingerprint| <= INDEX_OFFSET
    ensures VerifyCallFingerprint(FramePayload(fingerprint, index), fingerprint)
  {
  }

  /** Frames of one call are never taken for frames of another call. */
  lemma FramesIsolateCalls(own: seq<byte>, other: seq<byte>, index: nat)
    requires index < UINT32 && |own| == |other| <= INDEX_OFFSET
    ensures VerifyCallFingerprint(FramePayload(own, index), other) <==> own == other
  {
  }

  lemma FrameIndexRecovered(fingerprint: seq<byte>, index: nat)
    requires index < UINT32
    ensures ReadUInt32BE(FramePayload(fingerprint, index)[INDEX_OFFSET..]) == index
  {
    assert FramePayload(fingerprint, index)[INDEX_OFFSET..] == UInt32BE(index);
    UInt32RoundTrip(index);
  }

  lemma UInt32RoundTrip(n: nat)
    requires n < UINT32
    ensures ReadUInt32BE(UInt32BE(n)) == n
  {
    BytesInTurn(n);
    SplitByte(n);
    SplitByte(n / 0x100);
    SplitByte(n / 0x100 / 0x100);
  }

  lemma BytesInTurn(n: nat)
    ensures n / 0x1_0000 == n / 0x100 / 0x100 && n / 0x100_0000 == n / 0x100 / 0x100 / 0x100
  {
  }

  lemma SplitByte(n: nat)
    ensures n == n / 0x100 * 0x100 + n % 0x100
  {
  }

  /** UTF-8 text never holds the byte 0xFF (section 3 of RFC 3629), so a fingerprint
    cut off at 120 bytes meets a fill byte it cannot equal. */
  lemma ProviderPayloadVerifiesExactly(fingerprint: seq<byte>)
    requires FILL !in fingerprint
    ensures VerifyCallFingerprint(ProviderPayload(fingerprint), fingerprint) <==> |fingerprint| <= PROVIDER_COPY_LENGTH
  {
    var payload := ProviderPayload(fingerprint);
    if |fingerprint| <= PROVIDER_COPY_LENGTH {
      assert payload[..|fingerprint|] == fingerprint;
    } else if |fingerprint| <= PAYLOAD_LENGTH {
      assert payload[..|fingerprint|][PROVIDER_COPY_LENGTH] == FILL;
      assert fingerprint[PROVIDER_COPY_LENGTH] in fingerprint;
    }
  }
}
