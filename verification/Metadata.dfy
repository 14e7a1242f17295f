/** The metadata handed to the destination's multisig module: the merkle tree hook, the
    signed root, the index and the validators' signatures, at fixed places. */
module Metadata {
  import opened Basics
  import opened Hex

  const UINT32 := 0x1_0000_0000

  type Uint32 = x: int | 0 <= x < UINT32

  datatype Checkpoint = Checkpoint(hook: string, domain: Uint32, root: string, index: Uint32)

  datatype MessageCheckpoint = MessageCheckpoint(checkpoint: Checkpoint, messageId: string)

  datatype Signature = Signature(r: string, s: string, v: Byte)

  datatype SignedCheckpoint = SignedCheckpoint(value: MessageCheckpoint, signature: Signature)

  datatype MultiSigCheckpoint = MultiSigCheckpoint(value: MessageCheckpoint, signatures: seq<Signature>)

  const HOOK_LENGTH := 32
  const ROOT_LENGTH := 32
  const SIGNATURE_LENGTH := 65
  const HEADER_LENGTH := 68

  // ----- Numbers and signatures as bytes -----

  /** Two bytes, the more significant one first. */
  function TwoBytes(n: int): (b: seq<Byte>)
    requires 0 <= n < 0x1_0000
    ensures |b| == 2
  {
    [n / 0x100, n % 0x100]
  }

  function FromTwoBytes(hi: int, lo: int): int {
    hi * 0x100 + lo
  }

  function BigEndian(n: Uint32): (b: seq<Byte>)
    ensures |b| == 4
  {
    TwoBytes(n / 0x1_0000) + TwoBytes(n % 0x1_0000)
  }

  function FromBigEndian(b: seq<Byte>): Uint32
    requires |b| == 4
  {
    FromTwoBytes(b[0], b[1]) * 0x1_0000 + FromTwoBytes(b[2], b[3])
  }

  lemma TwoBytesReadBack(n: int)
    requires 0 <= n < 0x1_0000
    ensures FromTwoBytes(TwoBytes(n)[0], TwoBytes(n)[1]) == n
  {
  }

  lemma BigEndianReadsBack(n: Uint32)
    ensures FromBigEndian(BigEndian(n)) == n
  {
    TwoBytesReadBack(n / 0x1_0000);
    TwoBytesReadBack(n % 0x1_0000);
  }

  function RSBytes(signature: Signature): Option<seq<Byte>> {
    match (Field(signature.r), Field(signature.s))
    case (Some(r), Some(s)) => Some(r + s)
    case (_, _) => None
  }

  function SignatureBytes(signature: Signature): Option<seq<Byte>> {
    match RSBytes(signature)
    case Some(rs) => Some(rs + [signature.v])
    case None => None
  }

  /** What is checked of a signature before its public key is recovered. */
  predicate CanRecover(signature: Signature) {
    SignatureBytes(signature).Some? && |SignatureBytes(signature).value| == SIGNATURE_LENGTH && signature.v >= 27
  }

  // ----- Encoding -----

  datatype MetadataError = BadHook | HookLength | BadRoot | RootLength | BadSignature | BadSignatureLength

  function Concat(parts: seq<seq<Byte>>): seq<Byte> {
    if parts == [] then [] else Concat(parts[..|parts| - 1]) + parts[|parts| - 1]
  }

  predicate Fits(bytes: Option<seq<Byte>>) {
    bytes.Some? && |bytes.value| == SIGNATURE_LENGTH
  }

  ghost predicate AllFit<T>(items: seq<T>, bytes: T -> Option<seq<Byte>>) {
    forall i :: 0 <= i < |items| ==> Fits(bytes(items[i]))
  }

  function Parts<T>(items: seq<T>, bytes: T -> Option<seq<Byte>>): (parts: seq<seq<Byte>>)
    requires AllFit(items, bytes)
    ensures |parts| == |items|
    ensures forall i :: 0 <= i < |parts| ==> bytes(items[i]) == Some(parts[i])
  {
    if items == [] then [] else
    Parts(items[..|items| - 1], bytes) + [bytes(items[|items| - 1]).value]
  }

  ghost predicate HookFits(c: MultiSigCheckpoint) {
    Field(c.value.checkpoint.hook).Some? && |Field(c.value.checkpoint.hook).value| == HOOK_LENGTH
  }

  ghost predicate RootFits(c: MultiSigCheckpoint) {
    Field(c.value.checkpoint.root).Some? && |Field(c.value.checkpoint.root).value| == ROOT_LENGTH
  }

  ghost predicate Encodable(c: MultiSigCheckpoint) {
    HookFits(c) && RootFits(c) && AllFit(c.signatures, SignatureBytes)
  }

  ghost function Encoded(c: MultiSigCheckpoint): seq<Byte>
    requires Encodable(c)
  {
    Field(c.value.checkpoint.hook).value + Field(c.value.checkpoint.root).value
    + BigEndian(c.value.checkpoint.index) + Concat(Parts(c.signatures, SignatureBytes))
  }

  lemma PartsOfPrefix<T>(items: seq<T>, bytes: T -> Option<seq<Byte>>, i: nat)
    requires i < |items| && AllFit(items[..i], bytes) && Fits(bytes(items[i]))
    ensures AllFit(items[..i + 1], bytes)
    ensures Concat(Parts(items[..i + 1], bytes)) == Concat(Parts(items[..i], bytes)) + bytes(items[i]).value
  {
    assert items[..i + 1][..i] == items[..i];
    assert AllFit(items[..i + 1], bytes);
    var parts := Parts(items[..i], bytes);
    assert Parts(items[..i + 1], bytes) == parts + [bytes(items[i]).value];
    assert (parts + [bytes(items[i]).value])[..i] == parts;
  }

  /** The loop that writes the signatures, for any way to turn one into bytes. */
  method AppendAll<T>(header: seq<Byte>, items: seq<T>, bytes: T -> Option<seq<Byte>>)
    returns (result: Result<seq<Byte>, MetadataError>, ghost at: nat)
    ensures result.Ok? <==> AllFit(items, bytes)
    ensures result.Ok? ==> result.value == header + Concat(Parts(items, bytes))
    ensures result.Err? ==> result.error == BadSignature || result.error == BadSignatureLength
    ensures result.Err? ==>
              && at < |items| && !Fits(bytes(items[at])) && (result.error == BadSignature <==> bytes(items[at]).None?)
              && forall i :: 0 <= i < at ==> Fits(bytes(items[i]))
  {
    at := 0;
    var metadata := header;
    for i := 0 to |items|
      invariant AllFit(items[..i], bytes)
      invariant metadata == header + Concat(Parts(items[..i], bytes))
    {
      var one := bytes(items[i]);
      at := i;
      if one.None? {
        result := Err(BadSignature);
        return;
      }
      if |one.value| != SIGNATURE_LENGTH {
        result := Err(BadSignatureLength);
        return;
      }
      PartsOfPrefix(items, bytes, i);
      metadata := metadata + one.value;
    }
    assert items[..|items|] == items;
    result := Ok(metadata);
  }

  /** The bytes are written to a buffer one field after the other; the first field that
      cannot be decoded or has the wrong length decides the error. */
  method ToMetadata(c: MultiSigCheckpoint) returns (result: Result<seq<Byte>, MetadataError>)
    ensures result.Ok? <==> Encodable(c)
    ensures result.Ok? ==> result.value == Encoded(c)
    ensures result.Err? ==>
              match result.error
              case BadHook => Field(c.value.checkpoint.hook).None?
              case HookLength => Field(c.value.checkpoint.hook).Some? && !HookFits(c)
              case BadRoot => HookFits(c) && Field(c.value.checkpoint.root).None?
              case RootLength => HookFits(c) && Field(c.value.checkpoint.root).Some? && !RootFits(c)
              case BadSignature => HookFits(c) && RootFits(c) && !AllFit(c.signatures, SignatureBytes)
              case BadSignatureLength => HookFits(c) && RootFits(c) && !AllFit(c.signatures, SignatureBytes)
  {
    var hook := Field(c.value.checkpoint.hook);
    if hook.None? {
      return Err(BadHook);
    }
    var metadata := hook.value;
    if |hook.value| != HOOK_LENGTH {
      return Err(HookLength);
    }
    var root := Field(c.value.checkpoint.root);
    if root.None? {
      return Err(BadRoot);
    }
    metadata := metadata + root.value;
    if |root.value| != ROOT_LENGTH {
      return Err(RootLength);
    }
    metadata := metadata + BigEndian(c.value.checkpoint.index);
    ghost var at;
    result, at := AppendAll(metadata, c.signatures, SignatureBytes);
  }

  // ----- Reading it back, as the destination does -----

  datatype Parsed = Parsed(hook: seq<Byte>, root: seq<Byte>, index: Uint32, signatures: seq<seq<Byte>>)

  /** Consecutive pieces of the length of a signature. */
  function Pieces(bytes: seq<Byte>): seq<seq<Byte>> {
    if |bytes| < SIGNATURE_LENGTH then [] else [bytes[..SIGNATURE_LENGTH]] + Pieces(bytes[SIGNATURE_LENGTH..])
  }

  function Parse(bytes: seq<Byte>): Option<Parsed> {
    if |bytes| < HEADER_LENGTH || (|bytes| - HEADER_LENGTH) % SIGNATURE_LENGTH != 0 then None
    else Some(Parsed(bytes[..32], bytes[32..64], FromBigEndian(bytes[64..68]), Pieces(bytes[68..])))
  }

  lemma {:induction false} PiecesAppend(bytes: seq<Byte>, piece: seq<Byte>)
    requires |bytes| % SIGNATURE_LENGTH == 0 && |piece| == SIGNATURE_LENGTH
    ensures Pieces(bytes + piece) == Pieces(bytes) + [piece]
  {
    var all := bytes + piece;
    if bytes == [] {
      assert all == piece;
      assert Pieces(piece[SIGNATURE_LENGTH..]) == [];
      assert piece[..SIGNATURE_LENGTH] == piece;
    } else {
      PiecesAppend(bytes[SIGNATURE_LENGTH..], piece);
      assert all[..SIGNATURE_LENGTH] == bytes[..SIGNATURE_LENGTH];
      assert all[SIGNATURE_LENGTH..] == bytes[SIGNATURE_LENGTH..] + piece;
    }
  }

  lemma {:induction false} PiecesOfConcat(parts: seq<seq<Byte>>)
    requires forall i :: 0 <= i < |parts| ==> |parts[i]| == SIGNATURE_LENGTH
    ensures |Concat(parts)| == SIGNATURE_LENGTH * |parts| && Pieces(Concat(parts)) == parts
  {
    if parts != [] {
      var front, last := parts[..|parts| - 1], parts[|parts| - 1];
      PiecesOfConcat(front);
      PiecesAppend(Concat(front), last);
      assert parts == front + [last];
    }
  }

  /** The metadata is 68 bytes and 65 for every signature, and reads back to exactly the
      hook, the root, the index and the signatures it was made of. */
  lemma MetadataReadsBack(c: MultiSigCheckpoint)
    requires Encodable(c)
    ensures |Encoded(c)| == HEADER_LENGTH + SIGNATURE_LENGTH * |c.signatures|
    ensures Parse(Encoded(c)) == Some(Parsed(Field(c.value.checkpoint.hook).value, Field(c.value.checkpoint.root).value,
                                             c.value.checkpoint.index, Parts(c.signatures, SignatureBytes)))
  {
    var hook, root := Field(c.value.checkpoint.hook).value, Field(c.value.checkpoint.root).value;
    var index, tail := BigEndian(c.value.checkpoint.index), Concat(Parts(c.signatures, SignatureBytes));
    PiecesOfConcat(Parts(c.signatures, SignatureBytes));
    BigEndianReadsBack(c.value.checkpoint.index);
    Slices(hook, root, index, tail);
  }

  lemma Slices(hook: seq<Byte>, root: seq<Byte>, index: seq<Byte>, tail: seq<Byte>)
    requires |hook| == 32 && |root| == 32 && |index| == 4
    ensures var all := hook + root + index + tail;
            all[..32] == hook && all[32..64] == root && all[64..68] == index && all[68..] == tail
  {
  }

  /** So two checkpoints with the same metadata agree in everything it is made of. */
  lemma MetadataIsInjective(c: MultiSigCheckpoint, d: MultiSigCheckpoint)
    requires Encodable(c) && Encodable(d) && Encoded(c) == Encoded(d)
    ensures Field(c.value.checkpoint.hook) == Field(d.value.checkpoint.hook)
    ensures Field(c.value.checkpoint.root) == Field(d.value.checkpoint.root)
    ensures c.value.checkpoint.index == d.value.checkpoint.index
    ensures Parts(c.signatures, SignatureBytes) == Parts(d.signatures, SignatureBytes)
  {
    MetadataReadsBack(c);
    MetadataReadsBack(d);
  }
}
