/** PEM encoding of certificates and private keys, as the e2e helpers
    `encodeCertificates` and `encodeKey` use it. PEM text is seen as the
    sequence of blocks it concatenates; `pem.Encode` itself (base64 and
    framing) is not modelled. It writes at least one byte per block, so empty
    text is exactly the empty block sequence. */
module Pem {
  import opened Wrappers
  import opened GoInt
  import opened X509

  datatype Block = Block(blockType: string, bytes: Bytes)

  type PemText = seq<Block>

  const CertificateType: string := "CERTIFICATE"
  const EcPrivateKeyType: string := "EC PRIVATE KEY"
  const RsaPrivateKeyType: string := "RSA PRIVATE KEY"

  datatype KeyError = UnrecognizedKeyType | UnknownEllipticCurve

  datatype DecodeError = UnexpectedBlockType(blockType: string) | NotOneBlock(count: nat)

  /** `encodeCertificates(certs...)`: one CERTIFICATE block per certificate, in
      order, holding its raw DER. Writing into a buffer cannot fail, so the
      error the source also returns is never set. */
  function EncodeCertificates(certs: seq<Certificate>): (text: PemText)
    ensures |text| == |certs|
    ensures forall i :: 0 <= i < |certs| ==> text[i].blockType == CertificateType && text[i].bytes == certs[i].raw
  {
    if certs == [] then [] else [Block(CertificateType, certs[0].raw)] + EncodeCertificates(certs[1..])
  }

  /** The raw DER of each certificate. */
  function Raws(certs: seq<Certificate>): (raws: seq<Bytes>)
    ensures |raws| == |certs|
  {
    seq(|certs|, i requires 0 <= i < |certs| => certs[i].raw)
  }

  /** Reading PEM text back as a certificate chain: every block must be a
      CERTIFICATE block, and the chain is their payloads in order. */
  function DecodeCertificates(text: PemText): (r: Result<seq<Bytes>, DecodeError>)
  {
    if text == [] then Ok([])
    else if text[0].blockType != CertificateType then Err(UnexpectedBlockType(text[0].blockType))
    else
      match DecodeCertificates(text[1..])
      case Ok(rest) => Ok([text[0].bytes] + rest)
      case Err(e) => Err(e)
  }

  /** `pem.Decode`: the first block of the text, or nil when there is none.
      It does not look at the block type. */
  function FirstBlock(text: PemText): (b: Option<Block>)
    ensures b.Some? <==> text != []
    ensures b.Some? ==> b.value == text[0]
  {
    if text == [] then None else Some(text[0])
  }

  /** The algorithm tag of a key `encodeKey` recognises. */
  function AlgorithmOf(key: PrivateKey): Option<KeyAlgorithm> {
    match key
    case EcdsaKey(_, _, _) => Some(ECDSA)
    case RsaKey(_, _) => Some(RSA)
    case OtherKey(_) => None
  }

  /** `encodeKey(key)`: one `EC PRIVATE KEY` block for an ECDSA key on a named
      curve, one `RSA PRIVATE KEY` block for an RSA key; any other key type,
      and an ECDSA key the marshaller cannot encode, is an error (the source
      returns empty bytes alongside it). */
  function EncodeKey(key: PrivateKey): (r: Result<PemText, KeyError>)
    ensures r.Ok? <==> key.RsaKey? || (key.EcdsaKey? && key.curve != UnnamedCurve)
    ensures r.Ok? ==> |r.value| == 1 && r.value[0].bytes == key.der
    ensures r.Ok? ==> (r.value[0].blockType == RsaPrivateKeyType <==> key.RsaKey?)
    ensures r.Ok? ==> (r.value[0].blockType == EcPrivateKeyType <==> key.EcdsaKey?)
    ensures key.OtherKey? ==> r == Err(UnrecognizedKeyType)
    ensures key.EcdsaKey? && key.curve == UnnamedCurve ==> r == Err(UnknownEllipticCurve)
  {
    match key
    case EcdsaKey(curve, der, _) =>
      if curve == UnnamedCurve then Err(UnknownEllipticCurve) else Ok([Block(EcPrivateKeyType, der)])
    case RsaKey(der, _) => Ok([Block(RsaPrivateKeyType, der)])
    case OtherKey(_) => Err(UnrecognizedKeyType)
  }

  /** Reading PEM text back as one private key: a single block whose type names
      the algorithm. */
  function DecodeKey(text: PemText): Result<(KeyAlgorithm, Bytes), DecodeError> {
    if |text| != 1 then Err(NotOneBlock(|text|))
    else if text[0].blockType == EcPrivateKeyType then Ok((ECDSA, text[0].bytes))
    else if text[0].blockType == RsaPrivateKeyType then Ok((RSA, text[0].bytes))
    else Err(UnexpectedBlockType(text[0].blockType))
  }

  /** Reading back what `encodeCertificates` wrote yields every certificate's
      DER, in order; no certificates give empty text. */
  lemma {:induction false} DecodeEncodeCertificates(certs: seq<Certificate>)
    ensures DecodeCertificates(EncodeCertificates(certs)) == Ok(Raws(certs))
    ensures certs == [] <==> EncodeCertificates(certs) == []
  {
    if certs != [] {
      DecodeEncodeCertificates(certs[1..]);
      var text := EncodeCertificates(certs);
      assert text[1..] == EncodeCertificates(certs[1..]);
      assert Raws(certs) == [certs[0].raw] + Raws(certs[1..]);
    }
  }

  /** Reading back what `encodeKey` wrote recovers the key's algorithm and DER. */
  lemma DecodeEncodeKey(key: PrivateKey)
    requires EncodeKey(key).Ok?
    ensures AlgorithmOf(key).Some?
    ensures DecodeKey(EncodeKey(key).value) == Ok((AlgorithmOf(key).value, key.der))
  {
  }
}
