/** The two foreign primitives, as arbitrary values: nothing below depends on which ones. */
module Crypto {
  import opened Texts

  /** `HUNDI_GENESIS` (packages/facilitator/src/ledger.ts:29), the head of an empty ledger. */
  const GENESIS: Text := [72, 85, 78, 68, 73, 95, 71, 69, 78, 69, 83, 73, 83]

  /** A collision-free digest that never spells the genesis marker. */
  ghost predicate Ideal(h: Text -> Text) {
    && (forall x, y :: h(x) == h(y) ==> x == y)
    && (forall x :: h(x) != GENESIS)
  }

  /** Such digests exist, so results about them are not empty. */
  function Prefixing(): (h: Text -> Text)
    ensures Ideal(h)
  {
    var h := (t: Text) => [0 as CodeUnit] + t;
    assert forall x, y :: h(x) == h(y) ==> x == y by {
      forall x: Text, y: Text | h(x) == h(y) ensures x == y {
        assert x == h(x)[1..];
        assert y == h(y)[1..];
      }
    }
    assert forall x :: h(x)[0] != GENESIS[0];
    h
  }

  type Digest = h: Text -> Text | Ideal(h) witness Prefixing()

  /** SHA-256 in hex, idealised: some collision-free digest. */
  const Sha256Hex: Digest

  lemma DigestBinds(x: Text, y: Text)
    ensures Sha256Hex(x) == Sha256Hex(y) <==> x == y
    ensures Sha256Hex(x) != GENESIS
  {}

  datatype Sig =
    | Ed25519Sig(signature: Text)
    | WebauthnSig(clientData: Text, authenticatorData: Text, signature: Text)

  datatype Credential = Ed25519Key(publicKey: Text) | WebauthnKey(x: Text, y: Text)

  /** What `verifyMandateSignature` does: answer, or throw on undecodable hex or coordinates. */
  datatype SigResult = Valid | Invalid | Malformed

  const CheckSignature: (Text, Sig, Credential) -> SigResult

  /** The envelope and the credential must be of one kind (packages/core/src/signature.ts:99-112). */
  function VerifySignature(payload: Text, sig: Sig, credential: Credential): SigResult {
    if sig.Ed25519Sig? == credential.Ed25519Key? then CheckSignature(payload, sig, credential) else Invalid
  }

  /** A signature of another kind than the key it is checked with is never valid. */
  lemma KindsAgree(payload: Text, sig: Sig, credential: Credential)
    requires VerifySignature(payload, sig, credential) == Valid
    ensures sig.Ed25519Sig? <==> credential.Ed25519Key?
  {}
}
