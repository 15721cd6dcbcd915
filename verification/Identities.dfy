/** Device identities and topics in ideal form; module Topics shows their printed form is faithful. */
module Identities {
  import opened Bytes

  type Uuid = s: seq<byte> | |s| == 16 witness seq(16, _ => 0)

  predicate IsNil(u: Uuid) {
    forall i :: 0 <= i < 16 ==> u[i] == 0
  }

  datatype DeviceIdentity = DeviceIdentity(tenant: Uuid, device: Uuid, generation: u64)

  /** What `DeviceIdentity::try_new` and `CredentialGeneration::try_from` admit. */
  predicate ValidIdentity(id: DeviceIdentity) {
    !IsNil(id.tenant) && !IsNil(id.device) && id.generation > 0
  }

  /** A delivered topic: the command topic printed for an identity, or any other text. */
  datatype Topic = CommandTopic(identity: DeviceIdentity) | OtherTopic(text: Text)

  /** A `sha256:` identifier, by the bytes it was computed from, or text that is not one. */
  datatype Digest = Sha256(preimage: Text) | NotADigest(text: Text)
}
