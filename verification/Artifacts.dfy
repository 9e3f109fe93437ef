// Text artifacts of the adapter SDK and the integrity check of the conformance kit.
//
// The hash and the size are taken of the text as produced, the stored content is redacted.
module Artifacts {
  import ChildProcess
  import Redaction
  import RedactionProofs

  datatype Artifact = Artifact(sha256: nat, sizeBytes: nat, content: string)

  // createTextArtifact (adapter-sdk 169-185); `hash` stands for SHA-256.
  function CreateTextArtifact(content: string, hash: string -> nat): Artifact {
    Artifact(hash(content), ChildProcess.ByteLength(content), Redaction.RedactText(content))
  }

  // assertArtifactIntegrity (conformance-kit 35-38)
  predicate Intact(a: Artifact, hash: string -> nat) {
    a.sha256 == hash(a.content) && a.sizeBytes == ChildProcess.ByteLength(a.content)
  }

  // What is stored never holds a secret, and unless this very text collides with its redaction the
  // integrity check accepts a fresh artifact exactly when the text held none in the first place.
  lemma IntegrityNeedsCleanText(content: string, hash: string -> nat)
    requires hash(Redaction.RedactText(content)) == hash(content) ==> Redaction.RedactText(content) == content
    ensures RedactionProofs.Clean(CreateTextArtifact(content, hash).content)
    ensures Intact(CreateTextArtifact(content, hash), hash) <==> RedactionProofs.Clean(content)
  {
    hide RedactionProofs.Clean;
    hide Redaction.RedactText;
    RedactionProofs.RedactedTextIsClean(content);
    if RedactionProofs.Clean(content) {
      RedactionProofs.CleanTextIsKept(content);
    }
  }

  // Whatever the hash: the recorded size is that of the text as produced, so an artifact whose
  // redaction has another size is never accepted.
  lemma SizeIsOfTheOriginal(content: string, hash: string -> nat)
    requires Intact(CreateTextArtifact(content, hash), hash)
    ensures ChildProcess.ByteLength(Redaction.RedactText(content)) == ChildProcess.ByteLength(content)
    ensures hash(Redaction.RedactText(content)) == hash(content)
  {
  }
}
