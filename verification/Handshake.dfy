/** `POST /connect` hands the browser a single-use token and the advertised certificate hashes.
    This joins the token machine and the rotation machine on one clock. */
module Handshake {
  import opened Common
  import CertRotation
  import WtTokens

  /** A browser whose token is accepted is being served under a certificate it was told about:
      the hashes were fetched after the token was issued (`fetchedAt`) and any swaps that fell
      before the handshake promoted a certificate already in the list. */
  lemma AcceptedClientKnowsCertificate(
    certs: CertRotation.Run, ops: seq<WtTokens.Op>, j: nat, i: nat, fetchedAt: int)
    requires CertRotation.Paced(certs, CertRotation.SWAP_LOOKAHEAD)
    requires WtTokens.Timed(ops) && WtTokens.Fresh(ops)
    requires j < |ops| && ops[j].Issue?
    requires i < |ops| && ops[i].Consume? && ops[i].token == ops[j].token
    requires WtTokens.Answer(ops, i).Some?
    requires ops[j].issuedAt <= fetchedAt <= ops[i].at
    ensures CertRotation.At(certs, ops[i].at).current.hash in CertRotation.Hashes(CertRotation.At(certs, fetchedAt))
    ensures WtTokens.Answer(ops, i) == Some(ops[j].actor)
  {
    WtTokens.ConsumeAnswers(ops, i);
    var k: nat :| WtTokens.Redeems(ops, k, i);
    assert k == j;
    CertRotation.FetchedHashesStayGood(certs, fetchedAt, ops[i].at);
  }
}
