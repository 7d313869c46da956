/**
 * The signature gate of controller/state.go: turns the repo server's commit
 * verification output and the project's trusted keys into comparison errors.
 */
module Signature {
  import opened Wrappers
  import opened Resources
  import opened Conditions

  datatype VerifyResultCode = VerifyResultGood | VerifyResultBad | VerifyResultInvalid | VerifyResultUnknown

  /** A parsed commit verification. */
  datatype CommitVerification = CommitVerification(result: VerifyResultCode, keyID: string, cipher: string, message: string)

  /** A trusted key declared by the project. */
  datatype SignatureKey = SignatureKey(keyID: string)

  /**
   * Some declared key names, after normalisation by keyID, the signing key, and
   * that normalised name is not empty (not a malformed id).
   */
  predicate KeyAllowed(keys: seq<SignatureKey>, signer: string, keyID: string -> string)
  {
    exists j :: 0 <= j < |keys| && keyID(keys[j].keyID) == keyID(signer) && keyID(keys[j].keyID) != ""
  }

  /**
   * The conditions the gate raises for one manifest response, given the raw
   * verification output, its parser, and the key-id normaliser.
   */
  function SignatureConditions(revision: string, keys: seq<SignatureKey>, verifyResult: string,
                               parse: string -> CommitVerification, keyID: string -> string): (cs: seq<Condition>)
    ensures |cs| <= 1
    ensures forall c :: c in cs ==> c.ctype == ComparisonError
    ensures cs == [] <==> verifyResult != "" && parse(verifyResult).result == VerifyResultGood && KeyAllowed(keys, parse(verifyResult).keyID, keyID)
    ensures verifyResult == "" ==> cs == [Condition(ComparisonError, NotSigned(revision))]
    ensures verifyResult != "" && parse(verifyResult).result == VerifyResultGood && !KeyAllowed(keys, parse(verifyResult).keyID, keyID) ==>
              cs == [Condition(ComparisonError, UntrustedKey(parse(verifyResult).cipher, parse(verifyResult).keyID))]
    ensures verifyResult != "" && parse(verifyResult).result == VerifyResultInvalid ==>
              cs == [Condition(ComparisonError, InvalidSignature(parse(verifyResult).cipher, parse(verifyResult).keyID, parse(verifyResult).message))]
    ensures verifyResult != "" && parse(verifyResult).result in {VerifyResultBad, VerifyResultUnknown} ==>
              cs == [Condition(ComparisonError, CouldNotVerify(revision))]
  {
    if verifyResult == "" then [Condition(ComparisonError, NotSigned(revision))]
    else
      var v := parse(verifyResult);
      match v.result
      case VerifyResultGood =>
        if KeyAllowed(keys, v.keyID, keyID) then [] else [Condition(ComparisonError, UntrustedKey(v.cipher, v.keyID))]
      case VerifyResultInvalid => [Condition(ComparisonError, InvalidSignature(v.cipher, v.keyID, v.message))]
      case _ => [Condition(ComparisonError, CouldNotVerify(revision))]
  }

  /** The gate for one response; the trusted-key search is a loop that stops at the first match. */
  method VerifyGnuPGSignature(revision: string, keys: seq<SignatureKey>, manifestInfo: ManifestResponse,
                              parse: string -> CommitVerification, keyID: string -> string)
    returns (conditions: seq<Condition>)
    ensures conditions == SignatureConditions(revision, keys, manifestInfo.verifyResult, parse, keyID)
  {
    conditions := [];
    if manifestInfo.verifyResult != "" {
      var verifyResult := parse(manifestInfo.verifyResult);
      match verifyResult.result {
        case VerifyResultGood =>
          var validKey := false;
          var i := 0;
          while i < |keys|
            invariant 0 <= i <= |keys|
            invariant validKey <==> exists j :: 0 <= j < i && keyID(keys[j].keyID) == keyID(verifyResult.keyID) && keyID(keys[j].keyID) != ""
          {
            if keyID(keys[i].keyID) == keyID(verifyResult.keyID) && keyID(keys[i].keyID) != "" {
              validKey := true;
              break;
            }
            i := i + 1;
          }
          if !validKey {
            conditions := conditions + [Condition(ComparisonError, UntrustedKey(verifyResult.cipher, verifyResult.keyID))];
          }
        case VerifyResultInvalid =>
          conditions := conditions + [Condition(ComparisonError, InvalidSignature(verifyResult.cipher, verifyResult.keyID, verifyResult.message))];
        case _ =>
          conditions := conditions + [Condition(ComparisonError, CouldNotVerify(revision))];
      }
    } else {
      conditions := conditions + [Condition(ComparisonError, NotSigned(revision))];
    }
  }

  /** Verification is required when the project declares keys and GnuPG is enabled. */
  predicate VerifySignatureRequired(keys: seq<SignatureKey>, gpgEnabled: bool)
  {
    |keys| > 0 && gpgEnabled
  }

  /** The gate's conditions over all responses, each checked against its own resolved revision. */
  function AllSignatureConditions(manifestInfos: seq<Option<ManifestResponse>>, keys: seq<SignatureKey>, gpgEnabled: bool,
                                  parse: string -> CommitVerification, keyID: string -> string): seq<Condition>
    decreases |manifestInfos|
  {
    if manifestInfos == [] then []
    else
      var n := |manifestInfos| - 1;
      AllSignatureConditions(manifestInfos[..n], keys, gpgEnabled, parse, keyID) +
        match manifestInfos[n]
        case Some(mi) =>
          if gpgEnabled && VerifySignatureRequired(keys, gpgEnabled)
          then SignatureConditions(mi.revision, keys, mi.verifyResult, parse, keyID)
          else []
        case None => []
  }

  /** The loop over the manifest responses that appends each response's signature conditions. */
  method VerifyManifestSignatures(manifestInfos: seq<Option<ManifestResponse>>, keys: seq<SignatureKey>, gpgEnabled: bool,
                                  parse: string -> CommitVerification, keyID: string -> string)
    returns (conditions: seq<Condition>)
    ensures conditions == AllSignatureConditions(manifestInfos, keys, gpgEnabled, parse, keyID)
  {
    var verifySignature := VerifySignatureRequired(keys, gpgEnabled);
    conditions := [];
    for i := 0 to |manifestInfos|
      invariant conditions == AllSignatureConditions(manifestInfos[..i], keys, gpgEnabled, parse, keyID)
    {
      assert manifestInfos[..i + 1][..i] == manifestInfos[..i];
      if gpgEnabled && verifySignature && manifestInfos[i].Some? {
        var found := VerifyGnuPGSignature(manifestInfos[i].value.revision, keys, manifestInfos[i].value, parse, keyID);
        conditions := conditions + found;
      }
    }
    assert manifestInfos[..|manifestInfos|] == manifestInfos;
  }

  /** Without trusted keys, or with GnuPG disabled, the gate raises nothing. */
  lemma {:induction false} NoKeysNoConditions(manifestInfos: seq<Option<ManifestResponse>>, keys: seq<SignatureKey>, gpgEnabled: bool,
                                             parse: string -> CommitVerification, keyID: string -> string)
    requires !VerifySignatureRequired(keys, gpgEnabled)
    ensures AllSignatureConditions(manifestInfos, keys, gpgEnabled, parse, keyID) == []
    decreases |manifestInfos|
  {
    if manifestInfos != [] {
      NoKeysNoConditions(manifestInfos[..|manifestInfos| - 1], keys, gpgEnabled, parse, keyID);
    }
  }

  /** A present response that fails the gate. */
  predicate Rejected(info: Option<ManifestResponse>, keys: seq<SignatureKey>, parse: string -> CommitVerification, keyID: string -> string)
  {
    info.Some? && SignatureConditions(info.value.revision, keys, info.value.verifyResult, parse, keyID) != []
  }

  function RejectedIndices(manifestInfos: seq<Option<ManifestResponse>>, keys: seq<SignatureKey>,
                           parse: string -> CommitVerification, keyID: string -> string): set<int>
  {
    set i | 0 <= i < |manifestInfos| && Rejected(manifestInfos[i], keys, parse, keyID)
  }

  lemma RejectedIndicesStep(manifestInfos: seq<Option<ManifestResponse>>, keys: seq<SignatureKey>,
                            parse: string -> CommitVerification, keyID: string -> string)
    requires manifestInfos != []
    ensures var n := |manifestInfos| - 1;
            RejectedIndices(manifestInfos, keys, parse, keyID) ==
            RejectedIndices(manifestInfos[..n], keys, parse, keyID) + (if Rejected(manifestInfos[n], keys, parse, keyID) then {n} else {})
  {
  }

  /**
   * When verification is required, every response yields exactly one condition
   * unless it is Good and signed by a trusted key, so the conditions are
   * exactly as many as the responses that fail the gate.
   */
  lemma {:induction false} OneConditionPerRejectedResponse(manifestInfos: seq<Option<ManifestResponse>>, keys: seq<SignatureKey>,
                                                           parse: string -> CommitVerification, keyID: string -> string)
    requires VerifySignatureRequired(keys, true)
    ensures |AllSignatureConditions(manifestInfos, keys, true, parse, keyID)| == |RejectedIndices(manifestInfos, keys, parse, keyID)|
    decreases |manifestInfos|
  {
    if manifestInfos == [] {
      assert RejectedIndices(manifestInfos, keys, parse, keyID) == {};
    } else {
      var n := |manifestInfos| - 1;
      OneConditionPerRejectedResponse(manifestInfos[..n], keys, parse, keyID);
      RejectedIndicesStep(manifestInfos, keys, parse, keyID);
      assert n !in RejectedIndices(manifestInfos[..n], keys, parse, keyID);
    }
  }

  /** An unsigned revision is reported with a message that names the revision. */
  lemma UnsignedRevisionReported(revision: string, keys: seq<SignatureKey>, manifestInfo: ManifestResponse,
                                 parse: string -> CommitVerification, keyID: string -> string)
    requires manifestInfo.verifyResult == ""
    ensures var cs := SignatureConditions(revision, keys, manifestInfo.verifyResult, parse, keyID);
            |cs| == 1 && cs[0].ctype == ComparisonError && Contains(Render(cs[0].message), revision) &&
            Contains(Render(cs[0].message), "not signed")
  {
    NotSignedMessageNamesRevision(revision);
  }
}
