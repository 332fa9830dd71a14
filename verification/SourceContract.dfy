/** The contract tag of committed run ids. */
module SourceContract {
  // The accepted pool and topic contract, carried inside run ids (orchestration/uniswap_recovery.py).

  import opened Wrappers
  import opened Control

  const CONTRACT_TAG := "|uniswap_source_contract=v1:"

  predicate IsHex(c: char) { '0' <= c <= '9' || 'a' <= c <= 'f' }

  function Lower(s: string): (r: string)
    ensures |r| == |s|
  {
    seq(|s|, i requires 0 <= i < |s| =>
      if 'A' <= s[i] <= 'Z' then (s[i] as int + 32) as char else s[i])
  }

  predicate ValidFingerprint(f: string) {
    |f| == 64 && forall i :: 0 <= i < |f| ==> IsHex(f[i])
  }

  function Normalized(fingerprint: string): string { Lower(Strip(fingerprint)) }

  /** `source_contract_run_id`: tag a run with the contract it processed. */
  function SourceContractRunId(runId: string, fingerprint: string): (r: Result<string, string>)
    ensures r.Success? <==> ValidFingerprint(Normalized(fingerprint)) && Strip(runId) != []
    ensures r.Success? ==> EndsWith(r.value, Suffix(fingerprint)) && |r.value| > |Suffix(fingerprint)|
  {
    if !ValidFingerprint(Normalized(fingerprint)) then Failure("Source contract fingerprint must be 64 hexadecimal characters")
    else if Strip(runId) == [] then Failure("Run ID and source contract version must not be empty")
    else Success(Strip(runId) + Suffix(fingerprint))
  }

  /** The hexadecimal digit of value `k`, in lower case. */
  ghost predicate IsLowerDigit(c: char, k: int) {
    (0 <= k < 10 && c as int == 48 + k) || (10 <= k < 16 && c as int == 87 + k)
  }

  /** The digit of value `k` in either case. */
  ghost predicate IsDigit(c: char, k: int) {
    IsLowerDigit(c, k) || (10 <= k < 16 && c as int == 55 + k)
  }

  ghost predicate IsHexDigit(c: char) { exists k :: IsDigit(c, k) }

  ghost predicate AnyHex(s: string) {
    |s| == 64 && forall i :: 0 <= i < |s| ==> IsHexDigit(s[i])
  }

  lemma HexOfEitherCase(c: char, low: char)
    requires low == Lower([c])[0]
    ensures IsHex(low) <==> IsHexDigit(c)
    ensures forall k :: IsDigit(c, k) ==> IsLowerDigit(low, k)
  {
    if '0' <= low <= '9' { assert IsDigit(c, low as int - 48); }
    if 'a' <= low <= 'f' { assert IsDigit(c, low as int - 87); }
  }

  /** A fingerprint is accepted exactly when it is 64 hexadecimal digits, in either case, and is kept in lower case. */
  lemma FingerprintIff(f: string)
    ensures ValidFingerprint(Normalized(f)) <==> AnyHex(Strip(f))
    ensures AnyHex(Strip(f)) ==> forall i, k :: 0 <= i < 64 && IsDigit(Strip(f)[i], k) ==> IsLowerDigit(Normalized(f)[i], k)
  {
    var s, low := Strip(f), Normalized(f);
    forall i | 0 <= i < |s|
      ensures IsHex(low[i]) <==> IsHexDigit(s[i])
      ensures forall k :: IsDigit(s[i], k) ==> IsLowerDigit(low[i], k)
    {
      HexOfEitherCase(s[i], low[i]);
    }
    if ValidFingerprint(low) {
      forall i | 0 <= i < |s| ensures IsHexDigit(s[i]) { assert IsHex(low[i]); }
      assert |s| == |low| && AnyHex(s);
    }
    if AnyHex(s) {
      forall i | 0 <= i < |low| ensures IsHex(low[i]) { assert IsHexDigit(s[i]); }
    }
  }

  /** The tagged run id: the trimmed run id, the tag, and the fingerprint. */
  lemma TagSpelled(runId: string, f: string)
    ensures SourceContractRunId(runId, f).Success? <==> AnyHex(Strip(f)) && Strip(runId) != []
    ensures SourceContractRunId(runId, f).Success? ==>
              SourceContractRunId(runId, f).value == Strip(runId) + "|uniswap_source_contract=v1:" + Normalized(f)
  {
    FingerprintIff(f);
  }

  function Suffix(fingerprint: string): string { CONTRACT_TAG + Normalized(fingerprint) }

  /** `assert_source_contract_matches` against a committed run id. */
  predicate Matches(committedRunId: string, fingerprint: string) {
    ValidFingerprint(Normalized(fingerprint)) && EndsWith(committedRunId, Suffix(fingerprint))
  }

  /** A committed run id accepts one contract only. */
  lemma MatchesOneContract(committedRunId: string, f: string, g: string)
    requires Matches(committedRunId, f) && Matches(committedRunId, g)
    ensures Normalized(f) == Normalized(g)
  {
    assert Suffix(f) == Suffix(g);
    assert Suffix(f)[|CONTRACT_TAG|..] == Normalized(f);
    assert Suffix(g)[|CONTRACT_TAG|..] == Normalized(g);
  }

  /** Storing a tagged run id does not trim its tag. */
  lemma TaggedRunIdIsStoredWhole(runId: string, fingerprint: string)
    requires SourceContractRunId(runId, fingerprint).Success?
    ensures Strip(SourceContractRunId(runId, fingerprint).value) == SourceContractRunId(runId, fingerprint).value
    ensures Matches(SourceContractRunId(runId, fingerprint).value, fingerprint)
  {
    var tagged := SourceContractRunId(runId, fingerprint).value;
    StripIsTight(runId);
    assert tagged[0] == Strip(runId)[0];
    var f := Normalized(fingerprint);
    assert tagged[|tagged| - 1] == f[63] && IsHex(f[63]);
  }
}
