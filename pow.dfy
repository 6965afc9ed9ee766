/**
 * The proof-of-work predicate shared by the client's solver and the server's
 * verifier: the digest of the challenge text followed by the decimal nonce
 * must start with `difficulty` copies of '0'. The digest (SHA-256 rendered
 * as hexadecimal in the source) is a parameter and is never interpreted.
 */
module Pow {
  import opened Wrappers
  import opened Decimal

  type Digest = string -> string

  /** The largest value of CPython's index type (a signed 64-bit integer). */
  const PY_SSIZE_MAX: int := 0x7FFF_FFFF_FFFF_FFFF

  /** Whether a repeat count fits the index type; `"0" * k` raises
      OverflowError for any other k. */
  predicate IndexSized(k: int) {
    -PY_SSIZE_MAX - 1 <= k <= PY_SSIZE_MAX
  }

  /** k copies of '0'. */
  function Zeros(k: nat): (z: string)
    ensures |z| == k
    ensures forall i :: 0 <= i < |z| ==> z[i] == '0'
  {
    if k == 0 then "" else Zeros(k - 1) + "0"
  }

  /** `"0" * k`: None where it raises OverflowError, empty when k <= 0. */
  function ZeroPrefix(k: int): (r: Option<string>)
    ensures r.None? <==> !IndexSized(k)
    ensures r.Some? ==> |r.value| == (if k > 0 then k else 0)
    ensures r.Some? ==> forall i :: 0 <= i < |r.value| ==> r.value[i] == '0'
  {
    if !IndexSized(k) then None else if k > 0 then Some(Zeros(k)) else Some("")
  }

  /** `h.startswith("0" * difficulty)`: None where building the prefix raises. */
  function StartsWithZeros(h: string, difficulty: int): Option<bool> {
    match ZeroPrefix(difficulty)
    case None => None
    case Some(prefix) => Some(prefix <= h)
  }

  /** The test answers True. */
  predicate HasLeadingZeros(h: string, difficulty: int) {
    StartsWithZeros(h, difficulty) == Some(true)
  }

  /** The test raises exactly for a difficulty outside the index type, and
      otherwise passes exactly when the first `difficulty` characters are '0'. */
  lemma LeadingZerosIff(h: string, difficulty: int)
    ensures StartsWithZeros(h, difficulty).None? <==> !IndexSized(difficulty)
    ensures HasLeadingZeros(h, difficulty) <==>
              IndexSized(difficulty) &&
              (difficulty <= 0 || (difficulty <= |h| && forall i :: 0 <= i < difficulty ==> h[i] == '0'))
  {
    if IndexSized(difficulty) && difficulty > 0 && difficulty <= |h| &&
       forall i :: 0 <= i < difficulty ==> h[i] == '0' {
      assert ZeroPrefix(difficulty).value == h[..difficulty];
    }
  }

  /** A difficulty of zero or less asks for an empty prefix, which every
      digest has, unless the count is too negative to build the prefix. */
  lemma NoDifficultyAlwaysPasses(h: string, difficulty: int)
    requires difficulty <= 0
    ensures HasLeadingZeros(h, difficulty) <==> IndexSized(difficulty)
  {
    if IndexSized(difficulty) {
      assert ZeroPrefix(difficulty).value == [];
    }
  }

  /** Passing a harder check implies passing every easier one whose prefix
      can be built; building it raises for the others. */
  lemma LeadingZerosMonotone(h: string, easier: int, harder: int)
    requires easier <= harder
    requires HasLeadingZeros(h, harder)
    ensures HasLeadingZeros(h, easier) <==> IndexSized(easier)
  {
    LeadingZerosIff(h, harder);
    LeadingZerosIff(h, easier);
  }

  /** The digest of `f"{challenge}{nonce}"` meets the difficulty. */
  predicate IsSolution(digest: Digest, challenge: string, difficulty: int, nonce: nat) {
    HasLeadingZeros(digest(challenge + NatToString(nonce)), difficulty)
  }

  /** The nonce a search upward from 0 stops at. */
  predicate IsFirstSolution(digest: Digest, challenge: string, difficulty: int, nonce: nat) {
    IsSolution(digest, challenge, difficulty, nonce) &&
    forall m: nat :: m < nonce ==> !IsSolution(digest, challenge, difficulty, m)
  }

  /** At most one nonce is the first solution, so the search is deterministic. */
  lemma FirstSolutionUnique(digest: Digest, challenge: string, difficulty: int, n1: nat, n2: nat)
    requires IsFirstSolution(digest, challenge, difficulty, n1)
    requires IsFirstSolution(digest, challenge, difficulty, n2)
    ensures n1 == n2
  {
  }

  /** With no difficulty the first solution is nonce 0, unless the
      difficulty is too negative to build the prefix. */
  lemma NoDifficultyFirstSolutionIsZero(digest: Digest, challenge: string, difficulty: int)
    requires difficulty <= 0
    ensures IsFirstSolution(digest, challenge, difficulty, 0) <==> IndexSized(difficulty)
  {
    NoDifficultyAlwaysPasses(digest(challenge + NatToString(0)), difficulty);
  }
}
