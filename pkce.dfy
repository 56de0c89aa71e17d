/**
 * The values generated once per process for Proof Key for Code Exchange
 * (RFC 7636) and the anti-forgery `state` of section 10.12 of RFC 6749:
 * the code verifier (section 4.1 of RFC 7636), its S256 code challenge
 * (section 4.2) and the state token.
 *
 * Randomness and SHA-256 are not modelled: the random draws are parameters
 * and the hash is a function-valued parameter returning 32 octets.
 */
module Pkce {
  import opened Wrappers
  import opened Base64Url

  /** A SHA-256 digest: 32 octets. */
  type Digest = d: seq<Byte> | |d| == 32 witness [0, 0, 0, 0, 0, 0, 0, 0, 0, 0, 0, 0, 0, 0, 0, 0, 0, 0, 0, 0, 0, 0, 0, 0, 0, 0, 0, 0, 0, 0, 0, 0]

  /** Python's `string.ascii_letters`: the lower-case letters, then the upper-case ones. */
  function AsciiLetters(): (r: string)
    ensures |r| == 52
    ensures forall i :: 0 <= i < 26 ==> 'a' <= r[i] <= 'z'
    ensures forall i :: 26 <= i < 52 ==> 'A' <= r[i] <= 'Z'
    ensures forall i, j :: 0 <= i < j < |r| ==> r[i] != r[j]
  {
    seq(26, i requires 0 <= i < 26 => ('a' as int + i) as char) +
    seq(26, i requires 0 <= i < 26 => ('A' as int + i) as char)
  }

  /** Python's `string.digits`. */
  function Digits(): (r: string)
    ensures |r| == 10
    ensures forall i :: 0 <= i < |r| ==> '0' <= r[i] <= '9'
    ensures forall i, j :: 0 <= i < j < |r| ==> r[i] != r[j]
  {
    seq(10, i requires 0 <= i < 10 => ('0' as int + i) as char)
  }

  /** The characters the verifier is drawn from. */
  function VerifierAlphabet(): string {
    AsciiLetters() + Digits() + "-._~"
  }

  /** The number of characters drawn for the verifier. */
  const VerifierLength: nat := 128

  /** The `unreserved` characters of section 4.1 of RFC 7636: ALPHA / DIGIT / "-" / "." / "_" / "~". */
  predicate IsUnreserved(c: char) {
    ('A' <= c <= 'Z') || ('a' <= c <= 'z') || ('0' <= c <= '9') || c == '-' || c == '.' || c == '_' || c == '~'
  }

  /** A code verifier as this program produces it: 128 unreserved characters. */
  predicate IsCodeVerifier(v: string) {
    |v| == VerifierLength && forall i :: 0 <= i < |v| ==> IsUnreserved(v[i])
  }

  /** Where an unreserved character sits in `VerifierAlphabet`. */
  function AlphabetIndex(c: char): (k: nat)
    requires IsUnreserved(c)
    ensures k < |VerifierAlphabet()| && VerifierAlphabet()[k] == c
  {
    if 'a' <= c <= 'z' then c as int - 'a' as int
    else if 'A' <= c <= 'Z' then 26 + (c as int - 'A' as int)
    else if '0' <= c <= '9' then 52 + (c as int - '0' as int)
    else if c == '-' then 62
    else if c == '.' then 63
    else if c == '_' then 64
    else 65
  }

  /** The alphabet is exactly the unreserved set: 66 characters, all unreserved, none missing. */
  lemma VerifierAlphabetIsUnreserved()
    ensures |VerifierAlphabet()| == 66
    ensures forall k :: 0 <= k < |VerifierAlphabet()| ==> IsUnreserved(VerifierAlphabet()[k])
    ensures forall c :: IsUnreserved(c) ==> c in VerifierAlphabet()
  {
    forall c | IsUnreserved(c) ensures c in VerifierAlphabet() {
      var k := AlphabetIndex(c);
    }
  }

  /**
   * `CODE_VERIFIER`: 128 draws of `secrets.choice` over the alphabet, joined.
   * `picks[i]` is the index the i-th draw chose.
   */
  function CodeVerifier(picks: seq<nat>): (v: string)
    requires |picks| == VerifierLength
    requires forall i :: 0 <= i < |picks| ==> picks[i] < |VerifierAlphabet()|
    ensures IsCodeVerifier(v)
  {
    VerifierAlphabetIsUnreserved();
    seq(VerifierLength, i requires 0 <= i < VerifierLength => VerifierAlphabet()[picks[i]])
  }

  /** Every string of 128 unreserved characters is a possible verifier. */
  lemma EveryVerifierIsDrawable(v: string)
    requires IsCodeVerifier(v)
    ensures exists picks: seq<nat> ::
              && |picks| == VerifierLength
              && (forall i :: 0 <= i < |picks| ==> picks[i] < |VerifierAlphabet()|)
              && CodeVerifier(picks) == v
  {
    var picks := seq(VerifierLength, i requires 0 <= i < VerifierLength => AlphabetIndex(v[i]));
    assert CodeVerifier(picks) == v;
  }

  /** `s.encode("utf-8")` for a string of ASCII characters: one octet per character. */
  function AsciiBytes(s: string): (b: seq<Byte>)
    requires forall i :: 0 <= i < |s| ==> s[i] as int < 128
    ensures |b| == |s|
  {
    seq(|s|, i requires 0 <= i < |s| => s[i] as int)
  }

  lemma VerifierIsAscii(v: string)
    requires IsCodeVerifier(v)
    ensures forall i :: 0 <= i < |v| ==> v[i] as int < 128
  {
  }

  /**
   * `CODE_CHALLENGE`: the unpadded URL-safe base64 of the SHA-256 digest of
   * the verifier's octets.  It is 43 URL-safe characters with no `=`, and it
   * decodes back to the digest.
   */
  function CodeChallenge(verifier: string, sha256: seq<Byte> -> Digest): (c: string)
    requires IsCodeVerifier(verifier)
    ensures |c| == 43 && AllUrlSafe(c) && '=' !in c
    ensures c == EncodeUnpadded(sha256(AsciiBytes(verifier)))
    ensures DecodeUnpadded(c) == Some(sha256(AsciiBytes(verifier)))
  {
    VerifierIsAscii(verifier);
    var digest := sha256(AsciiBytes(verifier));
    StrippedEncoding(digest);
    DecodeEncode(digest);
    StripPadding(Encode(digest))
  }

  /** The number of random octets behind `STATE`. */
  const StateEntropy: nat := 16

  /**
   * `STATE`: `secrets.token_urlsafe(16)`, which is the unpadded URL-safe
   * base64 of 16 random octets: 22 URL-safe characters that decode back to
   * those octets.
   */
  function StateToken(entropy: seq<Byte>): (t: string)
    requires |entropy| == StateEntropy
    ensures |t| == 22 && AllUrlSafe(t) && '=' !in t
    ensures t == EncodeUnpadded(entropy)
    ensures DecodeUnpadded(t) == Some(entropy)
  {
    StrippedEncoding(entropy);
    DecodeEncode(entropy);
    StripPadding(Encode(entropy))
  }

  /** The three per-process secrets. */
  datatype Secrets = Secrets(verifier: string, challenge: string, state: string)

  /** What the process start guarantees about its secrets. */
  predicate WellFormed(s: Secrets) {
    && IsCodeVerifier(s.verifier)
    && |s.challenge| == 43 && AllUrlSafe(s.challenge)
    && |s.state| == 22 && AllUrlSafe(s.state)
  }

  /** The module-level derivations run at import time. */
  function NewSecrets(picks: seq<nat>, entropy: seq<Byte>, sha256: seq<Byte> -> Digest): (s: Secrets)
    requires |picks| == VerifierLength
    requires forall i :: 0 <= i < |picks| ==> picks[i] < |VerifierAlphabet()|
    requires |entropy| == StateEntropy
    ensures WellFormed(s)
    ensures s.challenge == CodeChallenge(s.verifier, sha256)
  {
    var verifier := CodeVerifier(picks);
    Secrets(verifier, CodeChallenge(verifier, sha256), StateToken(entropy))
  }
}
