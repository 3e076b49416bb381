/**
 * Webhook signature handling: extracting the digest from the
 * `Content-Signature` header, turning URL-safe base64 into standard base64,
 * and the fail-closed guards around public-key verification.
 *
 * The header is cleaned with `preg_replace('/alg=(\S+);\sdigest=/', '', $h)`,
 * which removes every match of that pattern, scanning left to right.
 * Base64 decoding, key parsing and signature verification are library calls
 * and come in as the fields of a `Crypto` value.
 */
module Signature {
  import opened Wrappers
  import opened Php

  /** The whitespace class `\s` of the pattern: space, tab, newline, vertical tab, form feed, carriage return. */
  predicate IsSpace(c: char) {
    c == ' ' || c == '\t' || c == '\n' || c == '\U{000B}' || c == '\U{000C}' || c == '\r'
  }

  predicate NoSpace(s: string) {
    forall k :: 0 <= k < |s| ==> !IsSpace(s[k])
  }

  /** The literal text before and after the `(\S+);\s` part of the pattern. */
  const AlgTag: string := "alg="
  const DigestTag: string := "digest="

  /** Reference meaning of the pattern: `t` is one whole match of `alg=(\S+);\sdigest=`. */
  ghost predicate IsPatternMatch(t: string) {
    exists alg: string, c: char {:trigger AlgTag + alg + ";" + [c] + DigestTag} ::
      |alg| >= 1 && NoSpace(alg) && IsSpace(c) && t == AlgTag + alg + ";" + [c] + DigestTag
  }

  /** The end of the run of non-space characters of `s` that starts at `i`. */
  function SpanNonSpace(s: string, i: nat): (j: nat)
    requires i <= |s|
    ensures i <= j <= |s|
    ensures forall k :: i <= k < j ==> !IsSpace(s[k])
    ensures j < |s| ==> IsSpace(s[j])
    decreases |s| - i
  {
    if i == |s| || IsSpace(s[i]) then i else SpanNonSpace(s, i + 1)
  }

  /**
   * The length of the match of the pattern at the start of `s`, if any.
   * The `\S+` run must stop right before a whitespace character, and `;`
   * must be its last character, so at most one match can start here.
   */
  function MatchAt(s: string): (n: Option<nat>)
    ensures n.Some? ==> 14 <= n.value <= |s|
  {
    if |s| >= 4 && s[..4] == AlgTag then
      var w := SpanNonSpace(s, 4);
      if 6 <= w && w + 8 <= |s| && s[w - 1] == ';' && s[w + 1..w + 8] == DigestTag
      then Some(w + 8)
      else None
    else None
  }

  /** A run of non-space characters ending before a space is the span from its start. */
  lemma {:induction false} SpanNonSpaceStops(s: string, i: nat, j: nat)
    requires i <= j < |s|
    requires forall k :: i <= k < j ==> !IsSpace(s[k])
    requires IsSpace(s[j])
    ensures SpanNonSpace(s, i) == j
    decreases j - i
  {
    if i < j {
      SpanNonSpaceStops(s, i + 1, j);
    }
  }

  /** What MatchAt finds is a match of the pattern. */
  lemma MatchAtSound(s: string)
    requires MatchAt(s).Some?
    ensures IsPatternMatch(s[..MatchAt(s).value])
  {
    var w := SpanNonSpace(s, 4);
    var alg, c := s[4..w - 1], s[w];
    assert s[..w + 8] == AlgTag + alg + ";" + [c] + DigestTag;
  }

  /** Every match of the pattern at the start of `s` is the one MatchAt finds. */
  lemma MatchAtComplete(s: string, n: nat)
    requires n <= |s| && IsPatternMatch(s[..n])
    ensures MatchAt(s) == Some(n)
  {
    var alg: string, c: char :| |alg| >= 1 && NoSpace(alg) && IsSpace(c)
      && s[..n] == AlgTag + alg + ";" + [c] + DigestTag;
    var w := 4 + |alg| + 1;
    assert s[..4] == s[..n][..4] == AlgTag;
    forall k | 4 <= k < w
      ensures !IsSpace(s[k])
    {
      assert s[k] == s[..n][k];
      if k < w - 1 {
        assert s[..n][k] == alg[k - 4];
      }
    }
    assert s[w] == s[..n][w] == c;
    SpanNonSpaceStops(s, 4, w);
    assert s[w - 1] == s[..n][w - 1] == ';';
    assert s[w + 1..w + 8] == s[..n][w + 1..w + 8] == DigestTag;
  }

  /** `preg_replace` of the pattern with "": every match, scanning left to right, is removed. */
  function StripPattern(s: string): (r: string)
    ensures |r| <= |s|
    ensures NoSpace(s) ==> r == s
    decreases |s|
  {
    if s == [] then []
    else
      match MatchAt(s)
      case Some(n) => StripPattern(s[n..])
      case None => [s[0]] + StripPattern(s[1..])
  }

  /** A string without whitespace never matches the pattern. */
  lemma NoSpaceNoMatch(s: string)
    requires NoSpace(s)
    ensures MatchAt(s).None?
  {
    if |s| >= 4 && s[..4] == AlgTag {
      var w := SpanNonSpace(s, 4);
      assert w == |s|;
    }
  }

  datatype SignatureError = SignatureMissing

  /** `get_signature_from_header`: the header with the pattern removed; an exception when that is empty. */
  function SignatureFromHeader(header: string): (r: Result<string, SignatureError>)
    ensures r.Failure? <==> Empty(StripPattern(header))
    ensures r.Success? ==> r.value == StripPattern(header) && |r.value| <= |header|
  {
    var signature := StripPattern(header);
    if Empty(signature) then Failure(SignatureMissing) else Success(signature)
  }

  /**
   * A well-formed header `alg=<alg>;<space>digest=<digest>` yields exactly
   * its digest, for every algorithm name and every non-empty digest that
   * contains no whitespace (base64url text never does).
   */
  lemma SignatureFromWellFormedHeader(alg: string, c: char, digest: string)
    requires |alg| >= 1 && NoSpace(alg) && IsSpace(c)
    requires NoSpace(digest) && !Empty(digest)
    ensures SignatureFromHeader(AlgTag + alg + ";" + [c] + DigestTag + digest) == Success(digest)
  {
    var prefix := AlgTag + alg + ";" + [c] + DigestTag;
    var h := prefix + digest;
    assert h[..|prefix|] == prefix;
    MatchAtComplete(h, |prefix|);
    assert h[|prefix|..] == digest;
  }

  /** A header with nothing after `digest=` throws. */
  lemma SignatureMissingWhenDigestEmpty(alg: string, c: char)
    requires |alg| >= 1 && NoSpace(alg) && IsSpace(c)
    ensures SignatureFromHeader(AlgTag + alg + ";" + [c] + DigestTag).Failure?
  {
    var h := AlgTag + alg + ";" + [c] + DigestTag;
    assert h[..|h|] == h;
    MatchAtComplete(h, |h|);
    assert h[|h|..] == [];
  }

  /** A header with no whitespace is passed on unchanged, even when it carries no `digest=` at all. */
  lemma HeaderWithoutPatternPassesThrough(header: string)
    requires NoSpace(header) && !Empty(header)
    ensures SignatureFromHeader(header) == Success(header)
  {
  }

  /** The character map of `strtr($s, '-_,', '+/=')`. */
  function ToStandardChar(c: char): char {
    if c == '-' then '+' else if c == '_' then '/' else if c == ',' then '=' else c
  }

  /** The inverse character map, from standard to URL-safe base64. */
  function ToUrlSafeChar(c: char): char {
    if c == '+' then '-' else if c == '/' then '_' else if c == '=' then ',' else c
  }

  /** `strtr($s, '-_,', '+/=')`: character by character, keeping the length. */
  function ToStandardBase64(s: string): (r: string)
    ensures |r| == |s|
    ensures forall i :: 0 <= i < |s| ==> r[i] == ToStandardChar(s[i])
  {
    if s == [] then [] else [ToStandardChar(s[0])] + ToStandardBase64(s[1..])
  }

  /** Standard base64 back to the URL-safe alphabet. */
  function ToUrlSafeBase64(s: string): (r: string)
    ensures |r| == |s|
    ensures forall i :: 0 <= i < |s| ==> r[i] == ToUrlSafeChar(s[i])
  {
    if s == [] then [] else [ToUrlSafeChar(s[0])] + ToUrlSafeBase64(s[1..])
  }

  /** The translated text holds none of the URL-safe characters. */
  lemma {:induction false} StandardHasNoUrlSafeChars(s: string)
    ensures forall i :: 0 <= i < |s| ==> ToStandardBase64(s)[i] !in {'-', '_', ','}
  {
  }

  /** Translating standard base64 to URL-safe and back gives the original text. */
  lemma {:induction false} UrlSafeRoundTrip(s: string)
    requires forall i :: 0 <= i < |s| ==> s[i] !in {'-', '_', ','}
    ensures ToStandardBase64(ToUrlSafeBase64(s)) == s
  {
    var r := ToStandardBase64(ToUrlSafeBase64(s));
    assert |r| == |s|;
    forall i | 0 <= i < |s|
      ensures r[i] == s[i]
    {
    }
  }

  /** An opaque handle to a parsed public key. */
  datatype KeyHandle = KeyHandle(id: nat)

  /**
   * The library calls the signature check relies on: PHP's `base64_decode`
   * ("" where it returns false), `openssl_get_publickey` (None where it
   * fails) and `openssl_verify` with SHA-256 (1 for a valid signature).
   */
  datatype Crypto = Crypto(
    base64Decode: string -> string,
    parsePublicKey: string -> Option<KeyHandle>,
    verify: (string, string, KeyHandle) -> int)

  /**
   * `url_safe_b64decode`: text already in the standard alphabet is decoded
   * as it is, and URL-safe text decodes as its standard form does.
   */
  function UrlSafeB64Decode(s: string, crypto: Crypto): (bytes: string)
    ensures (forall i :: 0 <= i < |s| ==> s[i] !in {'-', '_', ','}) ==> bytes == crypto.base64Decode(s)
  {
    StandardTextUnchanged(s);
    crypto.base64Decode(ToStandardBase64(s))
  }

  /** A URL-safe signature decodes to the same bytes as its standard form. */
  lemma UrlSafeDecodeAgreesWithStandard(s: string, crypto: Crypto)
    ensures UrlSafeB64Decode(s, crypto) == UrlSafeB64Decode(ToStandardBase64(s), crypto)
  {
    StandardHasNoUrlSafeChars(s);
    StandardTextUnchanged(ToStandardBase64(s));
  }

  /** Text in the standard alphabet is left unchanged by the translation. */
  lemma StandardTextUnchanged(s: string)
    ensures (forall i :: 0 <= i < |s| ==> s[i] !in {'-', '_', ','}) ==> ToStandardBase64(s) == s
  {
    if forall i :: 0 <= i < |s| ==> s[i] !in {'-', '_', ','} {
      var r := ToStandardBase64(s);
      assert forall i :: 0 <= i < |s| ==> r[i] == s[i];
    }
  }

  /**
   * `verification_signature`: false when the body, the signature or the key
   * is empty or the key cannot be parsed, and true only when the verifier
   * reports exactly 1.
   */
  function VerifySignature(data: string, signature: string, publicKey: string, crypto: Crypto): (ok: bool)
    ensures Empty(data) || Empty(signature) || Empty(publicKey) ==> !ok
    ensures crypto.parsePublicKey(publicKey).None? ==> !ok
    ensures ok ==> crypto.verify(data, signature, crypto.parsePublicKey(publicKey).value) == 1
    ensures (&& !Empty(data) && !Empty(signature) && !Empty(publicKey)
             && crypto.parsePublicKey(publicKey).Some?
             && crypto.verify(data, signature, crypto.parsePublicKey(publicKey).value) == 1) ==> ok
  {
    if Empty(data) || Empty(signature) || Empty(publicKey) then false
    else
      match crypto.parsePublicKey(publicKey)
      case None => false
      case Some(key) => crypto.verify(data, signature, key) == 1
  }
}
