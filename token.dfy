/**
 * The placeholder token: a fixed header segment, an opaque payload segment
 * and a fixed signature segment, and the verdict of the verify handler, which
 * only looks at the first four characters.
 */
module Token {

  /** The header segment the generate handler writes before the payload. */
  const Header: string := "eyJ0eXAiOiJKV1QifQ."

  /** The signature segment the generate handler writes after the payload. */
  const Signature: string := ".sig"

  /** The prefix the verify handler accepts. */
  const AcceptedPrefix: string := "eyJ0"

  const ValidMessage: string := "Valid token!"
  const InvalidMessage: string := "Invalid token"

  /** `s.startsWith(p)`, compared character by character. */
  function StartsWith(s: string, p: string): (r: bool)
    ensures r <==> |p| <= |s| && s[..|p|] == p
  {
    if p == [] then true
    else s != [] && s[0] == p[0] && StartsWith(s[1..], p[1..])
  }

  /**
   * The token built by the generate handler around `payload`, which stands for
   * the base64 text of the JSON of the message, the wallet list and the current
   * time in milliseconds.
   */
  function Generated(payload: string): (tk: string)
    ensures |tk| == |Header| + |payload| + |Signature|
    ensures tk[..|Header|] == Header
    ensures tk[|tk| - |Signature|..] == Signature
    ensures tk[|Header|..|tk| - |Signature|] == payload
  {
    Header + payload + Signature
  }

  /**
   * Whether every character of `s` is at most U+00FF, the only characters the
   * base64 encoder `btoa` accepts; it throws on any other.
   */
  function IsLatin1(s: string): (r: bool)
    ensures r <==> forall i :: 0 <= i < |s| ==> s[i] <= '\U{FF}'
  {
    s == [] || (s[0] <= '\U{FF}' && IsLatin1(s[1..]))
  }

  /**
   * Whether the payload of a token can be encoded. The message and addresses
   * are Unicode text, and the JSON serialiser escapes only ASCII characters in
   * it, so the JSON text holds them verbatim beside the field names and the
   * timestamp, which are ASCII. The encoder therefore succeeds exactly when
   * the message and every address are Latin-1.
   */
  function Encodable(message: string, wallets: seq<string>): (r: bool)
    ensures r <==> IsLatin1(message) && forall k :: 0 <= k < |wallets| ==> IsLatin1(wallets[k])
  {
    IsLatin1(message) && AllLatin1(wallets)
  }

  /** Whether every address in `wallets` is Latin-1. */
  function AllLatin1(wallets: seq<string>): (r: bool)
    ensures r <==> forall k :: 0 <= k < |wallets| ==> IsLatin1(wallets[k])
  {
    wallets == [] || (IsLatin1(wallets[0]) && AllLatin1(wallets[1..]))
  }

  /** A message holding the euro sign cannot be encoded, so no token is generated from it. */
  lemma EuroSignNotEncodable(wallets: seq<string>)
    ensures !Encodable("\U{20AC}", wallets)
  {
  }

  /** The message the verify handler shows for `token`. */
  function Verdict(token: string): (r: string)
    ensures r == ValidMessage || r == InvalidMessage
    ensures r == ValidMessage <==> |token| >= 4 && token[..4] == "eyJ0"
  {
    if StartsWith(token, AcceptedPrefix) then ValidMessage else InvalidMessage
  }

  /** Every generated token is non-empty and is accepted by the verify handler. */
  lemma GeneratedIsAccepted(payload: string)
    ensures Generated(payload) != ""
    ensures Verdict(Generated(payload)) == ValidMessage
  {
  }

  /** The verdict depends on the first four characters only: the payload and signature are never checked. */
  lemma VerdictIgnoresRest(token: string, rest: string)
    requires |token| >= 4
    ensures Verdict(token[..4] + rest) == Verdict(token)
  {
  }
}
