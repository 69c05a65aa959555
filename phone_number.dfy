/**
 * The phone-number normaliser of index.js (`formatPhoneNumber`): strip every
 * character that is not an ASCII digit, add `88` in front of an 11-digit
 * Bangladesh number that starts with its trunk digit `0` (so that it starts
 * with the calling code `880`), and append the WhatsApp user domain. The result is the protocol identifier (JID) used for
 * the existence lookup and for dispatch.
 */
module PhoneNumber {

  /** The domain every individual WhatsApp identifier ends with. */
  const Suffix: string := "@s.whatsapp.net"

  /** What a local Bangladesh number needs in front: with its trunk digit `0`
      it completes the calling code `880`. */
  const LocalPrefix: string := "88"

  /** `\d` of a JavaScript regular expression without the `u` flag: only '0'..'9'. */
  predicate IsAsciiDigit(c: char) {
    '0' <= c <= '9'
  }

  predicate AllDigits(s: string) {
    forall i :: 0 <= i < |s| ==> IsAsciiDigit(s[i])
  }

  predicate NoDigits(s: string) {
    forall i :: 0 <= i < |s| ==> !IsAsciiDigit(s[i])
  }

  /** `number.replace(/\D/g, '')`: the digits of `s`, in order. */
  function StripNonDigits(s: string): (r: string)
    ensures AllDigits(r)
    ensures |r| <= |s|
  {
    if s == [] then []
    else StripNonDigits(s[..|s| - 1]) + (if IsAsciiDigit(s[|s| - 1]) then [s[|s| - 1]] else [])
  }

  /** A well-formed identifier: some ASCII digits followed by the user domain. */
  predicate IsUserJid(jid: string) {
    |jid| >= |Suffix| && jid[|jid| - |Suffix|..] == Suffix && AllDigits(jid[..|jid| - |Suffix|])
  }

  /** The part of an identifier in front of the user domain. */
  function UserPart(jid: string): (user: string)
    requires IsUserJid(jid)
  {
    jid[..|jid| - |Suffix|]
  }

  /** The first rule: already international, `880` and 13 digits long. */
  predicate IsInternational(digits: string)
    // the two rules never both apply
    ensures IsInternational(digits) ==> !IsLocal(digits)
  {
    |digits| == 13 && digits[..3] == "880"
  }

  /** The second rule: a local number, `0` and 11 digits long. */
  predicate IsLocal(digits: string)
    // with the prefix, a local number has the international form
    ensures IsLocal(digits) ==> |LocalPrefix + digits| == 13 && (LocalPrefix + digits)[..3] == "880"
  {
    |digits| == 11 && digits[0] == '0'
  }

  /** `formatPhoneNumber(number)`. */
  function FormatPhoneNumber(number: string): (r: string)
    ensures IsUserJid(r)
    ensures var digits := StripNonDigits(number);
      && (IsLocal(digits) ==> UserPart(r) == LocalPrefix + digits)
      && (!IsLocal(digits) ==> UserPart(r) == digits)
  {
    var formatted := StripNonDigits(number);
    if IsInternational(formatted) then
      formatted + Suffix
    else if IsLocal(formatted) then
      LocalPrefix + formatted + Suffix
    else
      formatted + Suffix
  }

  // ---------------------------------------------------------------------
  // Properties of the digit filter

  /** Filtering distributes over concatenation. */
  lemma {:induction false} StripAppend(a: string, b: string)
    ensures StripNonDigits(a + b) == StripNonDigits(a) + StripNonDigits(b)
  {
    if b == [] {
      assert a + b == a;
    } else {
      assert (a + b)[..|a + b| - 1] == a + b[..|b| - 1];
      StripAppend(a, b[..|b| - 1]);
    }
  }

  /** A string of digits only is left as it is. */
  lemma {:induction false} StripAllDigits(s: string)
    requires AllDigits(s)
    ensures StripNonDigits(s) == s
  {
    if s != [] {
      StripAllDigits(s[..|s| - 1]);
    }
  }

  /** A string without digits is removed entirely. */
  lemma {:induction false} StripNoDigits(s: string)
    requires NoDigits(s)
    ensures StripNonDigits(s) == []
  {
    if s != [] {
      StripNoDigits(s[..|s| - 1]);
    }
  }

  /** No digit is lost or duplicated, and nothing that is not a digit survives. */
  lemma {:induction false} StripCounts(s: string, c: char)
    ensures multiset(StripNonDigits(s))[c] == if IsAsciiDigit(c) then multiset(s)[c] else 0
  {
    if s != [] {
      StripCounts(s[..|s| - 1], c);
      assert s == s[..|s| - 1] + [s[|s| - 1]];
      assert multiset(s) == multiset(s[..|s| - 1]) + multiset([s[|s| - 1]]);
    }
  }

  /** No digit is reordered: the digit at position `i` of `s` lands at the
      position given by the number of digits in front of it. */
  lemma StripKeepsOrder(s: string, i: nat)
    requires i < |s| && IsAsciiDigit(s[i])
    ensures var k := |StripNonDigits(s[..i])|;
      k < |StripNonDigits(s)| && StripNonDigits(s)[k] == s[i]
  {
    assert s == (s[..i] + [s[i]]) + s[i + 1..];
    StripAppend(s[..i] + [s[i]], s[i + 1..]);
    assert (s[..i] + [s[i]])[..i] == s[..i];
  }

  // ---------------------------------------------------------------------
  // Properties of the normaliser

  /** The user domain contains no digit. */
  lemma StripSuffix()
    ensures StripNonDigits(Suffix) == []
  {
    StripNoDigits(Suffix);
  }

  /** The digits of an identifier are exactly its user part. */
  lemma StripUserJid(jid: string)
    requires IsUserJid(jid)
    ensures StripNonDigits(jid) == UserPart(jid)
  {
    assert jid == UserPart(jid) + Suffix;
    StripAppend(UserPart(jid), Suffix);
    StripAllDigits(UserPart(jid));
    StripSuffix();
  }

  /** A local number becomes an international one: 13 digits starting `880`. */
  lemma LocalBecomesInternational(number: string)
    requires IsLocal(StripNonDigits(number))
    ensures IsInternational(UserPart(FormatPhoneNumber(number)))
  {
    var digits := StripNonDigits(number);
    assert (LocalPrefix + digits)[..3] == "880";
  }

  /** The user part is the input's digits, with `88` in front exactly for a local number. */
  lemma FormatDigits(number: string)
    ensures var digits, user := StripNonDigits(number), UserPart(FormatPhoneNumber(number));
      && (user == digits || user == LocalPrefix + digits)
      && (user == LocalPrefix + digits <==> IsLocal(digits))
  {
  }

  /** Normalising the user part of an identifier gives the identifier back. */
  lemma {:induction false} FormatUserPartIdempotent(number: string)
    ensures var jid := FormatPhoneNumber(number);
      FormatPhoneNumber(UserPart(jid)) == jid
  {
    var jid := FormatPhoneNumber(number);
    var user := UserPart(jid);
    StripAllDigits(user);
    if IsLocal(StripNonDigits(number)) {
      LocalBecomesInternational(number);
    }
    assert jid == user + Suffix;
  }

  /** Normalising an identifier again changes nothing. */
  lemma {:induction false} FormatIdempotent(number: string)
    ensures FormatPhoneNumber(FormatPhoneNumber(number)) == FormatPhoneNumber(number)
  {
    var jid := FormatPhoneNumber(number);
    StripUserJid(jid);
    FormatUserPartIdempotent(number);
  }
}
