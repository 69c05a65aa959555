/** The two worked examples of the normaliser: a local Bangladesh number and
    an international number written with separators. */
module PhoneNumberExamples {
  import opened PhoneNumber

  // Each example takes its input as a parameter fixed by `requires`: stating the
  // literal in the `ensures` directly makes the solver unfold the digit filter
  // over it, which is far more costly.

  /** A local number in its plain form gets `88` in front. */
  lemma ExampleLocal(number: string)
    requires number == "01712345678"
    ensures FormatPhoneNumber(number) == "8801712345678@s.whatsapp.net"
  {
    assert AllDigits(number);
    StripAllDigits(number);
    assert IsLocal(number) && !IsInternational(number);
    assert LocalPrefix + number + Suffix == "8801712345678@s.whatsapp.net";
  }

  /** Spaces, dashes and the plus sign are stripped; the international form is kept. */
  lemma ExampleInternational(number: string)
    requires number == "+880 1712-345678"
    ensures FormatPhoneNumber(number) == "8801712345678@s.whatsapp.net"
  {
    ExampleInternationalDigits(number);
    assert IsInternational("8801712345678");
    assert "8801712345678" + Suffix == "8801712345678@s.whatsapp.net";
  }

  lemma ExampleInternationalDigits(number: string)
    requires number == "+880 1712-345678"
    ensures StripNonDigits(number) == "8801712345678"
  {
    StripThreeGroups(number, "+", "880", " ", "1712", "-", "345678");
    assert "880" + "1712" + "345678" == "8801712345678";
  }

  /** Three groups of digits, each behind a separator, lose their separators. */
  lemma StripThreeGroups(s: string, sep0: string, group0: string, sep1: string, group1: string, sep2: string, group2: string)
    requires NoDigits(sep0) && NoDigits(sep1) && NoDigits(sep2)
    requires AllDigits(group0) && AllDigits(group1) && AllDigits(group2)
    requires s == (sep0 + group0) + (sep1 + group1) + (sep2 + group2)
    ensures StripNonDigits(s) == group0 + group1 + group2
  {
    StripGroup(sep0, group0);
    StripGroup(sep1, group1);
    StripGroup(sep2, group2);
    StripAppend((sep0 + group0) + (sep1 + group1), sep2 + group2);
    StripAppend(sep0 + group0, sep1 + group1);
  }

  /** A group of digits behind a separator loses the separator. */
  lemma StripGroup(separator: string, digits: string)
    requires NoDigits(separator) && AllDigits(digits)
    ensures StripNonDigits(separator + digits) == digits
  {
    StripAppend(separator, digits);
    StripNoDigits(separator);
    StripAllDigits(digits);
  }
}
