/** Normalisation of whatsapp-web.js contact ids such as `919876543210@c.us`. */
module PhoneNumberFormatter {
  import opened Strings

  /** The suffix the chat transport appends to a personal contact id. */
  const ContactSuffix: string := "@c.us"

  /**
   * The store key for a sender: the id with the first `@c.us` removed
   * (a string pattern in `replace` replaces one occurrence only).
   */
  function CleanNumber(phoneNumber: string): (r: string)
    ensures IsValidWhatsAppNumber(phoneNumber) ==> |r| == |phoneNumber| - |ContactSuffix|
    ensures !IsValidWhatsAppNumber(phoneNumber) ==> r == phoneNumber
  {
    ReplaceFirst(phoneNumber, ContactSuffix, "")
  }

  /** The id is a personal contact id: it contains `@c.us`. */
  function IsValidWhatsAppNumber(phoneNumber: string): (r: bool)
    ensures r <==> Occurs(phoneNumber, ContactSuffix)
  {
    ContainsIff(phoneNumber, ContactSuffix);
    Contains(phoneNumber, ContactSuffix)
  }

  /** The text before and after the first `@c.us` is kept, in order. */
  lemma CleanNumberRemovesFirstOccurrence(phoneNumber: string, i: nat)
    requires MatchAt(phoneNumber, ContactSuffix, i)
    requires forall j :: 0 <= j < i ==> !MatchAt(phoneNumber, ContactSuffix, j)
    ensures CleanNumber(phoneNumber) == phoneNumber[..i] + phoneNumber[i + |ContactSuffix|..]
  {
    IndexOfIs(phoneNumber, ContactSuffix, i);
  }

  /** Cleaning shortens the id by five characters exactly when the id is valid. */
  lemma CleanNumberLength(phoneNumber: string)
    ensures |CleanNumber(phoneNumber)| == |phoneNumber| - 5 <==> IsValidWhatsAppNumber(phoneNumber)
    ensures !IsValidWhatsAppNumber(phoneNumber) ==> |CleanNumber(phoneNumber)| == |phoneNumber|
  {
  }

  /**
   * A digit string followed by `@c.us` and anything else loses exactly that
   * suffix; in particular `<digits>@c.us` maps to `<digits>`, and a second
   * `@c.us` further on is left in place.
   */
  lemma {:induction false} CleanNumberOfContactId(digits: string, rest: string)
    requires forall k :: 0 <= k < |digits| ==> IsDigit(digits[k])
    ensures CleanNumber(digits + ContactSuffix + rest) == digits + rest
  {
    var p := digits + ContactSuffix + rest;
    var i := |digits|;
    assert p[i..i + |ContactSuffix|] == ContactSuffix;
    forall j | 0 <= j < i ensures !MatchAt(p, ContactSuffix, j) {
      assert p[j] == digits[j];
    }
    CleanNumberRemovesFirstOccurrence(p, i);
    assert p[..i] == digits;
    assert p[i + |ContactSuffix|..] == rest;
  }

  /** Only the first of two suffixes is removed. */
  lemma CleanNumberDoubleSuffix()
    ensures CleanNumber("919876543210@c.us@c.us") == "919876543210@c.us"
  {
    var digits := "919876543210";
    forall k | 0 <= k < |digits| ensures IsDigit(digits[k]) {
      if k < 4 {} else if k < 8 {} else {}
    }
    CleanNumberOfContactId(digits, ContactSuffix);
    assert "919876543210" + ContactSuffix + ContactSuffix == "919876543210@c.us@c.us";
    assert "919876543210" + ContactSuffix == "919876543210@c.us";
  }
}
