// cf_box/ip_list_manager.py: the `anonymize` dispatcher, and the properties
// of its copies of `anonymize_email` and `anonymize_account_id` (the same
// code as cf_box/data_export.py, so module DataExport defines them once).

module IpListManager {
  import opened Base
  import opened Text
  import opened DataExport

  /**
   * `anonymize`: text passes through when the flag is off; otherwise text
   * holding an "@" is masked as an address and any other text as an id.
   */
  function Anonymize(text: string, anonymizeFlag: bool): (r: Result<string>)
  {
    if !anonymizeFlag then Ok(text)
    else if '@' in text then AnonymizeEmail(text)
    else Ok(AnonymizeAccountId(Str(text)).s)
  }

  /** The dispatch: identity with the flag off, the address mask exactly for text with an "@". */
  lemma AnonymizeDispatch(text: string, anonymizeFlag: bool)
    ensures !anonymizeFlag ==> Anonymize(text, anonymizeFlag) == Ok(text)
    ensures anonymizeFlag && '@' in text ==> Anonymize(text, anonymizeFlag) == AnonymizeEmail(text)
    ensures anonymizeFlag && '@' !in text ==>
      Anonymize(text, anonymizeFlag) == Ok(if |text| < 10 then text else text[..6] + "..." + text[|text| - 4..])
  {
  }

  /**
   * A masked id of 10 or more characters is 13 characters long and keeps the
   * first six and last four, so masking it again changes nothing.
   */
  lemma AccountIdIdempotent(id: Scalar)
    ensures var once := AnonymizeAccountId(id);
      && (id.Str? && |id.s| >= 10 ==> |once.s| == 13 && once.s[..6] == id.s[..6] && once.s[9..] == id.s[|id.s| - 4..])
      && AnonymizeAccountId(once) == once
  {
    var once := AnonymizeAccountId(id);
    if id.Str? && |id.s| >= 10 {
      assert once.s[..6] == id.s[..6];
      assert once.s[|once.s| - 4..] == once.s[9..];
    }
  }

  /** The tests' 32-character id keeps its first six and last four characters. */
  lemma AccountIdExample()
    ensures AnonymizeAccountId(Str("1234567890abcdef1234567890abcdef")) == Str("123456...cdef")
  {
  }

  /** Every character of a masked domain is a star or comes from the domain. */
  lemma {:induction false} MaskDomainChars(domain: string, c: char)
    requires c != '*' && c !in domain
    requires MaskDomain(domain).Ok?
    ensures c !in MaskDomain(domain).value
  {
    MaskDomainShape(domain);
    if '.' in domain {
      var i := IndexOf(domain, '.');
      var d := MaskDomain(domain).value;
      assert d == [domain[0]] + Repeat('*', i - 1) + domain[i..];
      forall k | 0 <= k < |d| ensures d[k] != c {
        if k >= i { assert d[k] == domain[k]; }
      }
    }
  }

  /**
   * An address with no "@" comes back as it was; one that is masked keeps
   * exactly one "@".
   */
  lemma {:induction false} EmailKeepsOneAt(email: string)
    ensures '@' !in email ==> AnonymizeEmail(email) == Ok(email)
    ensures AnonymizeEmail(email).Ok? && '@' in email ==> Count(AnonymizeEmail(email).value, '@') == 1
  {
    if '@' in email && AnonymizeEmail(email).Ok? {
      SplitShape(email, '@');
      JoinSplit(email, '@');
      var parts := Split(email, '@');
      var name, domain := parts[0], parts[1];
      assert email == name + "@" + domain;
      AnonymizeEmailShape(name, domain);
      MaskDomainChars(domain, '@');
      var m := MaskLocalPart(name);
      var d := MaskDomain(domain).value;
      assert '@' !in m;
      CountAppend(m + "@", d, '@');
      CountAppend(m, "@", '@');
    }
  }

  /**
   * With a local part longer than two characters and a dot after the first
   * character of the domain, the masked address is as long as the original.
   */
  lemma {:induction false} EmailPreservesLength(name: string, domain: string)
    requires '@' !in name && '@' !in domain
    requires |name| > 2 && '.' in domain && IndexOf(domain, '.') > 0
    ensures AnonymizeEmail(name + "@" + domain).Ok?
    ensures |AnonymizeEmail(name + "@" + domain).value| == |name + "@" + domain|
  {
    AnonymizeEmailShape(name, domain);
    MaskDomainShape(domain);
  }

  /** Masking never adds nor removes the presence of "@". */
  lemma {:induction false} AnonymizeKeepsAtPresence(text: string, anonymizeFlag: bool)
    requires Anonymize(text, anonymizeFlag).Ok?
    ensures ('@' in Anonymize(text, anonymizeFlag).value) <==> ('@' in text)
  {
    if anonymizeFlag && '@' in text {
      EmailKeepsOneAt(text);
    }
  }
}
