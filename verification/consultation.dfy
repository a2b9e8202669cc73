/**
 * The product consultation screen of the EAN-keyed variant
 * (components/Consultation.tsx): a digits-only query looked up by code or
 * EAN in the consult catalog.
 */
module Consultation {
  import opened Wrappers
  import opened Text
  import opened Records
  import opened Lookup

  /**
   * The query is always typed through the digit filter, so an entry whose
   * code and EAN both hold a non-digit can never be found.
   */
  lemma NonNumericKeysUnreachable(entries: seq<CatalogEntry>, typed: string, e: CatalogEntry)
    requires !AllDigits(e.codigo) && !AllDigits(e.ean)
    ensures FindEntryByKey(entries, DigitsOnly(typed)) != Some(e)
  {
  }

  class ConsultPanel {
    var searchCode: string
    var result: Option<CatalogEntry>
    var searched: bool

    /**
     * The search box only ever holds digits, so a shown result is an entry
     * whose code or EAN is all digits.
     */
    predicate Valid()
      reads this
    {
      && AllDigits(searchCode)
      && (result.Some? ==> AllDigits(result.value.codigo) || AllDigits(result.value.ean))
    }

    constructor ()
      ensures Valid()
      ensures searchCode == "" && result == None && !searched
    {
      searchCode := "";
      result := None;
      searched := false;
    }

    /**
     * `handleSearch`: an empty query changes nothing; otherwise the first
     * entry whose code or EAN equals the query, or none, and `searched` is set.
     */
    method HandleSearch(entries: seq<CatalogEntry>)
      requires Valid()
      modifies this
      ensures Valid()
      ensures old(searchCode) == "" ==> result == old(result) && searched == old(searched)
      ensures old(searchCode) != "" ==> result == FindEntryByKey(entries, searchCode) && searched
      ensures searchCode == old(searchCode)
    {
      if searchCode == "" {
        return;
      }
      result := FindEntryByKey(entries, searchCode);
      searched := true;
    }

    /** `handleInputChange`: only the digits of what was typed are kept, and the last result is marked stale. */
    method HandleInputChange(text: string)
      requires Valid()
      modifies this
      ensures Valid()
      ensures searchCode == DigitsOnly(text) && !searched
      ensures result == old(result)
    {
      searchCode := DigitsOnly(text);
      searched := false;
    }
  }
}
