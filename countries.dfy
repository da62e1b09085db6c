/**
  The static country catalog both pages offer (each page declares its own,
  identical copy), and the two ways the pages look a code up in it: the
  placeholder lookup, which falls back to the first entry, and the dial-code
  lookup of the sign-in identifier, which falls back to no dial code at all.
*/
module Countries {

  import opened Wrappers

  datatype Country = Country(value: string, displayLabel: string, dialCode: string, placeholder: string)

  const Catalog: seq<Country> := [
    Country("US", "United States (+1)", "+1", "201-555-0123"),
    Country("IR", "Iran (+98)", "+98", "0912xxxxxxx"),
    Country("GB", "United Kingdom (+44)", "+44", "07123 456789"),
    Country("AE", "United Arab Emirates (+971)", "+971", "050xxxxxxx")
  ]

  /** `countries.find((c) => c.value === code)`: the first entry with that code. */
  function Find(countries: seq<Country>, code: string): (r: Option<Country>)
    ensures r.None? <==> forall i :: 0 <= i < |countries| ==> countries[i].value != code
    ensures r.Some? ==> exists i :: 0 <= i < |countries| && countries[i] == r.value && r.value.value == code
                                   && forall j :: 0 <= j < i ==> countries[j].value != code
  {
    if countries == [] then None
    else if countries[0].value == code then Some(countries[0])
    else
      var r := Find(countries[1..], code);
      if r.Some? then
        var i :| 0 <= i < |countries[1..]| && countries[1..][i] == r.value && r.value.value == code
                  && forall j :: 0 <= j < i ==> countries[1..][j].value != code;
        assert countries[i + 1] == r.value;
        r
      else r
  }

  /** The codes of the catalog. */
  function Codes(): set<string> {
    set i | 0 <= i < |Catalog| :: Catalog[i].value
  }

  /** `countries.find(...) || countries[0]`: the entry whose placeholder the phone input shows. */
  function SelectedCountry(code: string): (c: Country)
    ensures c in Catalog
    ensures code in Codes() ==> c.value == code
    ensures code !in Codes() ==> c == Catalog[0]
  {
    Find(Catalog, code).GetOr(Catalog[0])
  }

  /** The dial code the sign-in identifier starts with: the matching entry's, or none when nothing matches. */
  function DialCode(code: string): (dial: string)
    ensures code !in Codes() ==> dial == ""
    ensures code in Codes() ==> exists i :: 0 <= i < |Catalog| && Catalog[i].value == code && dial == Catalog[i].dialCode
  {
    match Find(Catalog, code)
    case Some(c) => c.dialCode
    case None => ""
  }

  /** The catalog codes are distinct, so a code identifies one entry. */
  lemma CodesDistinct()
    ensures forall i, j :: 0 <= i < j < |Catalog| ==> Catalog[i].value != Catalog[j].value
  {
  }

  /** Looking up the code of a catalog entry finds that entry, for the placeholder and for the dial code alike. */
  lemma LookupByCode(i: nat)
    requires i < |Catalog|
    ensures Find(Catalog, Catalog[i].value) == Some(Catalog[i])
    ensures SelectedCountry(Catalog[i].value) == Catalog[i]
    ensures DialCode(Catalog[i].value) == Catalog[i].dialCode
  {
    CodesDistinct();
    var r := Find(Catalog, Catalog[i].value);
    assert r.Some?;
    var k :| 0 <= k < |Catalog| && Catalog[k] == r.value && r.value.value == Catalog[i].value;
    assert k == i;
  }
}
