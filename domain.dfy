/**
 * The internal application record (package com.wohngeld.model) that the
 * PDF filler reads. Every Java reference field is an `Option`, `None`
 * standing for `null`; `Double` amounts are `real`.
 */
module Domain {
  import opened Wrappers

  datatype Antragsteller = Antragsteller(
    anrede: Option<string>,
    geschlecht: Option<string>,
    vorname: Option<string>,
    nachname: Option<string>,
    geburtsdatum: Option<string>,
    geburtsort: Option<string>,
    geburtsname: Option<string>,
    staatsangehoerigkeit: Option<string>,
    familienstand: Option<string>,
    erwerbsstatus: Option<string>,
    telefon: Option<string>,
    email: Option<string>)

  datatype Adresse = Adresse(
    strasse: Option<string>,
    hausnummer: Option<string>,
    plz: Option<string>,
    ort: Option<string>,
    bundesland: Option<string>)

  datatype Wohnung = Wohnung(
    einzugsdatum: Option<string>,
    wohnflaecheQm: Option<real>,
    anzahlRaeume: Option<int>,
    heizungsart: Option<string>,
    baujahr: Option<string>,
    vermieterName: Option<string>,
    vermieterAdresse: Option<string>,
    wohnverhaeltnis: Option<string>,
    verwandtschaftMitVermieter: Option<bool>,
    mietpreisbindung: Option<bool>)

  datatype Miete = Miete(
    kaltmiete: Option<real>,
    nebenkosten: Option<real>,
    heizkosten: Option<real>,
    warmwasser: Option<real>,
    gesamtmiete: Option<real>)

  datatype Einnahme = Einnahme(art: Option<string>, bruttoBetrag: Option<real>, turnus: Option<string>)

  datatype Einkommen = Einkommen(
    einnahmen: Option<seq<Einnahme>>,
    bruttoeinkommenMonatlich: Option<real>,
    nettoeinkommenMonatlich: Option<real>,
    sonstigeEinnahmen: Option<real>,
    kindergeld: Option<real>,
    unterhalt: Option<real>,
    steuern: Option<bool>,
    rentenversicherung: Option<bool>,
    krankenPflegeversicherung: Option<bool>)

  datatype Bankverbindung = Bankverbindung(
    kontoinhaber: Option<string>,
    iban: Option<string>,
    bic: Option<string>,
    bank: Option<string>)

  datatype AntragDaten = AntragDaten(
    antragsdatum: Option<string>,
    wohngeldAb: Option<string>,
    erstantrag: Option<bool>,
    wohngeldnummer: Option<string>,
    wohngeldbehoerde: Option<string>,
    wohngeldbehoerdeStrasse: Option<string>,
    wohngeldbehoerdePlz: Option<string>,
    wohngeldbehoerdeOrt: Option<string>)

  /** The household; its member list is never read by the filler and is not modelled. */
  datatype Haushalt = Haushalt(anzahlPersonen: Option<int>)

  datatype WohngeldAntragRequest = WohngeldAntragRequest(
    antragsteller: Option<Antragsteller>,
    adresse: Option<Adresse>,
    wohnung: Option<Wohnung>,
    miete: Option<Miete>,
    haushalt: Option<Haushalt>,
    einkommen: Option<Einkommen>,
    bankverbindung: Option<Bankverbindung>,
    antrag: Option<AntragDaten>)

  // ---------------------------------------------------------------------------
  // Miete
  // ---------------------------------------------------------------------------

  /** `Miete.builder().kaltmiete(k).gesamtmiete(g).build()`: the three cost
      components not given default to 0.0. */
  function MieteOf(kaltmiete: Option<real>, gesamtmiete: Option<real>): (m: Miete)
    ensures m.nebenkosten == m.heizkosten == m.warmwasser == Some(0.0)
  {
    Miete(kaltmiete, Some(0.0), Some(0.0), Some(0.0), gesamtmiete)
  }

  /** `getGesamtmiete()` returns without a NullPointerException: either the
      total is given, or all four parts it is summed from are. */
  predicate GesamtmieteDefined(m: Miete)
  {
    m.gesamtmiete.Some? ||
    (m.kaltmiete.Some? && m.nebenkosten.Some? && m.heizkosten.Some? && m.warmwasser.Some?)
  }

  /** The four parts of the total rent, when all are present. */
  function ComponentSum(m: Miete): real
    requires m.kaltmiete.Some? && m.nebenkosten.Some? && m.heizkosten.Some? && m.warmwasser.Some?
  {
    m.kaltmiete.value + m.nebenkosten.value + m.heizkosten.value + m.warmwasser.value
  }

  /** `Miete.getGesamtmiete()`: the explicit total when set, otherwise the sum of its parts. */
  function GetGesamtmiete(m: Miete): (r: real)
    requires GesamtmieteDefined(m)
    ensures m.gesamtmiete.Some? ==> r == m.gesamtmiete.value
    ensures m.gesamtmiete.None? ==> r == ComponentSum(m)
  {
    if m.gesamtmiete.Some? then m.gesamtmiete.value
    else m.kaltmiete.value + m.nebenkosten.value + m.heizkosten.value + m.warmwasser.value
  }

  /** With only the cold rent set, the defaults make the total equal to the cold rent. */
  lemma GesamtmieteOfKaltmiete(k: real)
    ensures GesamtmieteDefined(MieteOf(Some(k), None))
    ensures GetGesamtmiete(MieteOf(Some(k), None)) == k
  {
  }

  /** The parts are `@PositiveOrZero`. */
  predicate PartsNonNegative(m: Miete)
  {
    (m.kaltmiete.Some? ==> m.kaltmiete.value >= 0.0) &&
    (m.nebenkosten.Some? ==> m.nebenkosten.value >= 0.0) &&
    (m.heizkosten.Some? ==> m.heizkosten.value >= 0.0) &&
    (m.warmwasser.Some? ==> m.warmwasser.value >= 0.0)
  }

  /** Under the declared constraints the summed total is at least each of its parts. */
  lemma GesamtmieteCoversParts(m: Miete)
    requires m.gesamtmiete.None? && GesamtmieteDefined(m) && PartsNonNegative(m)
    ensures GetGesamtmiete(m) >= m.kaltmiete.value
    ensures GetGesamtmiete(m) >= m.nebenkosten.value
    ensures GetGesamtmiete(m) >= m.heizkosten.value
    ensures GetGesamtmiete(m) >= m.warmwasser.value
  {
  }
}
