/**
 * The request shape of the public API (package com.wohngeld.dto), as far
 * as `WohngeldAntragMapper.toInternal` reads it. Nested records and the
 * fields the mapper dereferences are validated as `@NotNull`/`@NotBlank`
 * before mapping; they are plain (non-`Option`) here. Primitive Java
 * `boolean` fields are `bool`.
 */
module Dto {
  import opened Wrappers

  datatype AntragstellerDto = AntragstellerDto(
    familienname: Option<string>,
    vorname: Option<string>,
    geburtsdatum: Option<string>,
    staatsangehoerigkeit: Option<string>,
    geschlecht: Option<string>,
    familienstand: Option<string>,
    erwerbsstatus: Option<string>,
    geburtsname: Option<string>,
    geburtsort: Option<string>,
    telefon: Option<string>,
    email: Option<string>)

  datatype AdresseDto = AdresseDto(
    strasse: Option<string>,
    hausnummer: Option<string>,
    plz: Option<string>,
    ort: Option<string>,
    bundesland: Option<string>)

  datatype WohnungDto = WohnungDto(
    wohnflaecheQm: Option<real>,
    wohnverhaeltnis: Option<string>,
    verwandtschaftMitVermieter: bool,
    mietpreisbindung: bool,
    wohnberechtigungsschein: bool,
    einzugsdatum: Option<string>,
    anzahlRaeume: Option<int>,
    baujahr: Option<string>,
    vermieterName: Option<string>)

  /** `gesamtmiete` is `@NotNull` and unboxed by the mapper. */
  datatype MieteDto = MieteDto(
    gesamtmiete: real,
    heizkostenEnthalten: bool,
    heizkosten: Option<real>,
    warmwasserEnthalten: bool,
    warmwasserkosten: Option<real>,
    sonstigeKosten: Option<real>,
    mietaenderung: Option<string>)

  /** `turnus` is `@NotBlank` and upper-cased by the mapper. */
  datatype EinnahmeDto = EinnahmeDto(art: Option<string>, bruttoBetrag: Option<real>, turnus: string)

  /** `einnahmen` is `@NotEmpty` and streamed by the mapper. */
  datatype EinkommenDto = EinkommenDto(
    einnahmen: seq<EinnahmeDto>,
    steuern: bool,
    rentenversicherung: bool,
    krankenPflegeversicherung: bool)

  /** `iban` is `@NotBlank` and cleaned by the mapper. */
  datatype BankverbindungDto = BankverbindungDto(
    iban: string,
    bankName: Option<string>,
    kontoinhaberFamilienname: Option<string>,
    kontoinhaberVorname: Option<string>,
    kontoinhaberAnschrift: Option<string>,
    bic: Option<string>)

  datatype AntragMetadatenDto = AntragMetadatenDto(
    erstantrag: Option<bool>,
    wohngeldnummer: Option<string>,
    wohngeldAb: Option<string>,
    antragsdatum: Option<string>,
    formloserAntragDatum: Option<string>,
    einverstaendniserklaerung: bool)

  /** The supplemental yes/no answers are accepted but never read by the mapper and are not modelled. */
  datatype WohngeldAntragRequestDto = WohngeldAntragRequestDto(
    antrag: AntragMetadatenDto,
    antragsteller: AntragstellerDto,
    adresse: AdresseDto,
    wohnung: WohnungDto,
    miete: MieteDto,
    einkommen: EinkommenDto,
    bankverbindung: BankverbindungDto)
}
