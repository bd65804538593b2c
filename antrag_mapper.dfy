/**
 * WohngeldAntragMapper: converts the public API request into the internal
 * application record that the PDF filler reads. Enum-like strings are
 * canonicalised (with a default for `null`), the cold rent is estimated
 * from the total rent, income amounts are summed per month and the IBAN
 * is cleaned of whitespace.
 */
module AntragMapper {
  import opened Wrappers
  import opened Text
  import opened Domain
  import opened Dto

  // ---------------------------------------------------------------------------
  // Enum-like strings
  //
  // Each normalizer is a `switch` on the upper-cased input: an alias table
  // from upper-case spellings to one canonical value, and a default branch
  // for everything else.
  // ---------------------------------------------------------------------------

  /** The cases of `normalizeGeschlecht`. */
  function GeschlechtAlias(u: string): Option<string>
  {
    if u == "MAENNLICH" || u == "M" || u == "MÄNNLICH" then Some("maennlich")
    else if u == "WEIBLICH" || u == "W" then Some("weiblich")
    else if u == "DIVERS" || u == "D" then Some("divers")
    else None
  }

  /** `normalizeGeschlecht`: null gives the default, unknown values are lower-cased. */
  function NormalizeGeschlecht(value: Option<string>): string
  {
    if value.None? then "maennlich"
    else
      var c := GeschlechtAlias(Upper(value.value));
      if c.Some? then c.value else Lower(value.value)
  }

  /** The gender aliases lead to three canonical values. */
  lemma GeschlechtAliasValues(u: string)
    requires GeschlechtAlias(u).Some?
    ensures GeschlechtAlias(u).value == "maennlich" || GeschlechtAlias(u).value == "weiblich" || GeschlechtAlias(u).value == "divers"
  {
  }

  /** Each canonical gender is its own alias. */
  lemma GeschlechtFixed()
    ensures GeschlechtAlias(Upper("maennlich")) == Some("maennlich")
    ensures GeschlechtAlias(Upper("weiblich")) == Some("weiblich")
    ensures GeschlechtAlias(Upper("divers")) == Some("divers")
  {
    UpperCharwise("maennlich", "MAENNLICH");
    UpperCharwise("weiblich", "WEIBLICH");
    UpperCharwise("divers", "DIVERS");
  }

  /** The canonical genders hold no capital letter. */
  lemma GeschlechtValuesLower()
    ensures NoUpperLetters("maennlich") && NoUpperLetters("weiblich") && NoUpperLetters("divers")
  {
  }

  /** Every result is lower case, and normalizing it again changes nothing. */
  lemma GeschlechtCanonical(value: Option<string>)
    ensures NoUpperLetters(NormalizeGeschlecht(value))
    ensures NormalizeGeschlecht(Some(NormalizeGeschlecht(value))) == NormalizeGeschlecht(value)
  {
    GeschlechtValuesLower();
    if value.None? {
      GeschlechtFixed();
    } else if GeschlechtAlias(Upper(value.value)).Some? {
      GeschlechtAliasValues(Upper(value.value));
      GeschlechtFixed();
    } else {
      UpperOfLower(value.value);
      LowerIdempotent(value.value);
    }
  }

  /** Inputs that differ only in case normalize alike. */
  lemma GeschlechtIgnoresCase(s: string, t: string)
    requires EqualsIgnoreCase(s, t)
    ensures NormalizeGeschlecht(Some(s)) == NormalizeGeschlecht(Some(t))
  {
    EqualsIgnoreCaseSameCase(s, t);
  }

  /** The cases of `normalizeFamilienstand`. */
  function FamilienstandAlias(u: string): Option<string>
  {
    if u == "LEDIG" then Some("ledig")
    else if u == "VERHEIRATET" then Some("verheiratet")
    else if u == "GESCHIEDEN" then Some("geschieden")
    else if u == "VERWITWET" then Some("verwitwet")
    else if u == "GETRENNT_LEBEND" || u == "GETRENNT LEBEND" then Some("getrennt lebend")
    else if u == "LEBENSPARTNERSCHAFT" || u == "EINGETRAGENE_LEBENSPARTNERSCHAFT" then Some("eingetragene Lebenspartnerschaft")
    else None
  }

  /** `normalizeFamilienstand`: null gives the default, unknown values are lower-cased. */
  function NormalizeFamilienstand(value: Option<string>): string
  {
    if value.None? then "ledig"
    else
      var c := FamilienstandAlias(Upper(value.value));
      if c.Some? then c.value else Lower(value.value)
  }

  /** The marital-status aliases lead to six canonical values. */
  lemma FamilienstandAliasValues(u: string)
    requires FamilienstandAlias(u).Some?
    ensures FamilienstandAlias(u).value == "ledig" || FamilienstandAlias(u).value == "verheiratet" || FamilienstandAlias(u).value == "geschieden" || FamilienstandAlias(u).value == "verwitwet" || FamilienstandAlias(u).value == "getrennt lebend" || FamilienstandAlias(u).value == "eingetragene Lebenspartnerschaft"
  {
  }

  /** The first canonical marital states are their own aliases. */
  lemma FamilienstandFixed()
    ensures FamilienstandAlias(Upper("ledig")) == Some("ledig")
    ensures FamilienstandAlias(Upper("verheiratet")) == Some("verheiratet")
    ensures FamilienstandAlias(Upper("geschieden")) == Some("geschieden")
  {
    UpperCharwise("ledig", "LEDIG");
    UpperCharwise("verheiratet", "VERHEIRATET");
    UpperCharwise("geschieden", "GESCHIEDEN");
  }

  /** So are the other two, except the registered partnership. */
  lemma FamilienstandFixedSeparated()
    ensures FamilienstandAlias(Upper("verwitwet")) == Some("verwitwet")
    ensures FamilienstandAlias(Upper("getrennt lebend")) == Some("getrennt lebend")
  {
    UpperCharwise("verwitwet", "VERWITWET");
    UpperCharwise("getrennt lebend", "GETRENNT LEBEND");
  }

  /** The registered partnership's canonical spelling has a space where its
      alias has an underscore, so it is no alias, and a second pass
      lower-cases it. */
  lemma FamilienstandPartnershipNoAlias(c: string)
    requires c == "eingetragene Lebenspartnerschaft"
    ensures FamilienstandAlias(Upper(c)) == None
    ensures NormalizeFamilienstand(Some(c)) == Lower(c)
  {
    UpperCharwise(c, "EINGETRAGENE LEBENSPARTNERSCHAFT");
    PartnershipSpelling("EINGETRAGENE LEBENSPARTNERSCHAFT");
  }

  lemma PartnershipSpelling(u: string)
    requires u == "EINGETRAGENE LEBENSPARTNERSCHAFT"
    ensures FamilienstandAlias(u) == None
  {
    assert u[12] != "EINGETRAGENE_LEBENSPARTNERSCHAFT"[12];
  }

  /** Normalizing again changes nothing, except that the registered
      partnership, the only canonical value with a capital letter, is
      lower-cased by a second pass. */
  lemma FamilienstandCanonical(value: Option<string>)
    ensures var r := NormalizeFamilienstand(value);
      if r == "eingetragene Lebenspartnerschaft"
      then NormalizeFamilienstand(Some(r)) == Lower(r)
      else NormalizeFamilienstand(Some(r)) == r && NoUpperLetters(r)
  {
    if value.None? {
      FamilienstandFixed();
      FamilienstandValuesLower();
    } else {
      FamilienstandCanonicalGiven(value.value);
    }
  }

  lemma FamilienstandCanonicalGiven(s: string)
    ensures var r := NormalizeFamilienstand(Some(s));
      if r == "eingetragene Lebenspartnerschaft"
      then NormalizeFamilienstand(Some(r)) == Lower(r)
      else NormalizeFamilienstand(Some(r)) == r && NoUpperLetters(r)
  {
    var c := FamilienstandAlias(Upper(s));
    if c == Some("eingetragene Lebenspartnerschaft") {
      FamilienstandPartnershipNoAlias(c.value);
    } else if c.Some? {
      FamilienstandAliasFixed(Upper(s));
    } else {
      UpperOfLower(s);
      LowerIdempotent(s);
    }
  }

  /** The canonical marital states other than the registered partnership hold
      no capital letter. */
  lemma FamilienstandValuesLower()
    ensures NoUpperLetters("ledig") && NoUpperLetters("verheiratet") && NoUpperLetters("geschieden")
    ensures NoUpperLetters("verwitwet") && NoUpperLetters("getrennt lebend")
  {
  }

  /** Every other alias leads to a lower-case value that is its own alias. */
  lemma FamilienstandAliasFixed(u: string)
    requires FamilienstandAlias(u).Some? && FamilienstandAlias(u).value != "eingetragene Lebenspartnerschaft"
    ensures var c := FamilienstandAlias(u).value; FamilienstandAlias(Upper(c)) == Some(c) && NoUpperLetters(c)
  {
    FamilienstandAliasValues(u);
    FamilienstandValuesLower();
    FamilienstandFixed();
    FamilienstandFixedSeparated();
  }

  /** Inputs that differ only in case normalize alike. */
  lemma FamilienstandIgnoresCase(s: string, t: string)
    requires EqualsIgnoreCase(s, t)
    ensures NormalizeFamilienstand(Some(s)) == NormalizeFamilienstand(Some(t))
  {
    EqualsIgnoreCaseSameCase(s, t);
  }

  /** The cases of `normalizeErwerbsstatus`. */
  function ErwerbsstatusAlias(u: string): Option<string>
  {
    if u == "ERWERBSTAETIG" || u == "ERWERBSTÄTIG" then Some("erwerbstaetig")
    else if u == "ARBEITSLOS" then Some("arbeitslos")
    else if u == "RENTNER" || u == "RENTNERIN" || u == "PENSIONAER" || u == "PENSIONÄR" then Some("rentner")
    else if u == "STUDENT" || u == "STUDENTIN" then Some("student")
    else if u == "SCHUELER" || u == "SCHÜLER" || u == "SCHUELERIN" || u == "SCHÜLERIN" then Some("schueler")
    else if u == "SELBSTSTAENDIG" || u == "SELBSTÄNDIG" || u == "SELBSTSTÄNDIG" then Some("selbststaendig")
    else None
  }

  /** `normalizeErwerbsstatus`: null gives the default, unknown values are lower-cased. */
  function NormalizeErwerbsstatus(value: Option<string>): string
  {
    if value.None? then "erwerbstaetig"
    else
      var c := ErwerbsstatusAlias(Upper(value.value));
      if c.Some? then c.value else Lower(value.value)
  }

  /** The employment aliases lead to six canonical values. */
  lemma ErwerbsstatusAliasValues(u: string)
    requires ErwerbsstatusAlias(u).Some?
    ensures ErwerbsstatusAlias(u).value == "erwerbstaetig" || ErwerbsstatusAlias(u).value == "arbeitslos" || ErwerbsstatusAlias(u).value == "rentner" || ErwerbsstatusAlias(u).value == "student" || ErwerbsstatusAlias(u).value == "schueler" || ErwerbsstatusAlias(u).value == "selbststaendig"
  {
  }

  /** The canonical working and retired states are their own aliases. */
  lemma ErwerbsstatusFixed()
    ensures ErwerbsstatusAlias(Upper("erwerbstaetig")) == Some("erwerbstaetig")
    ensures ErwerbsstatusAlias(Upper("arbeitslos")) == Some("arbeitslos")
    ensures ErwerbsstatusAlias(Upper("rentner")) == Some("rentner")
  {
    UpperCharwise("erwerbstaetig", "ERWERBSTAETIG");
    UpperCharwise("arbeitslos", "ARBEITSLOS");
    UpperCharwise("rentner", "RENTNER");
  }

  /** So are the canonical education and self-employment states. */
  lemma ErwerbsstatusFixedEducation()
    ensures ErwerbsstatusAlias(Upper("student")) == Some("student")
    ensures ErwerbsstatusAlias(Upper("schueler")) == Some("schueler")
    ensures ErwerbsstatusAlias(Upper("selbststaendig")) == Some("selbststaendig")
  {
    UpperCharwise("student", "STUDENT");
    UpperCharwise("schueler", "SCHUELER");
    SelbststaendigFixed();
  }

  lemma SelbststaendigFixed()
    ensures ErwerbsstatusAlias(Upper("selbststaendig")) == Some("selbststaendig")
  {
    UpperCharwise("selbststaendig", "SELBSTSTAENDIG");
  }

  /** Every result is lower case, and normalizing it again changes nothing. */
  lemma ErwerbsstatusCanonical(value: Option<string>)
    ensures NoUpperLetters(NormalizeErwerbsstatus(value))
    ensures NormalizeErwerbsstatus(Some(NormalizeErwerbsstatus(value))) == NormalizeErwerbsstatus(value)
  {
    if value.None? {
      ErwerbsstatusFixed();
      ErwerbsstatusValuesLower();
    } else {
      ErwerbsstatusCanonicalGiven(value.value);
    }
  }

  lemma ErwerbsstatusCanonicalGiven(s: string)
    ensures NoUpperLetters(NormalizeErwerbsstatus(Some(s)))
    ensures NormalizeErwerbsstatus(Some(NormalizeErwerbsstatus(Some(s)))) == NormalizeErwerbsstatus(Some(s))
  {
    if ErwerbsstatusAlias(Upper(s)).Some? {
      ErwerbsstatusAliasFixed(Upper(s));
    } else {
      UpperOfLower(s);
      LowerIdempotent(s);
    }
  }

  /** The canonical employment states hold no capital letter. */
  lemma ErwerbsstatusValuesLower()
    ensures NoUpperLetters("erwerbstaetig") && NoUpperLetters("arbeitslos") && NoUpperLetters("rentner")
    ensures NoUpperLetters("student") && NoUpperLetters("schueler") && NoUpperLetters("selbststaendig")
  {
  }

  /** An alias leads to a lower-case value that is its own alias. */
  lemma ErwerbsstatusAliasFixed(u: string)
    requires ErwerbsstatusAlias(u).Some?
    ensures var c := ErwerbsstatusAlias(u).value; ErwerbsstatusAlias(Upper(c)) == Some(c) && NoUpperLetters(c)
  {
    ErwerbsstatusAliasValues(u);
    ErwerbsstatusValuesLower();
    ErwerbsstatusFixed();
    ErwerbsstatusFixedEducation();
  }

  /** Inputs that differ only in case normalize alike. */
  lemma ErwerbsstatusIgnoresCase(s: string, t: string)
    requires EqualsIgnoreCase(s, t)
    ensures NormalizeErwerbsstatus(Some(s)) == NormalizeErwerbsstatus(Some(t))
  {
    EqualsIgnoreCaseSameCase(s, t);
  }

  /** The cases of `normalizeWohnverhaeltnis`. */
  function WohnverhaeltnisAlias(u: string): Option<string>
  {
    if u == "HAUPTMIETER" then Some("HAUPTMIETER")
    else if u == "UNTERMIETER" then Some("UNTERMIETER")
    else if u == "HEIMBEWOHNER" then Some("HEIMBEWOHNER")
    else if u == "EIGENTUM" || u == "EIGENTUEMER" || u == "EIGENTÜMER" then Some("EIGENTUM")
    else None
  }

  /** `normalizeWohnverhaeltnis`: null gives the default, unknown values are upper-cased. */
  function NormalizeWohnverhaeltnis(value: Option<string>): string
  {
    if value.None? then "HAUPTMIETER"
    else
      var u := Upper(value.value);
      var c := WohnverhaeltnisAlias(u);
      if c.Some? then c.value else u
  }

  /** The default housing value is upper case. */
  lemma HauptmieterUpper()
    ensures NoLowerLetters("HAUPTMIETER")
  {
  }

  /** The canonical value for owners is upper case. */
  lemma EigentumUpper()
    ensures NoLowerLetters("EIGENTUM")
  {
  }

  /** The result is upper case and normalizing it again changes nothing. */
  lemma WohnverhaeltnisCanonical(value: Option<string>)
    ensures NoLowerLetters(NormalizeWohnverhaeltnis(value))
    ensures NormalizeWohnverhaeltnis(Some(NormalizeWohnverhaeltnis(value))) == NormalizeWohnverhaeltnis(value)
  {
    if value.None? {
      HauptmieterUpper();
      UpperOfUpperCase("HAUPTMIETER");
    } else if WohnverhaeltnisAlias(Upper(value.value)) == Some("EIGENTUM") {
      EigentumUpper();
      UpperOfUpperCase("EIGENTUM");
    } else {
      // the other values are the upper-cased input itself
      UpperHasNoLowerLetters(value.value);
      UpperIdempotent(value.value);
    }
  }

  /** Inputs that differ only in case normalize alike. */
  lemma WohnverhaeltnisIgnoresCase(s: string, t: string)
    requires EqualsIgnoreCase(s, t)
    ensures NormalizeWohnverhaeltnis(Some(s)) == NormalizeWohnverhaeltnis(Some(t))
  {
    EqualsIgnoreCaseSameCase(s, t);
  }

  // ---------------------------------------------------------------------------
  // Rent
  // ---------------------------------------------------------------------------

  /** The costs that `calculateKaltmiete` takes off the total rent: heating and
      hot water only when they are not included, other costs always. */
  function Deductions(dto: MieteDto): real
  {
    (if !dto.heizkostenEnthalten && dto.heizkosten.Some? then dto.heizkosten.value else 0.0) +
    (if !dto.warmwasserEnthalten && dto.warmwasserkosten.Some? then dto.warmwasserkosten.value else 0.0) +
    (if dto.sonstigeKosten.Some? then dto.sonstigeKosten.value else 0.0)
  }

  /** `calculateKaltmiete`: the total minus the known costs, step by step, never below zero. */
  function CalculateKaltmiete(dto: MieteDto): (r: real)
    ensures r >= 0.0
    ensures r == if dto.gesamtmiete - Deductions(dto) > 0.0 then dto.gesamtmiete - Deductions(dto) else 0.0
  {
    var k0 := dto.gesamtmiete;
    var k1 := if !dto.heizkostenEnthalten && dto.heizkosten.Some? then k0 - dto.heizkosten.value else k0;
    var k2 := if !dto.warmwasserEnthalten && dto.warmwasserkosten.Some? then k1 - dto.warmwasserkosten.value else k1;
    var k3 := if dto.sonstigeKosten.Some? then k2 - dto.sonstigeKosten.value else k2;
    if 0.0 > k3 then 0.0 else k3
  }

  /** The declared `@PositiveOrZero` costs. */
  predicate CostsNonNegative(dto: MieteDto)
  {
    (dto.heizkosten.Some? ==> dto.heizkosten.value >= 0.0) &&
    (dto.warmwasserkosten.Some? ==> dto.warmwasserkosten.value >= 0.0) &&
    (dto.sonstigeKosten.Some? ==> dto.sonstigeKosten.value >= 0.0)
  }

  /** With non-negative costs the estimate never exceeds a non-negative total,
      and declaring heating as included never lowers it. */
  lemma KaltmieteBounds(dto: MieteDto)
    requires CostsNonNegative(dto) && dto.gesamtmiete >= 0.0
    ensures CalculateKaltmiete(dto) <= dto.gesamtmiete
    ensures CalculateKaltmiete(dto) <= CalculateKaltmiete(dto.(heizkostenEnthalten := true))
  {
  }

  /** `mapMiete`: the costs are copied as given (an explicit `null` overrides
      the builder's 0.0 default), and the cold rent is the estimate. */
  function MapMiete(dto: MieteDto): (m: Miete)
    ensures m.gesamtmiete == Some(dto.gesamtmiete) && m.kaltmiete == Some(CalculateKaltmiete(dto))
    ensures m.nebenkosten == dto.sonstigeKosten && m.heizkosten == dto.heizkosten && m.warmwasser == dto.warmwasserkosten
    ensures GesamtmieteDefined(m) && GetGesamtmiete(m) == dto.gesamtmiete
  {
    Miete(Some(CalculateKaltmiete(dto)), dto.sonstigeKosten, dto.heizkosten, dto.warmwasserkosten, Some(dto.gesamtmiete))
  }

  // ---------------------------------------------------------------------------
  // Income
  // ---------------------------------------------------------------------------

  /** `convertToMonthly`. */
  function ConvertToMonthly(amount: Option<real>, turnus: string): (r: real)
    ensures amount.None? ==> r == 0.0
  {
    if amount.None? then 0.0
    else
      var u := Upper(turnus);
      if u == "JAEHRLICH" then amount.value / 12.0
      else if u == "TAEGLICH" then amount.value * 30.0
      else amount.value
  }

  /** Per interval, the monthly amount times the number of units in a month
      gives back the amount; and converting a non-negative amount stays non-negative. */
  lemma ConvertToMonthlyScales(a: real, turnus: string)
    ensures Upper(turnus) == "JAEHRLICH" ==> ConvertToMonthly(Some(a), turnus) * 12.0 == a
    ensures Upper(turnus) == "TAEGLICH" ==> ConvertToMonthly(Some(a), turnus) == 30.0 * a
    ensures Upper(turnus) != "JAEHRLICH" && Upper(turnus) != "TAEGLICH" ==> ConvertToMonthly(Some(a), turnus) == a
    ensures a >= 0.0 ==> ConvertToMonthly(Some(a), turnus) >= 0.0
  {
  }

  /** The interval is matched ignoring case. */
  lemma ConvertToMonthlyIgnoresCase(amount: Option<real>, s: string, t: string)
    requires EqualsIgnoreCase(s, t)
    ensures ConvertToMonthly(amount, s) == ConvertToMonthly(amount, t)
  {
    EqualsIgnoreCaseSameCase(s, t);
  }

  /** The stream sum of the monthly amounts. */
  function MonthlySum(es: seq<EinnahmeDto>): real
  {
    if es == [] then 0.0 else ConvertToMonthly(es[0].bruttoBetrag, es[0].turnus) + MonthlySum(es[1..])
  }

  /** Summing splits over concatenated income lists. */
  lemma {:induction false} MonthlySumAppend(a: seq<EinnahmeDto>, b: seq<EinnahmeDto>)
    ensures MonthlySum(a + b) == MonthlySum(a) + MonthlySum(b)
  {
    if a != [] {
      assert (a + b)[1..] == a[1..] + b;
      MonthlySumAppend(a[1..], b);
    } else {
      assert a + b == b;
    }
  }

  /** Non-negative amounts sum to a non-negative total that covers each of them. */
  lemma {:induction false} MonthlySumCovers(es: seq<EinnahmeDto>, i: int)
    requires forall j :: 0 <= j < |es| && es[j].bruttoBetrag.Some? ==> es[j].bruttoBetrag.value >= 0.0
    requires 0 <= i < |es|
    ensures MonthlySum(es) >= ConvertToMonthly(es[i].bruttoBetrag, es[i].turnus) >= 0.0
  {
    if i == 0 {
      MonthlySumNonNegative(es[1..]);
    } else {
      MonthlySumCovers(es[1..], i - 1);
    }
    ConvertToMonthlyScales(if es[0].bruttoBetrag.Some? then es[0].bruttoBetrag.value else 0.0, es[0].turnus);
  }

  lemma {:induction false} MonthlySumNonNegative(es: seq<EinnahmeDto>)
    requires forall j :: 0 <= j < |es| && es[j].bruttoBetrag.Some? ==> es[j].bruttoBetrag.value >= 0.0
    ensures MonthlySum(es) >= 0.0
  {
    if es != [] {
      MonthlySumNonNegative(es[1..]);
      ConvertToMonthlyScales(if es[0].bruttoBetrag.Some? then es[0].bruttoBetrag.value else 0.0, es[0].turnus);
    }
  }

  /** The internal copy of one income entry. */
  function CopyEinnahme(e: EinnahmeDto): Einnahme
  {
    Einnahme(e.art, e.bruttoBetrag, Some(e.turnus))
  }

  /** `mapEinkommen`: the entries copied in order, brutto the monthly sum and
      netto equal to brutto. Other income, child benefit and maintenance are
      never set, so they keep their `@Builder.Default` of 0.0. */
  function MapEinkommen(dto: EinkommenDto): (r: Einkommen)
    ensures r.einnahmen.Some? && |r.einnahmen.value| == |dto.einnahmen|
    ensures forall i :: 0 <= i < |dto.einnahmen| ==>
      r.einnahmen.value[i] == Einnahme(dto.einnahmen[i].art, dto.einnahmen[i].bruttoBetrag, Some(dto.einnahmen[i].turnus))
    ensures r.bruttoeinkommenMonatlich == Some(MonthlySum(dto.einnahmen))
    ensures r.nettoeinkommenMonatlich == r.bruttoeinkommenMonatlich
    ensures r.steuern == Some(dto.steuern) && r.rentenversicherung == Some(dto.rentenversicherung)
    ensures r.krankenPflegeversicherung == Some(dto.krankenPflegeversicherung)
    ensures r.sonstigeEinnahmen == r.kindergeld == r.unterhalt == Some(0.0)
  {
    var total := MonthlySum(dto.einnahmen);
    Einkommen(
      Some(seq(|dto.einnahmen|, i requires 0 <= i < |dto.einnahmen| => CopyEinnahme(dto.einnahmen[i]))),
      Some(total), Some(total), Some(0.0), Some(0.0), Some(0.0),
      Some(dto.steuern), Some(dto.rentenversicherung), Some(dto.krankenPflegeversicherung))
  }

  // ---------------------------------------------------------------------------
  // Bank account, application data, whole request
  // ---------------------------------------------------------------------------

  /** `mapBankverbindung`. */
  function MapBankverbindung(dto: BankverbindungDto): (r: Bankverbindung)
    ensures r.iban.Some? && forall i :: 0 <= i < |r.iban.value| ==> !IsJavaWhitespace(r.iban.value[i])
    ensures r.kontoinhaber == Some(NullText(dto.kontoinhaberFamilienname) + ", " + NullText(dto.kontoinhaberVorname))
    ensures r.bank == dto.bankName && r.bic == dto.bic
  {
    Bankverbindung(
      Some(NullText(dto.kontoinhaberFamilienname) + ", " + NullText(dto.kontoinhaberVorname)),
      Some(RemoveWhitespace(dto.iban)), dto.bic, dto.bankName)
  }

  /** The cleaned IBAN keeps the non-whitespace characters, and cleaning it again changes nothing. */
  lemma CleanIbanStable(dto: BankverbindungDto)
    ensures MapBankverbindung(dto).iban == Some(RemoveWhitespace(dto.iban))
    ensures RemoveWhitespace(MapBankverbindung(dto).iban.value) == MapBankverbindung(dto).iban.value
    ensures (forall i :: 0 <= i < |dto.iban| ==> !IsJavaWhitespace(dto.iban[i])) ==> MapBankverbindung(dto).iban == Some(dto.iban)
  {
    RemoveWhitespaceIdempotent(dto.iban);
    if forall i :: 0 <= i < |dto.iban| ==> !IsJavaWhitespace(dto.iban[i]) {
      RemoveWhitespaceKeeps(dto.iban);
    }
  }

  /** `mapAntragsteller`: names and personal data copied, the three status
      values normalized; the salutation is never set and keeps its
      `@Builder.Default` "Herr". */
  function MapAntragsteller(dto: AntragstellerDto): (r: Antragsteller)
    ensures r.anrede == Some("Herr")
    ensures r.nachname == dto.familienname && r.vorname == dto.vorname
    ensures r.geburtsdatum == dto.geburtsdatum && r.geburtsort == dto.geburtsort && r.geburtsname == dto.geburtsname
    ensures r.staatsangehoerigkeit == dto.staatsangehoerigkeit && r.telefon == dto.telefon && r.email == dto.email
    ensures r.geschlecht == Some(NormalizeGeschlecht(dto.geschlecht)) && NoUpperLetters(r.geschlecht.value)
    ensures r.familienstand == Some(NormalizeFamilienstand(dto.familienstand))
    ensures r.erwerbsstatus == Some(NormalizeErwerbsstatus(dto.erwerbsstatus)) && NoUpperLetters(r.erwerbsstatus.value)
  {
    GeschlechtCanonical(dto.geschlecht);
    ErwerbsstatusCanonical(dto.erwerbsstatus);
    Antragsteller(
      Some("Herr"), Some(NormalizeGeschlecht(dto.geschlecht)), dto.vorname, dto.familienname,
      dto.geburtsdatum, dto.geburtsort, dto.geburtsname, dto.staatsangehoerigkeit,
      Some(NormalizeFamilienstand(dto.familienstand)), Some(NormalizeErwerbsstatus(dto.erwerbsstatus)),
      dto.telefon, dto.email)
  }

  /** `mapAdresse`: the five address parts copied. */
  function MapAdresse(dto: AdresseDto): (r: Adresse)
    ensures r.strasse == dto.strasse && r.hausnummer == dto.hausnummer && r.plz == dto.plz
    ensures r.ort == dto.ort && r.bundesland == dto.bundesland
  {
    Adresse(dto.strasse, dto.hausnummer, dto.plz, dto.ort, dto.bundesland)
  }

  /** `mapWohnung`: the dwelling data copied, the tenancy type normalized and
      the two answers boxed; heating type and landlord address are not set. */
  function MapWohnung(dto: WohnungDto): (r: Wohnung)
    ensures r.wohnflaecheQm == dto.wohnflaecheQm && r.einzugsdatum == dto.einzugsdatum
    ensures r.anzahlRaeume == dto.anzahlRaeume && r.baujahr == dto.baujahr && r.vermieterName == dto.vermieterName
    ensures r.heizungsart.None? && r.vermieterAdresse.None?
    ensures r.wohnverhaeltnis == Some(NormalizeWohnverhaeltnis(dto.wohnverhaeltnis)) && NoLowerLetters(r.wohnverhaeltnis.value)
    ensures r.verwandtschaftMitVermieter == Some(dto.verwandtschaftMitVermieter)
    ensures r.mietpreisbindung == Some(dto.mietpreisbindung)
  {
    WohnverhaeltnisCanonical(dto.wohnverhaeltnis);
    Wohnung(
      dto.einzugsdatum, dto.wohnflaecheQm, dto.anzahlRaeume, None, dto.baujahr, dto.vermieterName, None,
      Some(NormalizeWohnverhaeltnis(dto.wohnverhaeltnis)),
      Some(dto.verwandtschaftMitVermieter), Some(dto.mietpreisbindung))
  }

  /** `mapAntragDaten`: the four application attributes copied; the
      authority's fields are not set. */
  function MapAntragDaten(dto: AntragMetadatenDto): (r: AntragDaten)
    ensures r.erstantrag == dto.erstantrag && r.wohngeldnummer == dto.wohngeldnummer
    ensures r.wohngeldAb == dto.wohngeldAb && r.antragsdatum == dto.antragsdatum
    ensures r.wohngeldbehoerde.None? && r.wohngeldbehoerdeStrasse.None?
    ensures r.wohngeldbehoerdePlz.None? && r.wohngeldbehoerdeOrt.None?
  {
    AntragDaten(dto.antragsdatum, dto.wohngeldAb, dto.erstantrag, dto.wohngeldnummer, None, None, None, None)
  }

  /** `toInternal`: every section present, converted by its mapper; the household is a single person. */
  function ToInternal(dto: WohngeldAntragRequestDto): (r: WohngeldAntragRequest)
    ensures r.haushalt == Some(Haushalt(Some(1)))
    ensures r.antragsteller.Some? && r.adresse.Some? && r.wohnung.Some? && r.miete.Some?
    ensures r.einkommen.Some? && r.bankverbindung.Some? && r.antrag.Some?
    ensures r.antragsteller == Some(MapAntragsteller(dto.antragsteller)) && r.adresse == Some(MapAdresse(dto.adresse))
    ensures r.wohnung == Some(MapWohnung(dto.wohnung)) && r.miete == Some(MapMiete(dto.miete))
    ensures r.einkommen == Some(MapEinkommen(dto.einkommen)) && r.bankverbindung == Some(MapBankverbindung(dto.bankverbindung))
    ensures r.antrag == Some(MapAntragDaten(dto.antrag))
    ensures r.antragsteller.value.anrede == Some("Herr") && r.antragsteller.value.nachname == dto.antragsteller.familienname
    ensures r.einkommen.value.sonstigeEinnahmen == r.einkommen.value.kindergeld == r.einkommen.value.unterhalt == Some(0.0)
    ensures r.miete.value.kaltmiete == Some(CalculateKaltmiete(dto.miete))
    ensures r.einkommen.value.bruttoeinkommenMonatlich == Some(MonthlySum(dto.einkommen.einnahmen))
    ensures r.bankverbindung.value.iban == Some(RemoveWhitespace(dto.bankverbindung.iban))
  {
    WohngeldAntragRequest(
      Some(MapAntragsteller(dto.antragsteller)),
      Some(MapAdresse(dto.adresse)),
      Some(MapWohnung(dto.wohnung)),
      Some(MapMiete(dto.miete)),
      Some(Haushalt(Some(1))),
      Some(MapEinkommen(dto.einkommen)),
      Some(MapBankverbindung(dto.bankverbindung)),
      Some(MapAntragDaten(dto.antrag)))
  }

  /** The converted request always has a readable total rent, and its canonical
      strings are fixed points of the normalizers. */
  lemma ToInternalCanonical(dto: WohngeldAntragRequestDto)
    ensures var r := ToInternal(dto);
      GesamtmieteDefined(r.miete.value) && GetGesamtmiete(r.miete.value) == dto.miete.gesamtmiete &&
      NormalizeGeschlecht(r.antragsteller.value.geschlecht) == r.antragsteller.value.geschlecht.value &&
      NormalizeErwerbsstatus(r.antragsteller.value.erwerbsstatus) == r.antragsteller.value.erwerbsstatus.value &&
      NormalizeWohnverhaeltnis(r.wohnung.value.wohnverhaeltnis) == r.wohnung.value.wohnverhaeltnis.value
  {
    GeschlechtCanonical(dto.antragsteller.geschlecht);
    ErwerbsstatusCanonical(dto.antragsteller.erwerbsstatus);
    WohnverhaeltnisCanonical(dto.wohnung.wohnverhaeltnis);
  }
}
