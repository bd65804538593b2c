/**
 * PdfFieldMapper: turns an application into an ordered map from AcroForm
 * field names of the "MZ 1.3" Wohngeld form to values (a Boolean for a
 * checkbox, a string for a text field, or null).
 *
 * Each section of the form is described by the list of `put` calls its
 * mapping method makes (`...Entries`), so the map after a section is
 * `InsertAll(before, entries)`. The properties the mapping promises are
 * proved about these lists and about the final map.
 */
module PdfFieldMapper {
  import opened Wrappers
  import opened Text
  import opened Domain
  import opened FieldTable

  /** A value put into the field map: a Java `Boolean`, a `String`, or `null`. */
  datatype Value = Flag(b: bool) | Str(s: string) | Null

  type Entry = (string, Value)

  function Min(a: int, b: int): int
  {
    if a <= b then a else b
  }

  /** A `String` getter's value as it is put: the string, or `null`. */
  function OptStr(o: Option<string>): Value
  {
    if o.Some? then Str(o.value) else Null
  }

  /** `Boolean.TRUE.equals(b)`: false for `null`. */
  predicate IsTrue(b: Option<bool>)
  {
    b == Some(true)
  }

  /** `formatCurrency` (and the identical `formatNumber`): "%.2f" with a
      decimal comma, `null` for `null`. */
  function FormatCurrency(x: Option<real>): (r: Value)
    ensures x.None? <==> r == Null
    ensures x.Some? ==> r == Str(FormatFixed2(x.value))
  {
    if x.Some? then Str(FormatFixed2(x.value)) else Null
  }

  // ---------------------------------------------------------------------------
  // normalizeValue and normalizeTurnus
  // ---------------------------------------------------------------------------

  /** Characters that `normalizeValue` rewrites or removes. */
  predicate IsRewritten(c: char)
  {
    c == 'ä' || c == 'ö' || c == 'ü' || c == 'ß' || c == ' ' || c == '-' || c == '_'
  }

  /** A string that `normalizeValue` leaves as it is. */
  predicate IsNormalValue(s: string)
  {
    forall i :: 0 <= i < |s| ==> !IsUpperLetter(s[i]) && !IsRewritten(s[i])
  }

  function NormalizeLowered(t: string): string
  {
    var t1 := ReplaceAll(t, "ä", "ae");
    var t2 := ReplaceAll(t1, "ö", "oe");
    var t3 := ReplaceAll(t2, "ü", "ue");
    var t4 := ReplaceAll(t3, "ß", "ss");
    var t5 := ReplaceAll(t4, " ", "");
    var t6 := ReplaceAll(t5, "-", "");
    ReplaceAll(t6, "_", "")
  }

  /** `normalizeValue`: lower case, umlauts and 'ß' spelled out, spaces,
      hyphens and underscores removed; `null` stays `null`. */
  function NormalizeValue(value: Option<string>): (r: Option<string>)
    ensures value.None? <==> r.None?
  {
    if value.None? then None else Some(NormalizeLowered(Lower(value.value)))
  }

  /** `s` holds no upper-case letter and none of the characters `gone`. */
  predicate Clean(s: string, gone: set<char>)
  {
    forall c :: c in s ==> !IsUpperLetter(c) && c !in gone
  }

  /** One replacement step of `normalizeValue` keeps upper-case letters and
      the characters already removed out, and removes its own pattern. */
  lemma ReplaceStep(s: string, pat: string, rep: string, gone: set<char>)
    requires |pat| == 1 && pat[0] !in gone
    requires Clean(s, gone)
    requires forall c :: c in rep ==> !IsUpperLetter(c) && c !in gone && c != pat[0]
    ensures Clean(ReplaceAll(s, pat, rep), gone + {pat[0]})
  {
    ReplaceAllRemoves(s, pat, rep);
    forall c | c in ReplaceAll(s, pat, rep) ensures !IsUpperLetter(c) && c !in gone + {pat[0]} {
      ReplaceAllChars(s, pat, rep, c);
    }
  }

  /** Whatever `normalizeValue` returns is a string it leaves unchanged. */
  lemma NormalizeValueIsNormal(s: string)
    ensures IsNormalValue(NormalizeLowered(Lower(s)))
  {
    var t := Lower(s);
    assert Clean(t, {}) by {
      forall c | c in t ensures !IsUpperLetter(c) {
        var i :| 0 <= i < |t| && t[i] == c;
      }
    }
    var t4 := ReplaceAll(ReplaceAll(ReplaceAll(ReplaceAll(t, "ä", "ae"), "ö", "oe"), "ü", "ue"), "ß", "ss");
    UmlautStepsClean(t);
    SeparatorStepsClean(t4);
    var t7 := ReplaceAll(ReplaceAll(ReplaceAll(t4, " ", ""), "-", ""), "_", "");
    forall i | 0 <= i < |t7| ensures !IsUpperLetter(t7[i]) && !IsRewritten(t7[i]) {
      assert t7[i] in t7;
    }
  }

  /** The first four steps spell out the umlauts and 'ß'. */
  lemma UmlautStepsClean(t: string)
    requires Clean(t, {})
    ensures Clean(ReplaceAll(ReplaceAll(ReplaceAll(ReplaceAll(t, "ä", "ae"), "ö", "oe"), "ü", "ue"), "ß", "ss"),
                  {'ä', 'ö', 'ü', 'ß'})
  {
    var t1 := ReplaceAll(t, "ä", "ae");
    assert Clean(t1, {'ä'}) by { ReplaceStep(t, "ä", "ae", {}); }
    var t2 := ReplaceAll(t1, "ö", "oe");
    assert Clean(t2, {'ä', 'ö'}) by { ReplaceStep(t1, "ö", "oe", {'ä'}); }
    var t3 := ReplaceAll(t2, "ü", "ue");
    assert Clean(t3, {'ä', 'ö', 'ü'}) by { ReplaceStep(t2, "ü", "ue", {'ä', 'ö'}); }
    ReplaceStep(t3, "ß", "ss", {'ä', 'ö', 'ü'});
  }

  /** The last three steps drop spaces, hyphens and underscores. */
  lemma SeparatorStepsClean(t4: string)
    requires Clean(t4, {'ä', 'ö', 'ü', 'ß'})
    ensures Clean(ReplaceAll(ReplaceAll(ReplaceAll(t4, " ", ""), "-", ""), "_", ""),
                  {'ä', 'ö', 'ü', 'ß', ' ', '-', '_'})
  {
    var t5 := ReplaceAll(t4, " ", "");
    assert Clean(t5, {'ä', 'ö', 'ü', 'ß', ' '}) by { ReplaceStep(t4, " ", "", {'ä', 'ö', 'ü', 'ß'}); }
    var t6 := ReplaceAll(t5, "-", "");
    assert Clean(t6, {'ä', 'ö', 'ü', 'ß', ' ', '-'}) by { ReplaceStep(t5, "-", "", {'ä', 'ö', 'ü', 'ß', ' '}); }
    ReplaceStep(t6, "_", "", {'ä', 'ö', 'ü', 'ß', ' ', '-'});
  }

  /** A string already in normal form is its own normalization. */
  lemma NormalizeValueFixpoint(s: string)
    requires IsNormalValue(s)
    ensures NormalizeValue(Some(s)) == Some(s)
  {
    LowerOfLowerCase(s);
    ReplaceAllAbsent(s, "ä", "ae");
    ReplaceAllAbsent(s, "ö", "oe");
    ReplaceAllAbsent(s, "ü", "ue");
    ReplaceAllAbsent(s, "ß", "ss");
    ReplaceAllAbsent(s, " ", "");
    ReplaceAllAbsent(s, "-", "");
    ReplaceAllAbsent(s, "_", "");
  }

  /** Normalizing twice is normalizing once. */
  lemma NormalizeValueIdempotent(value: Option<string>)
    ensures NormalizeValue(NormalizeValue(value)) == NormalizeValue(value)
  {
    if value.Some? {
      NormalizeValueIsNormal(value.value);
      NormalizeValueFixpoint(NormalizeValue(value).value);
    }
  }

  /** The stems `normalizeTurnus` tests for, in the order it tests them. */
  predicate MonthlyStem(t: string)
  {
    Contains(t, "monat")
  }

  predicate YearlyStem(t: string)
  {
    Contains(t, "jahr") || Contains(t, "annual")
  }

  predicate DailyStem(t: string)
  {
    Contains(t, "tag") || Contains(t, "daily")
  }

  /** `normalizeTurnus`: the payment interval as the form spells it. "monat"
      is tested first, then the yearly stems, then the daily ones; anything
      else, and `null`, counts as monthly. */
  function NormalizeTurnus(turnus: Option<string>): (r: string)
    ensures r == "monatlich" || r == "jährlich" || r == "täglich"
    ensures turnus.None? ==> r == "monatlich"
    ensures turnus.Some? && MonthlyStem(Lower(turnus.value)) ==> r == "monatlich"
    ensures r == "jährlich" <==>
      turnus.Some? && !MonthlyStem(Lower(turnus.value)) && YearlyStem(Lower(turnus.value))
    ensures r == "täglich" <==>
      turnus.Some? && !MonthlyStem(Lower(turnus.value)) && !YearlyStem(Lower(turnus.value)) &&
      DailyStem(Lower(turnus.value))
  {
    if turnus.None? then "monatlich"
    else
      var t := Lower(turnus.value);
      if Contains(t, "monat") then "monatlich"
      else if Contains(t, "jahr") || Contains(t, "annual") then "jährlich"
      else if Contains(t, "tag") || Contains(t, "daily") then "täglich"
      else "monatlich"
  }

  lemma NormalizeTurnusMonthly()
    ensures NormalizeTurnus(Some("monatlich")) == "monatlich"
  {
    assert Lower("monatlich") == "monatlich";
    assert StartsAt("monatlich", "monat", 0);
  }

  /** "jahr" does not occur in "jaehrlich". */
  lemma NoJahrInJaehrlich()
    ensures !Contains("jaehrlich", "jahr")
  {
    forall i | 0 <= i <= |"jaehrlich"| ensures !StartsAt("jaehrlich", "jahr", i) {
      if i + 4 <= 9 {
        var w := "jaehrlich"[i..i + 4];
        assert w[0] == "jaehrlich"[i] && w[2] == "jaehrlich"[i + 2];
      }
    }
  }

  /** "tag" does not occur in "taeglich". */
  lemma NoTagInTaeglich()
    ensures !Contains("taeglich", "tag")
  {
    forall i | 0 <= i <= |"taeglich"| ensures !StartsAt("taeglich", "tag", i) {
      if i + 3 <= 8 {
        var w := "taeglich"[i..i + 3];
        assert w[0] == "taeglich"[i] && w[2] == "taeglich"[i + 2];
      }
    }
  }

  /** As written, a yearly interval is written as "monatlich": neither the
      internal spelling "jährlich" nor the API's "JAEHRLICH" contains "jahr". */
  lemma NormalizeTurnusMissesYearly()
    ensures NormalizeTurnus(Some("jährlich")) == "monatlich"
    ensures NormalizeTurnus(Some("JAEHRLICH")) == "monatlich"
  {
    YearlyUmlautMissed();
    YearlyTransliterationMissed();
  }

  lemma YearlyUmlautMissed()
    ensures NormalizeTurnus(Some("jährlich")) == "monatlich"
  {
    assert Lower("jährlich") == "jährlich";
    MissingCharNotContained("jährlich", "monat", 'm');
    MissingCharNotContained("jährlich", "jahr", 'a');
    MissingCharNotContained("jährlich", "annual", 'a');
    MissingCharNotContained("jährlich", "tag", 't');
    MissingCharNotContained("jährlich", "daily", 'd');
  }

  lemma YearlyTransliterationMissed()
    ensures NormalizeTurnus(Some("JAEHRLICH")) == "monatlich"
  {
    assert Lower("JAEHRLICH") == "jaehrlich";
    MissingCharNotContained("jaehrlich", "monat", 'm');
    NoJahrInJaehrlich();
    MissingCharNotContained("jaehrlich", "annual", 'n');
    MissingCharNotContained("jaehrlich", "tag", 't');
    MissingCharNotContained("jaehrlich", "daily", 'd');
  }

  /** As written, a daily interval is written as "monatlich" too. */
  lemma NormalizeTurnusMissesDaily()
    ensures NormalizeTurnus(Some("täglich")) == "monatlich"
    ensures NormalizeTurnus(Some("TAEGLICH")) == "monatlich"
  {
    DailyUmlautMissed();
    DailyTransliterationMissed();
  }

  lemma DailyUmlautMissed()
    ensures NormalizeTurnus(Some("täglich")) == "monatlich"
  {
    assert Lower("täglich") == "täglich";
    MissingCharNotContained("täglich", "monat", 'm');
    MissingCharNotContained("täglich", "jahr", 'j');
    MissingCharNotContained("täglich", "annual", 'a');
    MissingCharNotContained("täglich", "tag", 'a');
    MissingCharNotContained("täglich", "daily", 'a');
  }

  lemma DailyTransliterationMissed()
    ensures NormalizeTurnus(Some("TAEGLICH")) == "monatlich"
  {
    assert Lower("TAEGLICH") == "taeglich";
    MissingCharNotContained("taeglich", "monat", 'm');
    MissingCharNotContained("taeglich", "jahr", 'j');
    MissingCharNotContained("taeglich", "annual", 'n');
    NoTagInTaeglich();
    MissingCharNotContained("taeglich", "daily", 'd');
  }

  /** The stems of the corrected function: the umlaut and its "ae"
      transliteration as well. */
  predicate CorrectedYearlyStem(t: string)
  {
    Contains(t, "jahr") || Contains(t, "jähr") || Contains(t, "jaehr") || Contains(t, "annual")
  }

  predicate CorrectedDailyStem(t: string)
  {
    Contains(t, "tag") || Contains(t, "täg") || Contains(t, "taeg") || Contains(t, "daily")
  }

  /** `normalizeTurnus` as evidently intended: the umlaut and its "ae"
      transliteration are recognised as well. The field table keeps the
      function as written; this one states the intended behaviour. */
  function CorrectedNormalizeTurnus(turnus: Option<string>): (r: string)
    ensures r == "monatlich" || r == "jährlich" || r == "täglich"
    ensures NormalizeTurnus(turnus) == "jährlich" ==> r == "jährlich"
    ensures NormalizeTurnus(turnus) == "täglich" ==> r != "monatlich"
    ensures turnus.Some? && MonthlyStem(Lower(turnus.value)) ==> r == "monatlich"
    ensures r == "jährlich" <==>
      turnus.Some? && !MonthlyStem(Lower(turnus.value)) && CorrectedYearlyStem(Lower(turnus.value))
    ensures r == "täglich" <==>
      turnus.Some? && !MonthlyStem(Lower(turnus.value)) && !CorrectedYearlyStem(Lower(turnus.value)) &&
      CorrectedDailyStem(Lower(turnus.value))
  {
    if turnus.None? then "monatlich"
    else
      var t := Lower(turnus.value);
      if Contains(t, "monat") then "monatlich"
      else if Contains(t, "jahr") || Contains(t, "jähr") || Contains(t, "jaehr") || Contains(t, "annual") then "jährlich"
      else if Contains(t, "tag") || Contains(t, "täg") || Contains(t, "taeg") || Contains(t, "daily") then "täglich"
      else "monatlich"
  }

  /** Each interval the corrected function writes is read back as itself. */
  lemma CorrectedNormalizeTurnusFixpoint(r: string)
    requires r == "monatlich" || r == "jährlich" || r == "täglich"
    ensures CorrectedNormalizeTurnus(Some(r)) == r
  {
    if r == "monatlich" {
      assert Lower(r) == r;
      assert StartsAt(r, "monat", 0);
    } else if r == "jährlich" {
      assert Lower(r) == r;
      MissingCharNotContained(r, "monat", 'm');
      assert StartsAt(r, "jähr", 0);
    } else {
      CorrectedDailyFixpoint(r);
    }
  }

  lemma CorrectedDailyFixpoint(r: string)
    requires r == "täglich"
    ensures CorrectedNormalizeTurnus(Some(r)) == r
  {
    assert Lower(r) == r;
    MissingCharNotContained(r, "monat", 'm');
    MissingCharNotContained(r, "jahr", 'j');
    MissingCharNotContained(r, "jähr", 'j');
    MissingCharNotContained(r, "jaehr", 'j');
    MissingCharNotContained(r, "annual", 'n');
    assert StartsAt(r, "täg", 0);
  }

  /** The corrected function recognises the three interval names of the API. */
  lemma CorrectedNormalizeTurnusApiNames()
    ensures CorrectedNormalizeTurnus(Some("MONATLICH")) == "monatlich"
    ensures CorrectedNormalizeTurnus(Some("JAEHRLICH")) == "jährlich"
    ensures CorrectedNormalizeTurnus(Some("TAEGLICH")) == "täglich"
  {
    assert Lower("MONATLICH") == "monatlich";
    assert StartsAt("monatlich", "monat", 0);
    CorrectedYearly();
    CorrectedDaily();
  }

  lemma CorrectedYearly()
    ensures CorrectedNormalizeTurnus(Some("JAEHRLICH")) == "jährlich"
  {
    assert Lower("JAEHRLICH") == "jaehrlich";
    MissingCharNotContained("jaehrlich", "monat", 'm');
    assert StartsAt("jaehrlich", "jaehr", 0);
  }

  lemma CorrectedDaily()
    ensures CorrectedNormalizeTurnus(Some("TAEGLICH")) == "täglich"
  {
    assert Lower("TAEGLICH") == "taeglich";
    TaeglichNotMonthlyOrYearly();
    assert StartsAt("taeglich", "taeg", 0);
  }

  lemma TaeglichNotMonthlyOrYearly()
    ensures !Contains("taeglich", "monat") && !Contains("taeglich", "jahr") && !Contains("taeglich", "jähr")
    ensures !Contains("taeglich", "jaehr") && !Contains("taeglich", "annual")
  {
    MissingCharNotContained("taeglich", "monat", 'm');
    MissingCharNotContained("taeglich", "jahr", 'j');
    MissingCharNotContained("taeglich", "jähr", 'j');
    MissingCharNotContained("taeglich", "jaehr", 'j');
    MissingCharNotContained("taeglich", "annual", 'n');
  }

  /** The corrected function differs from the one as written only on
      intervals spelled with "jähr", "jaehr", "täg" or "taeg". */
  lemma CorrectedAgreesWithoutUmlautStems(turnus: Option<string>)
    requires turnus.Some? ==>
      var t := Lower(turnus.value);
      !Contains(t, "jähr") && !Contains(t, "jaehr") && !Contains(t, "täg") && !Contains(t, "taeg")
    ensures CorrectedNormalizeTurnus(turnus) == NormalizeTurnus(turnus)
  {
  }

  // ---------------------------------------------------------------------------
  // Sections of the form, as the `put` calls each mapping method makes
  // ---------------------------------------------------------------------------

  const ErstantragKey := "MZ1.3-CB_AllgAntragstyp_Erstantrag"
  const WeiterleistungKey := "MZ1.3-CB_AllgAntragstyp_Weiterleistungsantrag"
  const WohngeldnummerKey := "MZ1.3-MTF_AllgWoGNR_AKZ"

  /** `mapAntragsdaten`. */
  function AntragsdatenEntries(antrag: Option<AntragDaten>): seq<Entry>
  {
    if antrag.None? then []
    else
      var erst := IsTrue(antrag.value.erstantrag);
      [(ErstantragKey, Flag(erst)), (WeiterleistungKey, Flag(!erst))] +
      (if !erst && antrag.value.wohngeldnummer.Some?
       then [(WohngeldnummerKey, Str(antrag.value.wohngeldnummer.value))]
       else [])
  }

  /** The two application types are complements, and the Wohngeld number is
      written exactly for a continuation application that has one. */
  lemma AntragstypComplement(antrag: AntragDaten)
    ensures var m := FromEntries(AntragsdatenEntries(Some(antrag)));
      var erst := antrag.erstantrag == Some(true);
      Get(m, ErstantragKey) == Some(Flag(erst)) &&
      Get(m, WeiterleistungKey) == Some(Flag(!erst)) &&
      (Get(m, WohngeldnummerKey).Some? <==> !erst && antrag.wohngeldnummer.Some?) &&
      (Get(m, WohngeldnummerKey).Some? ==> Get(m, WohngeldnummerKey) == Some(Str(antrag.wohngeldnummer.value)))
  {
    var es := AntragsdatenEntries(Some(antrag));
    GetFromEntries(es, 0);
    GetFromEntries(es, 1);
    if |es| == 3 {
      GetFromEntries(es, 2);
    } else {
      GetFromEntriesAbsent(es, WohngeldnummerKey);
    }
  }

  /** The gender checkboxes of `mapAntragsteller`, given the normalized gender. */
  function GenderBoxes(g: Option<string>): seq<Entry>
  {
    [("MZ1.3-CB_PersAngGeschlechtMännlich", Flag(g == Some("maennlich") || g == Some("männlich"))),
     ("MZ1.3-CB_PersAngGeschlechtWeiblich", Flag(g == Some("weiblich"))),
     ("MZ1.3-CB_PersAngGeschlechtDivers", Flag(g == Some("divers"))),
     ("MZ1.3-CB_PersAngGeschlechtKeineAngabe", Flag(g == Some("keineangabe")))]
  }

  /** The normalized value `f` is present and contains `word`. */
  predicate HasWord(f: Option<string>, word: string)
  {
    f.Some? && Contains(f.value, word)
  }

  /** The marital-status checkboxes of `mapAntragsteller`, given the normalized status. */
  function MaritalBoxes(f: Option<string>): seq<Entry>
  {
    [("MZ1.3-CB_PersAngFamStandledig", Flag(f == Some("ledig"))),
     ("MZ1.3-CB_PersAngFamStandverheiratet", Flag(f == Some("verheiratet"))),
     ("MZ1.3-CB_PersAngFamStandgetrenntlebend", Flag(HasWord(f, "getrennt"))),
     ("MZ1.3-CB_PersAngFamStandeingLebenspartner", Flag(HasWord(f, "lebenspartner"))),
     ("MZ1.3-CB_PersAngFamStandgeschieden", Flag(f == Some("geschieden"))),
     ("MZ1.3-CB_PersAngFamStandverwitwet", Flag(f == Some("verwitwet"))),
     ("MZ1.3-CB_PersAngFamStandnichtehelicheLebenspartner", Flag(HasWord(f, "nichtehelich")))]
  }

  /** The employment checkboxes of `mapAntragsteller`, given the normalized status. */
  function EmploymentBoxes(e: Option<string>): seq<Entry>
  {
    [("MZ1.3-CB_PersAngErwerbArbeitnehmer", Flag(e == Some("erwerbstaetig") || e == Some("arbeitnehmer"))),
     ("MZ1.3-CB_PersAngErwerbSelbständiger", Flag(HasWord(e, "selbst"))),
     ("MZ1.3-CB_PersAngErwerbAzubi", Flag(e == Some("azubi") || e == Some("schueler") || e == Some("student"))),
     ("MZ1.3-CB_PersAngErwerbRentner", Flag(e == Some("rentner") || e == Some("rentnerin"))),
     ("MZ1.3-CB_PersAngErwerbArbeitslos", Flag(e == Some("arbeitslos"))),
     ("MZ1.3-CB_PersAngErwerbNichterwerbsperson", Flag(e == Some("nichterwerbsperson")))]
  }

  /** The personal text fields of `mapAntragsteller`. */
  function PersonalFields(p: Antragsteller): seq<Entry>
  {
    [("MZ1.3-ET_PersAngFamilienname", OptStr(p.nachname)),
     ("MZ1.3-ET_PersAngVornamen", OptStr(p.vorname)),
     ("MZ1.3-DA_PersAngGeburtsdatum", OptStr(p.geburtsdatum)),
     ("MZ1.3-ET_PersAngGeburtsort", OptStr(p.geburtsort)),
     ("MZ1.3-ET_PersAngGeburtsname", OptStr(p.geburtsname)),
     ("MZ1.3-ET_PersAngStaatsangehörigkeit", OptStr(p.staatsangehoerigkeit)),
     ("MZ1.3-ET_PersAngTelefonnummer", OptStr(p.telefon)),
     ("MZ1.3-ET_PersAngE-Mail", OptStr(p.email))]
  }

  /** `mapAntragsteller`. */
  function AntragstellerEntries(a: Option<Antragsteller>): seq<Entry>
  {
    if a.None? then []
    else
      var p := a.value;
      PersonalFields(p) +
      GenderBoxes(NormalizeValue(p.geschlecht)) +
      MaritalBoxes(NormalizeValue(p.familienstand)) +
      EmploymentBoxes(NormalizeValue(p.erwerbsstatus))
  }

  /** Checkbox entries of which at most one is ticked. */
  predicate AtMostOneTicked(es: seq<Entry>)
  {
    forall i, j :: 0 <= i < j < |es| ==> !(es[i].1 == Flag(true) && es[j].1 == Flag(true))
  }

  /** Checkbox entries of which none is ticked. */
  predicate NoneTicked(es: seq<Entry>)
  {
    forall i :: 0 <= i < |es| ==> es[i].1 == Flag(false)
  }

  /** The entries whose box is ticked are exactly those with key `k`. */
  predicate OnlyTicked(es: seq<Entry>, k: string)
  {
    forall i :: 0 <= i < |es| ==> (es[i].1 == Flag(true) <==> es[i].0 == k)
  }

  /** At most one gender box is ticked, and none without a gender. */
  lemma GenderExclusive(geschlecht: Option<string>)
    ensures AtMostOneTicked(GenderBoxes(NormalizeValue(geschlecht)))
    ensures geschlecht.None? ==> NoneTicked(GenderBoxes(NormalizeValue(geschlecht)))
  {
  }

  /** The marital boxes decided by equality are mutually exclusive; without a status none is ticked. */
  lemma MaritalEqualityBoxesExclusive(familienstand: Option<string>)
    ensures var es := MaritalBoxes(NormalizeValue(familienstand));
      AtMostOneTicked([es[0], es[1], es[4], es[5]])
    ensures familienstand.None? ==> NoneTicked(MaritalBoxes(NormalizeValue(familienstand)))
  {
  }

  /** A value whose lower case is already in normal form normalizes to that lower case. */
  lemma NormalizeViaLower(s: string, t: string)
    requires Lower(s) == t && IsNormalValue(t)
    ensures NormalizeValue(Some(s)) == Some(t)
  {
    NormalizeValueFixpoint(t);
    LowerOfLowerCase(t);
  }

  /** The box each canonical marital status of the application mapper ticks. */
  const MaritalBoxFor: map<string, string> :=
    map["ledig" := "MZ1.3-CB_PersAngFamStandledig",
        "verheiratet" := "MZ1.3-CB_PersAngFamStandverheiratet",
        "geschieden" := "MZ1.3-CB_PersAngFamStandgeschieden",
        "verwitwet" := "MZ1.3-CB_PersAngFamStandverwitwet",
        "getrennt lebend" := "MZ1.3-CB_PersAngFamStandgetrenntlebend",
        "eingetragene Lebenspartnerschaft" := "MZ1.3-CB_PersAngFamStandeingLebenspartner"]

  /** Each canonical marital status ticks its own box and no other. */
  lemma MaritalCanonicalTicksOne(s: string)
    requires s in MaritalBoxFor
    ensures OnlyTicked(MaritalBoxes(NormalizeValue(Some(s))), MaritalBoxFor[s])
  {
    if s == "getrennt lebend" {
      MaritalSeparatedTicked(s);
    } else if s == "eingetragene Lebenspartnerschaft" {
      MaritalPartnershipTicked(s);
    } else {
      MaritalOneWordTicked(s);
    }
  }

  /** The one-word statuses are in normal form and tick their own box. */
  lemma MaritalOneWordTicked(s: string)
    requires s == "ledig" || s == "verheiratet" || s == "geschieden" || s == "verwitwet"
    ensures OnlyTicked(MaritalBoxes(NormalizeValue(Some(s))), MaritalBoxFor[s])
  {
    if s == "ledig" {
      MaritalSingle();
    } else if s == "verheiratet" {
      MaritalMarried();
    } else if s == "geschieden" {
      MaritalDivorced();
    } else {
      MaritalWidowed();
    }
    MaritalBoxesOfNormal(s, MaritalBoxFor[s]);
  }

  /** A status already in normal form reaches the boxes as it is. */
  lemma MaritalBoxesOfNormal(s: string, k: string)
    requires IsNormalValue(s) && OnlyTicked(MaritalBoxes(Some(s)), k)
    ensures OnlyTicked(MaritalBoxes(NormalizeValue(Some(s))), k)
  {
    NormalizeValueFixpoint(s);
  }

  /** Two words joined by one space reach the boxes run together in lower case. */
  lemma MaritalBoxesOfTwoWords(s: string, k: nat, a: string, b: string, joined: string, box: string)
    requires k < |s|
    requires s[k] == ' '
    requires Lower(s[..k]) == a
    requires Lower(s[k + 1..]) == b
    requires IsNormalValue(a)
    requires IsNormalValue(b)
    requires joined == a + b
    requires OnlyTicked(MaritalBoxes(Some(joined)), box)
    ensures OnlyTicked(MaritalBoxes(NormalizeValue(Some(s))), box)
  {
    NormalizeTwoWords(s, k, a, b);
  }

  lemma MaritalSeparatedTicked(s: string)
    requires s == "getrennt lebend"
    ensures OnlyTicked(MaritalBoxes(NormalizeValue(Some(s))), "MZ1.3-CB_PersAngFamStandgetrenntlebend")
  {
    LowerOfLowerCase("getrennt");
    LowerOfLowerCase("lebend");
    SeparatedWordsNormal();
    MaritalSeparated();
    MaritalBoxesOfTwoWords(s, 8, "getrennt", "lebend", "getrenntlebend", "MZ1.3-CB_PersAngFamStandgetrenntlebend");
  }

  lemma MaritalPartnershipTicked(s: string)
    requires s == "eingetragene Lebenspartnerschaft"
    ensures OnlyTicked(MaritalBoxes(NormalizeValue(Some(s))), "MZ1.3-CB_PersAngFamStandeingLebenspartner")
  {
    LowerOfLowerCase("eingetragene");
    PartnershipWordLowered();
    RegisteredWordNormal();
    PartnershipWordNormal();
    PartnershipWordsJoined();
    MaritalRegisteredPartnership();
    MaritalBoxesOfTwoWords(s, 12, "eingetragene", "lebenspartnerschaft",
                           "eingetragenelebenspartnerschaft", "MZ1.3-CB_PersAngFamStandeingLebenspartner");
  }

  lemma SeparatedWordsNormal()
    ensures IsNormalValue("getrennt") && IsNormalValue("lebend")
    ensures "getrennt" + "lebend" == "getrenntlebend"
  {
  }

  lemma RegisteredWordNormal()
    ensures IsNormalValue("eingetragene")
  {
  }

  lemma PartnershipWordNormal()
    ensures IsNormalValue("lebenspartnerschaft")
  {
  }

  lemma PartnershipWordsJoined()
    ensures "eingetragene" + "lebenspartnerschaft" == "eingetragenelebenspartnerschaft"
  {
  }

  lemma MaritalSingle()
    ensures OnlyTicked(MaritalBoxes(Some("ledig")), "MZ1.3-CB_PersAngFamStandledig")
  {
    MissingCharNotContained("ledig", "getrennt", 't');
    MissingCharNotContained("ledig", "lebenspartner", 'b');
    MissingCharNotContained("ledig", "nichtehelich", 't');
  }

  lemma MaritalMarried()
    ensures OnlyTicked(MaritalBoxes(Some("verheiratet")), "MZ1.3-CB_PersAngFamStandverheiratet")
  {
    MissingCharNotContained("verheiratet", "getrennt", 'g');
    MissingCharNotContained("verheiratet", "lebenspartner", 'l');
    MissingCharNotContained("verheiratet", "nichtehelich", 'c');
  }

  /** A divorced applicant ticks the divorced box and nothing else. */
  lemma MaritalDivorced()
    ensures OnlyTicked(MaritalBoxes(Some("geschieden")), "MZ1.3-CB_PersAngFamStandgeschieden")
  {
    MissingCharNotContained("geschieden", "getrennt", 't');
    MissingCharNotContained("geschieden", "lebenspartner", 'l');
    MissingCharNotContained("geschieden", "nichtehelich", 't');
  }

  lemma MaritalWidowed()
    ensures OnlyTicked(MaritalBoxes(Some("verwitwet")), "MZ1.3-CB_PersAngFamStandverwitwet")
  {
    MissingCharNotContained("verwitwet", "getrennt", 'g');
    MissingCharNotContained("verwitwet", "lebenspartner", 'l');
    MissingCharNotContained("verwitwet", "nichtehelich", 'c');
  }

  lemma MaritalSeparated()
    ensures OnlyTicked(MaritalBoxes(Some("getrenntlebend")), "MZ1.3-CB_PersAngFamStandgetrenntlebend")
  {
    var f := "getrenntlebend";
    assert StartsAt(f, "getrennt", 0);
    MissingCharNotContained(f, "lebenspartner", 'p');
    MissingCharNotContained(f, "nichtehelich", 'c');
  }

  lemma MaritalRegisteredPartnership()
    ensures OnlyTicked(MaritalBoxes(Some("eingetragenelebenspartnerschaft")),
                       "MZ1.3-CB_PersAngFamStandeingLebenspartner")
  {
    var f := "eingetragenelebenspartnerschaft";
    assert StartsAt(f, "lebenspartner", 12);
    PartnershipLacksSeparated(f);
    PartnershipLacksUnmarried(f);
  }

  /** "getrennt" has 't' at 2 and 7, while the joined partnership status has
      't' only at 5, 21 and 30, no two of them five apart. */
  lemma PartnershipLacksSeparated(f: string)
    requires f == "eingetragenelebenspartnerschaft"
    ensures !Contains(f, "getrennt")
  {
    PartnershipLetterAt(f, 't', {5, 21, 30});
    LettersApartNotContained(f, "getrennt", 2, 7, {5, 21, 30});
  }

  /** "nichtehelich" has 'c' at 2 and 10, the joined partnership status a single 'c'. */
  lemma PartnershipLacksUnmarried(f: string)
    requires f == "eingetragenelebenspartnerschaft"
    ensures !Contains(f, "nichtehelich")
  {
    PartnershipLetterAt(f, 'c', {26});
    LettersApartNotContained(f, "nichtehelich", 2, 10, {26});
  }

  /** Where the letter `c` stands in the joined partnership status. */
  lemma PartnershipLetterAt(f: string, c: char, at: set<int>)
    requires f == "eingetragenelebenspartnerschaft"
    requires (c == 't' && at == {5, 21, 30}) || (c == 'c' && at == {26})
    ensures forall p | 0 <= p < |f| && f[p] == c :: p in at
  {
  }

  /** Two words joined by one space, at `k`, normalize to the lower case of
      both run together. */
  lemma NormalizeTwoWords(s: string, k: nat, a: string, b: string)
    requires k < |s| && s[k] == ' '
    requires Lower(s[..k]) == a && Lower(s[k + 1..]) == b && IsNormalValue(a) && IsNormalValue(b)
    ensures NormalizeValue(Some(s)) == Some(a + b)
  {
    LowerAroundSpace(s, k);
    var t := a + " " + b;
    UmlautStepsKeep(t);
    SpaceStepJoins(a, b);
    NormalJoined(a, b);
    ReplaceAllAbsent(a + b, "-", "");
    ReplaceAllAbsent(a + b, "_", "");
  }

  /** Lower case leaves a space where it is. */
  lemma LowerAroundSpace(s: string, k: nat)
    requires k < |s| && s[k] == ' '
    ensures Lower(s) == Lower(s[..k]) + " " + Lower(s[k + 1..])
  {
    assert s == s[..k] + " " + s[k + 1..];
  }

  /** Two strings in normal form run together are in normal form. */
  lemma NormalJoined(a: string, b: string)
    requires IsNormalValue(a) && IsNormalValue(b)
    ensures IsNormalValue(a + b)
  {
    forall i | 0 <= i < |a + b| ensures !IsUpperLetter((a + b)[i]) && !IsRewritten((a + b)[i]) {
      if i >= |a| {
        assert (a + b)[i] == b[i - |a|];
      }
    }
  }

  /** A string without umlauts or 'ß' passes the first four steps unchanged. */
  lemma UmlautStepsKeep(t: string)
    requires 'ä' !in t && 'ö' !in t && 'ü' !in t && 'ß' !in t
    ensures ReplaceAll(ReplaceAll(ReplaceAll(ReplaceAll(t, "ä", "ae"), "ö", "oe"), "ü", "ue"), "ß", "ss") == t
  {
    ReplaceAllAbsent(t, "ä", "ae");
    ReplaceAllAbsent(t, "ö", "oe");
    ReplaceAllAbsent(t, "ü", "ue");
    ReplaceAllAbsent(t, "ß", "ss");
  }

  /** Removing spaces runs two space-free words together. */
  lemma SpaceStepJoins(a: string, b: string)
    requires ' ' !in a && ' ' !in b
    ensures ReplaceAll(a + " " + b, " ", "") == a + b
  {
    assert ReplaceAll(a + " ", " ", "") == a by {
      ReplaceAllOneCharAppend(a, " ", " ", "");
      ReplaceAllAbsent(a, " ", "");
      assert ReplaceAll(" ", " ", "") == "";
    }
    ReplaceAllOneCharAppend(a + " ", b, " ", "");
    ReplaceAllAbsent(b, " ", "");
  }


  /** The upper-case initial of "Lebenspartnerschaft" is the only letter to lower. */
  lemma PartnershipWordLowered()
    ensures Lower("Lebenspartnerschaft") == "lebenspartnerschaft"
  {
    var x, y := "Lebenspartnerschaft", "lebenspartnerschaft";
    assert LowerChar(x[0]) == y[0];
    forall i | 1 <= i < |x| ensures Lower(x)[i] == y[i] {
      assert x[i] == y[i] && !IsUpperLetter(x[i]);
    }
  }

  /** The box tests overlap: an unmarried partnership ("nichteheliche
      Lebenspartnerschaft") ticks the registered-partnership box as well. */
  lemma MaritalPartnershipOverlap()
    ensures var es := MaritalBoxes(Some("nichtehelichelebenspartnerschaft"));
      es[3].1 == Flag(true) && es[6].1 == Flag(true)
  {
    var s := "nichtehelichelebenspartnerschaft";
    assert StartsAt(s, "lebenspartner", 13);
    assert StartsAt(s, "nichtehelich", 0);
  }

  /** At most one employment box is ticked, and none without a status. */
  lemma EmploymentExclusive(erwerbsstatus: Option<string>)
    ensures AtMostOneTicked(EmploymentBoxes(NormalizeValue(erwerbsstatus)))
    ensures erwerbsstatus.None? ==> NoneTicked(EmploymentBoxes(NormalizeValue(erwerbsstatus)))
  {
    EmploymentBoxesExclusive(NormalizeValue(erwerbsstatus));
  }

  lemma EmploymentBoxesExclusive(e: Option<string>)
    ensures AtMostOneTicked(EmploymentBoxes(e))
    ensures e.None? ==> NoneTicked(EmploymentBoxes(e))
  {
    if HasWord(e, "selbst") {
      SelbstNotListed(e.value);
    }
  }

  /** A status containing "selbst" is none of the values the other boxes test for. */
  lemma SelbstNotListed(v: string)
    requires Contains(v, "selbst")
    ensures v != "erwerbstaetig" && v != "arbeitnehmer" && v != "azubi" && v != "schueler" && v != "student"
    ensures v != "rentner" && v != "rentnerin" && v != "arbeitslos" && v != "nichterwerbsperson"
  {
    if v == "arbeitslos" {
      NoSelbstInArbeitslos();
    }
    MissingCharNotContained("erwerbstaetig", "selbst", 'l');
    MissingCharNotContained("arbeitnehmer", "selbst", 's');
    MissingCharNotContained("azubi", "selbst", 'l');
    MissingCharNotContained("schueler", "selbst", 'b');
    MissingCharNotContained("student", "selbst", 'l');
    MissingCharNotContained("rentner", "selbst", 'l');
    MissingCharNotContained("rentnerin", "selbst", 'l');
    MissingCharNotContained("nichterwerbsperson", "selbst", 'l');
  }

  lemma NoSelbstInArbeitslos()
    ensures !Contains("arbeitslos", "selbst")
  {
    forall i | 0 <= i <= |"arbeitslos"| ensures !StartsAt("arbeitslos", "selbst", i) {
      if i + 6 <= 10 {
        var w := "arbeitslos"[i..i + 6];
        assert w[0] == "arbeitslos"[i] && w[1] == "arbeitslos"[i + 1];
      }
    }
  }

  /** `mapAdresse`. */
  function AdresseEntries(adr: Option<Adresse>): seq<Entry>
  {
    if adr.None? then []
    else
      [("MZ1.3-ET_WohnungAnschriftStraße", OptStr(adr.value.strasse)),
       ("MZ1.3-ET_WohnungAnschriftHausnummer", OptStr(adr.value.hausnummer)),
       ("MZ1.3-ET_WohnungAnschriftPostleitzahl", OptStr(adr.value.plz)),
       ("MZ1.3-ET_WohnungAnschriftWohnort", OptStr(adr.value.ort))]
  }

  /** The housing-type checkboxes of `mapWohnung`, given the normalized relation. */
  function HousingBoxes(v: Option<string>): seq<Entry>
  {
    [("MZ1.3-CB_IchBinHauptmieter", Flag(v == Some("hauptmieter"))),
     ("MZ1.3-CB_IchBinUntermieter", Flag(v == Some("untermieter"))),
     ("MZ1.3-CB_IchBinHeimbewohner", Flag(v == Some("heimbewohner"))),
     ("MZ1.3-CB_IchBinBewohnerMehr", Flag(v == Some("eigentum") || v == Some("eigentuemer")))]
  }

  /** At most one housing-type box is ticked, and none without a relation. */
  lemma HousingExclusive(v: Option<string>)
    ensures AtMostOneTicked(HousingBoxes(v))
    ensures v.None? ==> NoneTicked(HousingBoxes(v))
  {
  }

  const VerwandtNeinKey := "MZ1.3-CB_IchBinVerwandtVerNein"
  const VerwandtJaKey := "MZ1.3-CB_IIchBinVerwandtVerJa"
  const GefoerdertNeinKey := "MZ1.3-CB_WohnungGefördertNein"
  const GefoerdertJaKey := "MZ1.3-CB_WohnungGefördertJa"

  /** `mapWohnung` (the area goes through `formatNumber`, which is "%.2f"). */
  function WohnungEntries(w: Option<Wohnung>): seq<Entry>
  {
    if w.None? then []
    else
      var x := w.value;
      var verwandt := IsTrue(x.verwandtschaftMitVermieter);
      var gefoerdert := IsTrue(x.mietpreisbindung);
      (if x.wohnflaecheQm.Some? then [("MZ1.3-ET_MieteGrößeWohnung", Str(FormatFixed2(x.wohnflaecheQm.value)))] else []) +
      (if x.einzugsdatum.Some? then [("MZ1.3-DA_WohnungZKAnschriftEinzugsdatum", Str(x.einzugsdatum.value))] else []) +
      HousingBoxes(NormalizeValue(x.wohnverhaeltnis)) +
      [(VerwandtNeinKey, Flag(!verwandt)),
       (VerwandtJaKey, Flag(verwandt)),
       (GefoerdertNeinKey, Flag(!gefoerdert)),
       (GefoerdertJaKey, Flag(gefoerdert))]
  }

  /** The landlord-relation and subsidy questions are answered by
      complementary Nein/Ja boxes; a missing answer counts as Nein. */
  lemma WohnungYesNoComplement(w: Wohnung)
    ensures var m := FromEntries(WohnungEntries(Some(w)));
      var verwandt := w.verwandtschaftMitVermieter == Some(true);
      var gefoerdert := w.mietpreisbindung == Some(true);
      Get(m, VerwandtNeinKey) == Some(Flag(!verwandt)) && Get(m, VerwandtJaKey) == Some(Flag(verwandt)) &&
      Get(m, GefoerdertNeinKey) == Some(Flag(!gefoerdert)) && Get(m, GefoerdertJaKey) == Some(Flag(gefoerdert))
  {
    var es := WohnungEntries(Some(w));
    var n := |es|;
    GetFromEntries(es, n - 4);
    GetFromEntries(es, n - 3);
    GetFromEntries(es, n - 2);
    GetFromEntries(es, n - 1);
  }

  /** A cost question of `mapMiete`: Nein unless the amount is positive, Ja
      ("included in the rent") never, JaGesond ("paid separately") when the
      amount is positive, and then the amount. */
  function CostQuestion(nein: string, ja: string, jaGesond: string, betrag: string, amount: Option<real>): seq<Entry>
  {
    var has := amount.Some? && amount.value > 0.0;
    [(nein, Flag(!has)), (ja, Flag(false)), (jaGesond, Flag(has))] +
    (if has then [(betrag, FormatCurrency(amount))] else [])
  }

  /** The answer of a cost question, as the map holds it. */
  lemma CostQuestionAnswer(nein: string, ja: string, jaGesond: string, betrag: string, amount: Option<real>)
    requires nein != ja && nein != jaGesond && nein != betrag && ja != jaGesond && ja != betrag && jaGesond != betrag
    ensures var m := FromEntries(CostQuestion(nein, ja, jaGesond, betrag, amount));
      var has := amount.Some? && amount.value > 0.0;
      Get(m, nein) == Some(Flag(!has)) && Get(m, ja) == Some(Flag(false)) && Get(m, jaGesond) == Some(Flag(has)) &&
      (has ==> Get(m, betrag) == Some(Str(FormatFixed2(amount.value)))) &&
      (!has ==> Get(m, betrag) == None)
  {
    var es := CostQuestion(nein, ja, jaGesond, betrag, amount);
    GetFromEntries(es, 0);
    GetFromEntries(es, 1);
    GetFromEntries(es, 2);
    if |es| == 4 {
      GetFromEntries(es, 3);
    } else {
      GetFromEntriesAbsent(es, betrag);
    }
  }

  /** Every value is a checkbox, ticked exactly on the keys that end in "Nein". */
  predicate NeinByDefault(es: seq<Entry>)
  {
    forall i :: 0 <= i < |es| ==> es[i].1 == Flag(EndsWith(es[i].0, "Nein"))
  }

  /** The constant rent questions of `mapMiete`. */
  function RentDefaults(): (r: seq<Entry>)
    ensures NeinByDefault(r)
  {
    [("MZ1.3-CB_MonatMieteGarageNein", Flag(true)),
     ("MZ1.3-CB_MonatMieteGarageJa", Flag(false)),
     ("MZ1.3-CB_MonatMieteGarageJaGesond", Flag(false)),
     ("MZ1.3-CB_MonatMieteServiceNein", Flag(true)),
     ("MZ1.3-CB_MonatMieteServiceJa", Flag(false)),
     ("MZ1.3-CB_MonatMieteServiceJaGesond", Flag(false)),
     ("MZ1.3-CB_MonatMieteHaushaltsenergieNein", Flag(true)),
     ("MZ1.3-CB_MonatMieteHaushaltsenergieJa", Flag(false)),
     ("MZ1.3-CB_MonatMieteHaushaltsenergieJaGesond", Flag(false)),
     ("MZ1.3-CB_MieteVerändNein", Flag(true)),
     ("MZ1.3-CB_MieteVerändJaVerringern", Flag(false)),
     ("MZ1.3-CB_MieteVerändJaErhöhen", Flag(false)),
     ("MZ1.3-CB_MieteDritteNein", Flag(true)),
     ("MZ1.3-CB_MieteDritteJa", Flag(false)),
     ("MZ1.3-CB_MieteAnderePersNein", Flag(true)),
     ("MZ1.3-CB_MieteAnderePersJa", Flag(false))]
  }

  /** `mapMiete`. `getGesamtmiete()` never returns null when it returns, so
      the total is always written. */
  function MieteEntries(m: Option<Miete>): seq<Entry>
    requires m.Some? ==> GesamtmieteDefined(m.value)
  {
    if m.None? then []
    else
      [("MZ1.3-ET_MieteGesamt", Str(FormatFixed2(GetGesamtmiete(m.value))))] +
      HeatingQuestion(m.value.heizkosten) + HotWaterQuestion(m.value.warmwasser) + RentDefaults()
  }

  function HeatingQuestion(amount: Option<real>): seq<Entry>
  {
    CostQuestion("MZ1.3-CB_MonatMieteHeizkostemNein", "MZ1.3-CB_MonatMieteHeizkostemJa",
                 "MZ1.3-CB_MonatMieteHeizkostemJaGesond", "MZ1.3-ET_MonatMieteHeizkostemBetrag", amount)
  }

  function HotWaterQuestion(amount: Option<real>): seq<Entry>
  {
    CostQuestion("MZ1.3-CB_MonatMieteWarmwasserNein", "MZ1.3-CB_MonatMieteWarmwasserJa",
                 "MZ1.3-CB_MonatMieteWarmwasserJaGesond", "MZ1.3-ET_MonatMieteWarmwasserBetrag", amount)
  }

  // ---------------------------------------------------------------------------
  // Numbered fields: income slots and IBAN characters
  // ---------------------------------------------------------------------------

  /** A numbered field name: prefix, the decimal number, suffix. */
  function NumberedKey(prefix: string, n: nat, suffix: string): string
  {
    prefix + NatToString(n) + suffix
  }

  /** The suffix does not continue the number. */
  predicate SuffixOk(suffix: string)
  {
    suffix == [] || !IsDigit(suffix[0])
  }

  /** Splitting digits-then-suffix is unique. */
  lemma DigitsSuffixSplit(d1: string, s1: string, d2: string, s2: string)
    requires forall i :: 0 <= i < |d1| ==> IsDigit(d1[i])
    requires forall i :: 0 <= i < |d2| ==> IsDigit(d2[i])
    requires SuffixOk(s1) && SuffixOk(s2)
    requires d1 + s1 == d2 + s2
    ensures d1 == d2 && s1 == s2
  {
    var k := d1 + s1;
    assert forall i :: 0 <= i < |d1| ==> IsDigit(k[i]);
    assert forall i :: 0 <= i < |d2| ==> IsDigit(k[i]);
    assert |s1| > 0 ==> !IsDigit(k[|d1|]);
    assert |s2| > 0 ==> !IsDigit(k[|d2|]);
    assert |d1| == |d2|;
    assert d1 == k[..|d1|] && d2 == k[..|d2|];
    assert s1 == k[|d1|..] && s2 == k[|d2|..];
  }

  /** Different numbers or different suffixes give different field names. */
  lemma NumberedKeyInjective(prefix: string, n: nat, s1: string, m: nat, s2: string)
    requires SuffixOk(s1) && SuffixOk(s2)
    ensures NumberedKey(prefix, n, s1) == NumberedKey(prefix, m, s2) ==> n == m && s1 == s2
  {
    if NumberedKey(prefix, n, s1) == NumberedKey(prefix, m, s2) {
      var k := NumberedKey(prefix, n, s1);
      assert NatToString(n) + s1 == k[|prefix|..];
      assert NatToString(m) + s2 == k[|prefix|..];
      DigitsSuffixSplit(NatToString(n), s1, NatToString(m), s2);
      NatToStringInjective(n, m);
    }
  }

  const IncomePrefix := "MZ1.3-ET_EinnahmeHHM1Art"
  const IbanPrefix := "MZ1.3-AN_IBAN"

  /** The three fields of income slot `n` of `mapEinkommen`. */
  function IncomeSlot(n: nat, x: Einnahme): seq<Entry>
  {
    [(NumberedKey(IncomePrefix, n, ""), OptStr(x.art)),
     (NumberedKey(IncomePrefix, n, "Brutto"), FormatCurrency(x.bruttoBetrag)),
     (NumberedKey(IncomePrefix, n, "Turnus"), Str(NormalizeTurnus(x.turnus)))]
  }

  /** Slots 1..n, for the first n income entries. */
  function IncomeSlots(list: seq<Einnahme>, n: nat): seq<Entry>
    requires n <= |list|
  {
    if n == 0 then [] else IncomeSlots(list, n - 1) + IncomeSlot(n, list[n - 1])
  }

  /** What slot field `suffix` of an income entry holds. */
  function SlotValue(x: Einnahme, suffix: string): Value
  {
    if suffix == "" then OptStr(x.art)
    else if suffix == "Brutto" then FormatCurrency(x.bruttoBetrag)
    else Str(NormalizeTurnus(x.turnus))
  }

  predicate IsSlotSuffix(suffix: string)
  {
    suffix == "" || suffix == "Brutto" || suffix == "Turnus"
  }

  /** The last value of a three-entry list. */
  lemma LastValueOfThree<V>(a: (string, V), b: (string, V), c: (string, V), k: string)
    ensures LastValue([a, b, c], k) ==
      if c.0 == k then Some(c.1) else if b.0 == k then Some(b.1) else if a.0 == k then Some(a.1) else None
  {
    assert [a, b, c][..2] == [a, b];
    assert [a, b][..1] == [a];
    assert [a][..0] == [];
    assert LastValue([a], k) == if a.0 == k then Some(a.1) else None;
    assert LastValue([a, b], k) == if b.0 == k then Some(b.1) else LastValue([a], k);
  }

  /** Slot field `n` holds entry `n`'s data for n <= N, and nothing above N. */
  lemma {:induction false} IncomeSlotsLookup(list: seq<Einnahme>, N: nat, n: nat, suffix: string)
    requires N <= |list| && IsSlotSuffix(suffix)
    ensures LastValue(IncomeSlots(list, N), NumberedKey(IncomePrefix, n, suffix)) ==
      if 1 <= n <= N then Some(SlotValue(list[n - 1], suffix)) else None
  {
    var k := NumberedKey(IncomePrefix, n, suffix);
    if N > 0 {
      IncomeSlotsLookup(list, N - 1, n, suffix);
      LastValueAppend(IncomeSlots(list, N - 1), IncomeSlot(N, list[N - 1]), k);
      IncomeSlotLookup(N, list[N - 1], n, suffix);
    }
  }

  /** Slot `N` answers for its own three fields only. */
  lemma IncomeSlotLookup(N: nat, x: Einnahme, n: nat, suffix: string)
    requires IsSlotSuffix(suffix)
    ensures LastValue(IncomeSlot(N, x), NumberedKey(IncomePrefix, n, suffix)) ==
      if n == N then Some(SlotValue(x, suffix)) else None
  {
    var slot := IncomeSlot(N, x);
    LastValueOfThree(slot[0], slot[1], slot[2], NumberedKey(IncomePrefix, n, suffix));
    NumberedKeyInjective(IncomePrefix, N, "", n, suffix);
    NumberedKeyInjective(IncomePrefix, N, "Brutto", n, suffix);
    NumberedKeyInjective(IncomePrefix, N, "Turnus", n, suffix);
  }

  /** `mapEinkommen`: nothing without an applicant; the applicant's name;
      then, with income data, up to four income slots (or the old single
      monthly figure when there is no income list), and the deductions. */
  function EinkommenEntries(a: Option<Antragsteller>, e: Option<Einkommen>): seq<Entry>
  {
    if a.None? then []
    else
      IncomeName(a.value) + (if e.None? then [] else IncomeRows(e.value) + Deductions(e.value))
  }

  function IncomeName(p: Antragsteller): seq<Entry>
  {
    [("MZ1.3-ET_EinnahmeHHM1Familienname", OptStr(p.nachname)),
     ("MZ1.3-ET_EinnahmeHHM1Vorname", OptStr(p.vorname))]
  }

  /** The deduction checkboxes of `mapEinkommen`. */
  function Deductions(e: Einkommen): seq<Entry>
  {
    [("MZ1.3-CB_EinnahmeHHM1Steuern", Flag(IsTrue(e.steuern))),
     ("MZ1.3-CB_EinnahmeHHM1RVLV", Flag(IsTrue(e.rentenversicherung))),
     ("MZ1.3-CB_EinnahmeHHM1KV", Flag(IsTrue(e.krankenPflegeversicherung)))]
  }

  /** The income slots written for `e`. */
  function IncomeRows(e: Einkommen): seq<Entry>
  {
    if e.einnahmen.Some? && |e.einnahmen.value| > 0 then
      IncomeSlots(e.einnahmen.value, Min(4, |e.einnahmen.value|))
    else if e.bruttoeinkommenMonatlich.Some? && e.bruttoeinkommenMonatlich.value > 0.0 then
      IncomeSlot(1, Einnahme(Some("Einkommen"), e.bruttoeinkommenMonatlich, Some("monatlich")))
    else []
  }

  /** Income slot `n` shows the n-th income entry for the first four entries;
      further entries are dropped. */
  lemma IncomeRowsLookup(e: Einkommen, n: nat, suffix: string)
    requires e.einnahmen.Some? && |e.einnahmen.value| > 0 && IsSlotSuffix(suffix)
    ensures var list := e.einnahmen.value;
      Get(FromEntries(IncomeRows(e)), NumberedKey(IncomePrefix, n, suffix)) ==
      if 1 <= n <= Min(4, |list|) then Some(SlotValue(list[n - 1], suffix)) else None
  {
    var list := e.einnahmen.value;
    var k := NumberedKey(IncomePrefix, n, suffix);
    IncomeSlotsLookup(list, Min(4, |list|), n, suffix);
    GetInsertAll(Empty(), IncomeRows(e), k);
  }

  /** As written, an income entry paid yearly in the API's spelling
      "JAEHRLICH" shows "monatlich" in its interval field. */
  lemma YearlyIncomeWrittenMonthly(e: Einkommen)
    requires e.einnahmen.Some? && |e.einnahmen.value| > 0 && e.einnahmen.value[0].turnus == Some("JAEHRLICH")
    ensures Get(FromEntries(IncomeRows(e)), NumberedKey(IncomePrefix, 1, "Turnus")) == Some(Str("monatlich"))
  {
    IncomeRowsLookup(e, 1, "Turnus");
    YearlyTransliterationMissed();
  }

  /** Without an income list, a positive monthly gross income fills slot 1
      as "Einkommen", monthly. */
  lemma IncomeRowsFallback(e: Einkommen)
    requires e.einnahmen.None? || |e.einnahmen.value| == 0
    requires e.bruttoeinkommenMonatlich.Some? && e.bruttoeinkommenMonatlich.value > 0.0
    ensures var m := FromEntries(IncomeRows(e));
      Get(m, NumberedKey(IncomePrefix, 1, "")) == Some(Str("Einkommen")) &&
      Get(m, NumberedKey(IncomePrefix, 1, "Brutto")) == Some(Str(FormatFixed2(e.bruttoeinkommenMonatlich.value))) &&
      Get(m, NumberedKey(IncomePrefix, 1, "Turnus")) == Some(Str("monatlich"))
  {
    var es := IncomeRows(e);
    NormalizeTurnusMonthly();
    NumberedKeyInjective(IncomePrefix, 1, "", 1, "Brutto");
    NumberedKeyInjective(IncomePrefix, 1, "", 1, "Turnus");
    NumberedKeyInjective(IncomePrefix, 1, "Brutto", 1, "Turnus");
    GetFromEntries(es, 0);
    GetFromEntries(es, 1);
    GetFromEntries(es, 2);
  }

  /** Characters 1..n of the cleaned IBAN, one field each. */
  function IbanChars(iban: string, n: nat): seq<Entry>
    requires n <= |iban|
  {
    if n == 0 then [] else IbanChars(iban, n - 1) + [(NumberedKey(IbanPrefix, n, ""), Str([iban[n - 1]]))]
  }

  /** IBAN field `n` holds character `n` for n <= N, and is not written above N. */
  lemma {:induction false} IbanCharsLookup(iban: string, N: nat, n: nat)
    requires N <= |iban|
    ensures LastValue(IbanChars(iban, N), NumberedKey(IbanPrefix, n, "")) ==
      if 1 <= n <= N then Some(Str([iban[n - 1]])) else None
  {
    if N > 0 {
      IbanCharsLookup(iban, N - 1, n);
      NumberedKeyInjective(IbanPrefix, N, "", n, "");
    }
  }

  /** The IBAN part of `mapBankverbindung`: whitespace removed, at most 33 characters. */
  function IbanRows(iban: Option<string>): seq<Entry>
  {
    if iban.None? then []
    else
      var s := RemoveWhitespace(iban.value);
      IbanChars(s, Min(33, |s|))
  }

  /** The account holder's address line, "%s %s, %s %s". */
  function Anschrift(adr: Adresse): string
  {
    NullText(adr.strasse) + " " + NullText(adr.hausnummer) + ", " + NullText(adr.plz) + " " + NullText(adr.ort)
  }

  function BankHead(): seq<Entry>
  {
    [("MZ1.3-CB_ZahlungAnMich", Flag(true)), ("MZ1.3-CB_AuszahlungHHM", Flag(false))]
  }

  function BankTail(b: Bankverbindung, a: Option<Antragsteller>, adr: Option<Adresse>): seq<Entry>
  {
    [("MZ1.3-ET_AuszahlungNameBank", OptStr(b.bank))] +
    (if a.Some? then
       [("MZ1.3-ET_AuszahlungFamilienname", OptStr(a.value.nachname)),
        ("MZ1.3-ET_AuszahlungVorname", OptStr(a.value.vorname))]
     else []) +
    (if adr.Some? then [("MZ1.3-ET_AuszahlungAnschrift", Str(Anschrift(adr.value)))] else [])
  }

  /** IBAN field `n` holds the n-th non-whitespace character of the IBAN for
      n up to 33 and the cleaned length, and is absent otherwise. */
  lemma IbanRowsLookup(iban: string, n: nat)
    ensures var s := RemoveWhitespace(iban);
      Get(FromEntries(IbanRows(Some(iban))), NumberedKey(IbanPrefix, n, "")) ==
      if 1 <= n <= Min(33, |s|) then Some(Str([s[n - 1]])) else None
  {
    var s := RemoveWhitespace(iban);
    IbanCharsLookup(s, Min(33, |s|), n);
    GetInsertAll(Empty(), IbanRows(Some(iban)), NumberedKey(IbanPrefix, n, ""));
  }

  /** `mapBankverbindung`: nothing without bank data; otherwise "payment to
      me", the IBAN characters, the bank name, and the holder's name and
      address when those records are present. */
  function BankEntries(b: Option<Bankverbindung>, a: Option<Antragsteller>, adr: Option<Adresse>): seq<Entry>
  {
    if b.None? then [] else BankHead() + IbanRows(b.value.iban) + BankTail(b.value, a, adr)
  }

  /** The IBAN loop of `mapBankverbindung`: one `put` per character, at most 33. */
  method PutIbanChars(fields: Table<Value>, iban: string)
    requires fields.Valid()
    modifies fields
    ensures fields.Valid()
    ensures fields.Model() == InsertAll(old(fields.Model()), IbanChars(iban, Min(33, |iban|)))
  {
    ghost var m0 := fields.Model();
    var i := 0;
    while i < Min(33, |iban|)
      invariant 0 <= i <= Min(33, |iban|)
      invariant fields.Valid()
      invariant fields.Model() == InsertAll(m0, IbanChars(iban, i))
    {
      var e := (NumberedKey(IbanPrefix, i + 1, ""), Str([iban[i]]));
      fields.Put(e.0, e.1);
      InsertAllAppend(m0, IbanChars(iban, i), [e]);
      InsertAllOne(InsertAll(m0, IbanChars(iban, i)), e);
      i := i + 1;
    }
  }

  /** The income loop of `mapEinkommen`: slots 1..min(4, size), three `put`s each. */
  method PutIncomeSlots(fields: Table<Value>, list: seq<Einnahme>)
    requires fields.Valid()
    modifies fields
    ensures fields.Valid()
    ensures fields.Model() == InsertAll(old(fields.Model()), IncomeSlots(list, Min(4, |list|)))
  {
    ghost var m0 := fields.Model();
    var i := 0;
    while i < Min(4, |list|)
      invariant 0 <= i <= Min(4, |list|)
      invariant fields.Valid()
      invariant fields.Model() == InsertAll(m0, IncomeSlots(list, i))
    {
      PutIncomeSlot(fields, i + 1, list[i]);
      InsertAllAppend(m0, IncomeSlots(list, i), IncomeSlot(i + 1, list[i]));
      i := i + 1;
    }
  }

  /** One pass of the income loop: the three `put` calls of slot `n`. */
  method PutIncomeSlot(fields: Table<Value>, n: nat, x: Einnahme)
    requires fields.Valid()
    modifies fields
    ensures fields.Valid()
    ensures fields.Model() == InsertAll(old(fields.Model()), IncomeSlot(n, x))
  {
    var slot := IncomeSlot(n, x);
    ghost var before := fields.Model();
    fields.Put(slot[0].0, slot[0].1);
    fields.Put(slot[1].0, slot[1].1);
    fields.Put(slot[2].0, slot[2].1);
    InsertAllThree(before, slot[0], slot[1], slot[2]);
    assert slot == [slot[0], slot[1], slot[2]];
  }


  /** `mapEinkommen`. */
  method MapEinkommen(fields: Table<Value>, a: Option<Antragsteller>, e: Option<Einkommen>)
    requires fields.Valid()
    modifies fields
    ensures fields.Valid()
    ensures fields.Model() == InsertAll(old(fields.Model()), EinkommenEntries(a, e))
  {
    if a.None? {
      return;
    }
    ghost var m0 := fields.Model();
    var name := IncomeName(a.value);
    fields.PutAll(name);
    if e.None? {
      assert EinkommenEntries(a, e) == name + [];
      InsertAllAppend(m0, name, []);
      return;
    }
    var ev := e.value;
    ghost var m1 := fields.Model();
    if ev.einnahmen.Some? && |ev.einnahmen.value| > 0 {
      PutIncomeSlots(fields, ev.einnahmen.value);
    } else if ev.bruttoeinkommenMonatlich.Some? && ev.bruttoeinkommenMonatlich.value > 0.0 {
      fields.PutAll(IncomeSlot(1, Einnahme(Some("Einkommen"), ev.bruttoeinkommenMonatlich, Some("monatlich"))));
    }
    assert fields.Model() == InsertAll(m1, IncomeRows(ev));
    fields.PutAll(Deductions(ev));
    InsertAllAppend(m1, IncomeRows(ev), Deductions(ev));
    InsertAllAppend(m0, name, IncomeRows(ev) + Deductions(ev));
  }

  /** `mapBankverbindung`. */
  method MapBankverbindung(fields: Table<Value>, b: Option<Bankverbindung>, a: Option<Antragsteller>, adr: Option<Adresse>)
    requires fields.Valid()
    modifies fields
    ensures fields.Valid()
    ensures fields.Model() == InsertAll(old(fields.Model()), BankEntries(b, a, adr))
  {
    if b.None? {
      return;
    }
    ghost var m0 := fields.Model();
    ghost var rows := IbanRows(b.value.iban);
    fields.Put("MZ1.3-CB_ZahlungAnMich", Flag(true));
    fields.Put("MZ1.3-CB_AuszahlungHHM", Flag(false));
    InsertAllTwo(m0, BankHead()[0], BankHead()[1]);
    ghost var m1 := fields.Model();
    if b.value.iban.Some? {
      PutIbanChars(fields, RemoveWhitespace(b.value.iban.value));
    }
    ghost var m2 := fields.Model();
    fields.PutAll(BankTail(b.value, a, adr));
    InsertAllAppend(m0, BankHead(), rows);
    InsertAllAppend(m0, BankHead() + rows, BankTail(b.value, a, adr));
  }

  // ---------------------------------------------------------------------------
  // mapZusatzfragen and the whole mapping
  // ---------------------------------------------------------------------------

  const HinweisKey := "MZ1.3-CB_HinweisAbfrage"

  /** Every entry is ticked exactly when it is a "Nein" box or the consent box. */
  predicate AnsweredNein(es: seq<Entry>)
  {
    forall i | 0 <= i < |es| :: es[i].1 == Flag(EndsWith(es[i].0, "Nein") || es[i].0 == HinweisKey)
  }

  lemma AnsweredNeinAppend(a: seq<Entry>, b: seq<Entry>)
    requires AnsweredNein(a) && AnsweredNein(b)
    ensures AnsweredNein(a + b)
  {
    forall i | 0 <= i < |a + b| ensures (a + b)[i] == if i < |a| then a[i] else b[i - |a|] {
    }
  }

  /** A box whose name ends in `tail` is not a "Nein" box, and not the consent box, when `tail`'s last letter is not 'n' and not 'e'. */
  lemma NotNein(stem: string, tail: string)
    requires |tail| > 0 && tail[|tail| - 1] != 'n' && tail[|tail| - 1] != 'e'
    ensures !EndsWith(stem + tail, "Nein") && stem + tail != HinweisKey
  {
    var k := stem + tail;
    assert k[|k| - 1] == tail[|tail| - 1];
    assert HinweisKey[|HinweisKey| - 1] == 'e';
    if |k| >= 4 {
      assert k[|k| - 4..][3] == k[|k| - 1];
    }
  }

  /** The same for a longer ending that is itself not "Nein". */
  lemma NotNeinLong(stem: string, tail: string)
    requires |tail| >= 4 && !EndsWith(tail, "Nein") && tail[|tail| - 1] != 'e'
    ensures !EndsWith(stem + tail, "Nein") && stem + tail != HinweisKey
  {
    var k := stem + tail;
    assert k[|k| - 1] == tail[|tail| - 1];
    assert HinweisKey[|HinweisKey| - 1] == 'e';
    assert k[|k| - 4..] == tail[|tail| - 4..];
  }

  lemma IsNein(stem: string)
    ensures EndsWith(stem + "Nein", "Nein")
  {
    assert (stem + "Nein")[|stem|..] == "Nein";
  }

  /** The answer pair of one yes/no question: "Nein" ticked, "Ja" not. */
  function NeinJa(stem: string): (r: seq<Entry>)
    ensures AnsweredNein(r)
  {
    IsNein("MZ1.3-CB_" + stem);
    NotNein("MZ1.3-CB_" + stem, "Ja");
    [("MZ1.3-CB_" + stem + "Nein", Flag(true)), ("MZ1.3-CB_" + stem + "Ja", Flag(false))]
  }

  /** The answer pairs of a run of yes/no questions, in order. */
  function NeinJaAll(stems: seq<string>): (r: seq<Entry>)
    ensures AnsweredNein(r)
  {
    if stems == [] then []
    else
      var init := NeinJaAll(stems[..|stems| - 1]);
      var last := NeinJa(stems[|stems| - 1]);
      AnsweredNeinAppend(init, last);
      init + last
  }

  /** The questions before the income-change question, in form order. */
  const FirstQuestions := ["WohnungAndereWohnung", "WohnungZweitwohnsitz", "VerändHHMTod", "VerändHHMVerstorben",
    "VerändHHMAnzahl", "TransfLeistung", "TransfWohngeldBeantragen", "FreiBWerb", "FreiBKinderbetreu",
    "FreiBSchwerBe", "FreiBUnterh", "SonstEinUnterh", "SonstEinEinm"]

  /** The questions after it. */
  const LaterQuestions := ["SonstEinVermögen", "DrittStaatKostentragen", "WeiterePersonen"]

  /** The income-change question: "Nein", "Ja, Verringerung", "Ja, Erhöhung". */
  function IncomeChangeQuestion(): (r: seq<Entry>)
    ensures AnsweredNein(r)
  {
    IsNein("MZ1.3-CB_SonstEinErh");
    NotNein("MZ1.3-CB_SonstEinErh", "JaVer");
    NotNein("MZ1.3-CB_SonstEinErh", "JaErh");
    [("MZ1.3-CB_SonstEinErh" + "Nein", Flag(true)),
     ("MZ1.3-CB_SonstEinErh" + "JaVer", Flag(false)),
     ("MZ1.3-CB_SonstEinErh" + "JaErh", Flag(false))]
  }

  /** The living-space-use boxes, unticked, and the consent box, ticked. */
  function ClosingBoxes(): (r: seq<Entry>)
    ensures AnsweredNein(r)
  {
    NotNein("MZ1.3-CB_NutzWohnraum", "Beruflich");
    NotNeinLong("MZ1.3-CB_NutzWohnraumAndPers", "Überlassen");
    NotNein("MZ1.3-CB_NutzWohnraumAndPers", "Entgeltlich");
    [("MZ1.3-CB_NutzWohnraum" + "Beruflich", Flag(false)),
     ("MZ1.3-CB_NutzWohnraumAndPers" + "Überlassen", Flag(false)),
     ("MZ1.3-CB_NutzWohnraumAndPers" + "Entgeltlich", Flag(false)),
     (HinweisKey, Flag(true))]
  }

  /** `mapZusatzfragen`: constant, whatever the request. Every question is
      answered "Nein" (its Nein box ticked, its Ja boxes not), the
      living-space-use boxes stay unticked, and the consent box is ticked. */
  function ZusatzfragenEntries(): (r: seq<Entry>)
    ensures AnsweredNein(r)
  {
    AnsweredNeinAppend(NeinJaAll(FirstQuestions), IncomeChangeQuestion());
    AnsweredNeinAppend(NeinJaAll(FirstQuestions) + IncomeChangeQuestion(), NeinJaAll(LaterQuestions));
    AnsweredNeinAppend(NeinJaAll(FirstQuestions) + IncomeChangeQuestion() + NeinJaAll(LaterQuestions), ClosingBoxes());
    NeinJaAll(FirstQuestions) + IncomeChangeQuestion() + NeinJaAll(LaterQuestions) + ClosingBoxes()
  }

  /** The request can be mapped without an exception: a rent record must
      have a total, or all four parts it is summed from (see
      `Domain.GesamtmieteDefined`). */
  predicate MieteReadable(req: WohngeldAntragRequest)
  {
    req.miete.Some? ==> GesamtmieteDefined(req.miete.value)
  }

  /** All `put` calls of `createFieldMapping`, section by section. */
  function MappingEntries(req: WohngeldAntragRequest): seq<Entry>
    requires MieteReadable(req)
  {
    AntragsdatenEntries(req.antrag) + AntragstellerEntries(req.antragsteller) + AdresseEntries(req.adresse) +
    WohnungEntries(req.wohnung) + MieteEntries(req.miete) + EinkommenEntries(req.antragsteller, req.einkommen) +
    BankEntries(req.bankverbindung, req.antragsteller, req.adresse) + ZusatzfragenEntries()
  }

  /** The map `createFieldMapping` returns. */
  function FieldMapping(req: WohngeldAntragRequest): LinkedMap<Value>
    requires MieteReadable(req)
  {
    FromEntries(MappingEntries(req))
  }

  /** The additional questions are written last, so in the returned map each
      of their boxes holds its default whatever the request says: ticked for
      a "Nein" box and the consent box, unticked otherwise. */
  lemma FieldMappingZusatzfragen(req: WohngeldAntragRequest, k: string)
    requires MieteReadable(req)
    requires k in KeysOf(ZusatzfragenEntries())
    ensures Get(FieldMapping(req), k) == Some(Flag(EndsWith(k, "Nein") || k == HinweisKey))
  {
    var z := ZusatzfragenEntries();
    var rest := AntragsdatenEntries(req.antrag) + AntragstellerEntries(req.antragsteller) + AdresseEntries(req.adresse) +
      WohnungEntries(req.wohnung) + MieteEntries(req.miete) + EinkommenEntries(req.antragsteller, req.einkommen) +
      BankEntries(req.bankverbindung, req.antragsteller, req.adresse);
    assert MappingEntries(req) == rest + z;
    LastValueIsEntry(z, k);
    LastValueAppend(rest, z, k);
    GetInsertAll(Empty(), MappingEntries(req), k);
  }

  /** `createFieldMapping`: a new LinkedHashMap filled section by section. */
  method CreateFieldMapping(req: WohngeldAntragRequest) returns (fields: Table<Value>)
    requires MieteReadable(req)
    ensures fields.Valid()
    ensures fields.Model() == FieldMapping(req)
  {
    fields := new Table<Value>();
    var s1 := AntragsdatenEntries(req.antrag);
    var s2 := AntragstellerEntries(req.antragsteller);
    var s3 := AdresseEntries(req.adresse);
    var s4 := WohnungEntries(req.wohnung);
    var s5 := MieteEntries(req.miete);
    var s6 := EinkommenEntries(req.antragsteller, req.einkommen);
    var s7 := BankEntries(req.bankverbindung, req.antragsteller, req.adresse);
    var s8 := ZusatzfragenEntries();
    fields.PutAll(s1);
    fields.PutAll(s2);
    fields.PutAll(s3);
    fields.PutAll(s4);
    fields.PutAll(s5);
    MapEinkommen(fields, req.antragsteller, req.einkommen);
    MapBankverbindung(fields, req.bankverbindung, req.antragsteller, req.adresse);
    fields.PutAll(s8);
    var e: LinkedMap<Value> := Empty();
    InsertAllAppend(e, s1, s2);
    InsertAllAppend(e, s1 + s2, s3);
    InsertAllAppend(e, s1 + s2 + s3, s4);
    InsertAllAppend(e, s1 + s2 + s3 + s4, s5);
    InsertAllAppend(e, s1 + s2 + s3 + s4 + s5, s6);
    InsertAllAppend(e, s1 + s2 + s3 + s4 + s5 + s6, s7);
    InsertAllAppend(e, s1 + s2 + s3 + s4 + s5 + s6 + s7, s8);
  }
}
