/**
 * PdfFieldAnalyzer: classifies the AcroForm fields of a Wohngeld form by
 * their (lower-cased) fully qualified names. For each field it extracts a
 * short name, a section number and a person number, assigns one of eleven
 * categories by an ordered keyword chain, groups the fields by category and
 * by section, and proposes a dummy value for each field it recognises.
 *
 * All keyword lists of the analyzer are lower-case literals, so Java's
 * `keyword.toLowerCase()` inside `containsAny` is the identity on them and
 * is not repeated here.
 */
module FieldAnalyzer {
  import opened Wrappers
  import opened Text
  import opened FieldTable

  /** A field as the form library reports it: fully qualified name, the simple
      name of its Java class, whether it is a checkbox, and its current value. */
  datatype PdfField = PdfField(fullName: string, typeName: string, isCheckbox: bool, value: Option<string>)

  datatype Category =
    | Behoerde | Antragsdaten | Person | Adresse | Wohnung | Miete
    | Einkommen | Erwerbsstatus | Bank | JaNein | Sonstige

  /** The category string the analyzer stores and prints. */
  function Label(c: Category): string
  {
    match c
    case Behoerde => "BEHOERDE"
    case Antragsdaten => "ANTRAGSDATEN"
    case Person => "PERSON"
    case Adresse => "ADRESSE"
    case Wohnung => "WOHNUNG"
    case Miete => "MIETE"
    case Einkommen => "EINKOMMEN"
    case Erwerbsstatus => "ERWERBSSTATUS"
    case Bank => "BANK"
    case JaNein => "JA_NEIN"
    case Sonstige => "SONSTIGE"
  }

  /** `FieldInfo`: what the analyzer records about one field. */
  datatype FieldInfo = FieldInfo(
    fullName: string,
    shortName: string,
    typeName: string,
    category: Category,
    sectionNumber: nat,
    personNumber: nat,
    checkbox: bool,
    currentValue: Option<string>)

  // ---------------------------------------------------------------------------
  // containsAny
  // ---------------------------------------------------------------------------

  /** `containsAny(text, keywords...)`: the keywords are tried in order and the
      first one found ends the search. */
  function ContainsAny(text: string, keywords: seq<string>): (r: bool)
    ensures r <==> exists i | 0 <= i < |keywords| :: Contains(text, keywords[i])
  {
    if keywords == [] then false
    else
      assert forall i | 1 <= i < |keywords| :: keywords[1..][i - 1] == keywords[i];
      Contains(text, keywords[0]) || ContainsAny(text, keywords[1..])
  }

  // ---------------------------------------------------------------------------
  // extractShortName
  // ---------------------------------------------------------------------------

  /** The characters of the regular expression `[._]`. */
  predicate IsSeparator(c: char)
  {
    c == '.' || c == '_'
  }

  /** A name that `split("[._]")` does not turn into an empty array: Java
      drops trailing empty parts, so a non-empty name made only of separators
      leaves nothing, and `parts[parts.length - 1]` fails. */
  predicate ShortNameDefined(name: string)
  {
    name == [] || HasNonSeparator(name)
  }

  /** Some character of `s` is not a separator. */
  predicate HasNonSeparator(s: string)
  {
    s != [] && (!IsSeparator(s[|s| - 1]) || HasNonSeparator(s[..|s| - 1]))
  }

  /** The name without its trailing separators. */
  function TrimSeparators(s: string): (t: string)
    ensures |t| <= |s| && t == s[..|t|]
    ensures forall i | |t| <= i < |s| :: IsSeparator(s[i])
    ensures t == [] || !IsSeparator(t[|t| - 1])
  {
    if s != [] && IsSeparator(s[|s| - 1]) then TrimSeparators(s[..|s| - 1]) else s
  }

  /** The longest suffix of `s` without a separator. */
  function LastRun(s: string): (r: string)
    ensures |r| <= |s| && r == s[|s| - |r|..]
    ensures forall i | 0 <= i < |r| :: !IsSeparator(r[i])
    ensures |r| == |s| || IsSeparator(s[|s| - |r| - 1])
  {
    if s == [] || IsSeparator(s[|s| - 1]) then [] else LastRun(s[..|s| - 1]) + [s[|s| - 1]]
  }

  /** `extractShortName`: the last part of the name split at '.' and '_'. */
  function ExtractShortName(name: string): string
  {
    LastRun(TrimSeparators(name))
  }

  /** The short name is the last separator-free run of the name once its
      trailing separators are gone, and it is empty only when the name is. */
  lemma ShortNameIsLastRun(name: string)
    ensures var r := ExtractShortName(name);
      && (forall i | 0 <= i < |r| :: !IsSeparator(r[i]))
      && (name != [] && ShortNameDefined(name) ==> r != [])
      && var t := TrimSeparators(name);
         EndsWith(t, r) && (|r| == |t| || IsSeparator(t[|t| - |r| - 1]))
  {
    TrimSeparatorsNonEmpty(name);
  }

  lemma {:induction false} TrimSeparatorsNonEmpty(name: string)
    ensures name != [] && ShortNameDefined(name) ==> TrimSeparators(name) != []
  {
    if name != [] && ShortNameDefined(name) && IsSeparator(name[|name| - 1]) {
      assert HasNonSeparator(name[..|name| - 1]);
      TrimSeparatorsNonEmpty(name[..|name| - 1]);
    }
  }

  /** Java's `split("[._]")` before trailing empty parts are dropped. */
  function SplitParts(s: string): (parts: seq<string>)
    ensures |parts| >= 1
  {
    if s == [] then [[]]
    else
      var p := SplitParts(s[..|s| - 1]);
      if IsSeparator(s[|s| - 1]) then p + [[]]
      else p[..|p| - 1] + [p[|p| - 1] + [s[|s| - 1]]]
  }

  function DropTrailingEmpty(parts: seq<string>): seq<string>
  {
    if parts != [] && parts[|parts| - 1] == [] then DropTrailingEmpty(parts[..|parts| - 1]) else parts
  }

  /** Java's `split("[._]")`: a name without any separator is returned whole;
      otherwise the parts, with trailing empty ones dropped. */
  function JavaSplit(s: string): seq<string>
  {
    if NoSeparator(s) then [s] else DropTrailingEmpty(SplitParts(s))
  }

  predicate NoSeparator(s: string)
  {
    forall i | 0 <= i < |s| :: !IsSeparator(s[i])
  }

  lemma {:induction false} SplitPartsLast(s: string)
    ensures var p := SplitParts(s); p[|p| - 1] == LastRun(s)
  {
    if s != [] && !IsSeparator(s[|s| - 1]) {
      SplitPartsLast(s[..|s| - 1]);
    }
  }

  lemma {:induction false} DropTrailingEmptyOfTrim(s: string)
    ensures DropTrailingEmpty(SplitParts(s)) == DropTrailingEmpty(SplitParts(TrimSeparators(s)))
  {
    if s != [] && IsSeparator(s[|s| - 1]) {
      var p := SplitParts(s[..|s| - 1]);
      assert (p + [[]])[..|p|] == p;
      DropTrailingEmptyOfTrim(s[..|s| - 1]);
    }
  }

  /** The short name is the last element of the array `split` returns. */
  lemma ShortNameIsLastPart(name: string)
    requires ShortNameDefined(name)
    ensures var parts := JavaSplit(name); |parts| > 0 && ExtractShortName(name) == parts[|parts| - 1]
  {
    var t := TrimSeparators(name);
    if NoSeparator(name) {
      LastRunWhole(name);
      assert JavaSplit(name) == [name];
    } else {
      TrimSeparatorsNonEmpty(name);
      DropTrailingEmptyOfTrim(name);
      SplitPartsLast(t);
      var p := SplitParts(t);
      assert p[|p| - 1] != [];
      assert DropTrailingEmpty(p) == p;
      assert JavaSplit(name) == p;
    }
  }

  lemma {:induction false} LastRunWhole(s: string)
    requires NoSeparator(s)
    ensures LastRun(s) == s
  {
    if s != [] {
      LastRunWhole(s[..|s| - 1]);
    }
  }

  // ---------------------------------------------------------------------------
  // extractSectionNumber
  // ---------------------------------------------------------------------------

  /** The name mentions "abschnitt i" or "abschnitti". */
  predicate MentionsSection(name: string, i: nat)
  {
    Contains(name, "abschnitt " + NatToString(i)) || Contains(name, "abschnitt" + NatToString(i))
  }

  /** The loop over i = from..20 that returns the first section mentioned, 0 if none. */
  function ScanSections(name: string, from: nat): (r: nat)
    requires 1 <= from
    ensures r == 0 || (from <= r <= 20 && MentionsSection(name, r))
    ensures forall j | from <= j <= 20 && (r == 0 || j < r) :: !MentionsSection(name, j)
    decreases 21 - from
  {
    if from > 20 then 0
    else if MentionsSection(name, from) then from
    else ScanSections(name, from + 1)
  }

  const SectionLetters: string := "abcde"

  /** The name starts with "x." or contains ".x.". */
  predicate LetterMark(name: string, x: char)
  {
    StartsWith(name, [x, '.']) || Contains(name, ['.', x, '.'])
  }

  /** The letter rules: "a." .. "e." are sections 1 .. 5. */
  function LetterSection(name: string): (r: nat)
    ensures r <= 5
    ensures r > 0 ==> LetterMark(name, SectionLetters[r - 1])
    ensures forall j | 0 <= j < 5 && (r == 0 || j < r - 1) :: !LetterMark(name, SectionLetters[j])
  {
    if LetterMark(name, 'a') then 1
    else if LetterMark(name, 'b') then 2
    else if LetterMark(name, 'c') then 3
    else if LetterMark(name, 'd') then 4
    else if LetterMark(name, 'e') then 5
    else 0
  }

  lemma ContainsPrefixOf(s: string, p: string, q: string)
    requires Contains(s, p + q)
    ensures Contains(s, p)
  {
    var i :| 0 <= i <= |s| && StartsAt(s, p + q, i);
    assert s[i..i + |p|] == (p + q)[..|p|];
    assert StartsAt(s, p, i);
  }

  lemma MentionsSectionMentionsAbschnitt(name: string, i: nat)
    ensures MentionsSection(name, i) ==> Contains(name, "abschnitt")
  {
    if !MentionsSection(name, i) {
    } else if Contains(name, "abschnitt " + NatToString(i)) {
      assert "abschnitt " + NatToString(i) == "abschnitt" + (" " + NatToString(i));
      ContainsPrefixOf(name, "abschnitt", " " + NatToString(i));
    } else {
      ContainsPrefixOf(name, "abschnitt", NatToString(i));
    }
  }

  /** `extractSectionNumber`: the smallest section 1..20 the name mentions;
      otherwise the section of the first matching letter rule; otherwise 0. */
  function ExtractSectionNumber(name: string): (r: nat)
    ensures r <= 20
  {
    var scan := ScanSections(name, 1);
    if Contains(name, "abschnitt") && scan > 0 then scan else LetterSection(name)
  }

  /** The section is the smallest one mentioned; the letter rules decide only
      when no section number is mentioned. */
  lemma SectionNumberIsFirstMentioned(name: string)
    ensures var r := ExtractSectionNumber(name);
      && ((exists j | 1 <= j <= 20 :: MentionsSection(name, j)) ==>
          1 <= r && MentionsSection(name, r) && forall j | 1 <= j < r :: !MentionsSection(name, j))
      && ((forall j | 1 <= j <= 20 :: !MentionsSection(name, j)) ==> r == LetterSection(name))
  {
    MentionsSectionMentionsAbschnitt(name, ScanSections(name, 1));
  }

  /** A name that mentions sections 1 and 12 is placed in section 1. */
  lemma SectionTwelveReadsAsOne()
    ensures ExtractSectionNumber("abschnitt 12") == 1
  {
    assert NatToString(1) == "1";
    assert "abschnitt " + NatToString(1) == "abschnitt 1";
    assert StartsAt("abschnitt 12", "abschnitt 1", 0);
    assert MentionsSection("abschnitt 12", 1);
    SectionNumberIsFirstMentioned("abschnitt 12");
  }

  // ---------------------------------------------------------------------------
  // extractPersonNumber
  // ---------------------------------------------------------------------------

  /** One of the six person patterns for number i. */
  predicate MentionsPerson(name: string, i: nat)
  {
    var d := NatToString(i);
    Contains(name, "person " + d) || Contains(name, "person" + d) || Contains(name, "p" + d) ||
    Contains(name, "_" + d + "_") || EndsWith(name, "_" + d) || EndsWith(name, "." + d)
  }

  /** The loop over i = from..10 that returns the first person mentioned, 0 if none. */
  function ScanPersons(name: string, from: nat): (r: nat)
    requires 1 <= from
    ensures r == 0 || (from <= r <= 10 && MentionsPerson(name, r))
    ensures forall j | from <= j <= 10 && (r == 0 || j < r) :: !MentionsPerson(name, j)
    decreases 11 - from
  {
    if from > 10 then 0
    else if MentionsPerson(name, from) then from
    else ScanPersons(name, from + 1)
  }

  /** `extractPersonNumber`: the smallest person 1..10 the name mentions;
      otherwise 1 for the applicant, 2 for a spouse or partner, else 0. */
  function ExtractPersonNumber(name: string): (r: nat)
    ensures r <= 10
  {
    var scan := ScanPersons(name, 1);
    if scan > 0 then scan
    else if Contains(name, "antragsteller") then 1
    else if Contains(name, "ehegatte") || Contains(name, "partner") then 2
    else 0
  }

  /** The person is the smallest one mentioned; the role words decide only
      when no person number is mentioned. */
  lemma PersonNumberIsFirstMentioned(name: string)
    ensures var r := ExtractPersonNumber(name);
      && ((exists j | 1 <= j <= 10 :: MentionsPerson(name, j)) ==>
          1 <= r && MentionsPerson(name, r) && forall j | 1 <= j < r :: !MentionsPerson(name, j))
      && ((forall j | 1 <= j <= 10 :: !MentionsPerson(name, j)) ==>
          r == (if Contains(name, "antragsteller") then 1
                else if Contains(name, "ehegatte") || Contains(name, "partner") then 2
                else 0))
  {
  }

  /** "person 10" already contains "person 1": the scan reads it as person 1. */
  lemma PersonTenReadsAsOne()
    ensures ExtractPersonNumber("person 10") == 1
  {
    assert NatToString(1) == "1";
    assert "person " + NatToString(1) == "person 1";
    assert StartsAt("person 10", "person 1", 0);
    assert MentionsPerson("person 10", 1);
    PersonNumberIsFirstMentioned("person 10");
  }

  // ---------------------------------------------------------------------------
  // determineCategory
  // ---------------------------------------------------------------------------

  /** The keyword list of each category (none for SONSTIGE). */
  function KeywordsOf(c: Category): seq<string>
  {
    match c
    case Behoerde => ["behörde", "behoerde", "dienststelle", "amt", "wohngeldbehörde"]
    case Antragsdaten => ["erstantrag", "weiterleistung", "folgeantrag", "aktenzeichen", "wohngeldnummer", "antragsdatum"]
    case Person => ["name", "vorname", "nachname", "familienname", "geburt", "geschlecht", "männlich", "weiblich",
                    "divers", "familienstand", "ledig", "verheiratet", "geschieden", "verwitwet"]
    case Adresse => ["straße", "strasse", "hausnummer", "hausnr", "plz", "postleitzahl", "ort", "stadt", "wohnort",
                     "anschrift", "adresse"]
    case Wohnung => ["wohnung", "wohnfläche", "wohnflaeche", "zimmer", "räume", "einzug", "bezug", "baujahr",
                     "vermieter", "mieter"]
    case Miete => ["miete", "kaltmiete", "warmmiete", "nebenkosten", "heizkosten", "betriebskosten"]
    case Einkommen => ["einkommen", "verdienst", "gehalt", "lohn", "brutto", "netto", "rente", "kindergeld", "unterhalt"]
    case Erwerbsstatus => ["erwerbstätig", "erwerbstaetig", "arbeitslos", "rentner", "student", "schüler", "schueler",
                           "selbständig", "selbststaendig"]
    case Bank => ["iban", "bic", "bank", "konto", "kreditinstitut"]
    case JaNein => ["ja", "nein", "yes", "no"]
    case Sonstige => []
  }

  /** The order in which the categories are tried. */
  const CategoryOrder: seq<Category> :=
    [Behoerde, Antragsdaten, Person, Adresse, Wohnung, Miete, Einkommen, Erwerbsstatus, Bank, JaNein]

  /** The position of a category in the chain; SONSTIGE comes after all of them. */
  function Rank(c: Category): (r: nat)
    ensures r <= |CategoryOrder|
    ensures c != Sonstige <==> r < |CategoryOrder|
    ensures r < |CategoryOrder| ==> CategoryOrder[r] == c
  {
    match c
    case Behoerde => 0
    case Antragsdaten => 1
    case Person => 2
    case Adresse => 3
    case Wohnung => 4
    case Miete => 5
    case Einkommen => 6
    case Erwerbsstatus => 7
    case Bank => 8
    case JaNein => 9
    case Sonstige => 10
  }

  /** `determineCategory`: the categories are tried in chain order, and the
      first whose keywords occur in the name wins; SONSTIGE when none does. */
  function DetermineCategory(name: string): Category
  {
    FirstCategoryFrom(name, 0)
  }

  /** The chain, resumed at position `i` of the category order. */
  function FirstCategoryFrom(name: string, i: nat): Category
    requires i <= |CategoryOrder|
    decreases |CategoryOrder| - i
  {
    if i == |CategoryOrder| then Sonstige
    else if ContainsAny(name, KeywordsOf(CategoryOrder[i])) then CategoryOrder[i]
    else FirstCategoryFrom(name, i + 1)
  }

  /** The category order lists each category once, at its rank. */
  lemma RankOfOrder(i: nat)
    requires i < |CategoryOrder|
    ensures Rank(CategoryOrder[i]) == i
  {
  }

  /** Resumed at `i`, the chain answers a matching category at or after `i`
      and every category between `i` and that answer was tried and missed. */
  lemma {:induction false} FirstCategoryFromMatches(name: string, i: nat)
    requires i <= |CategoryOrder|
    ensures var r := FirstCategoryFrom(name, i);
      && i <= Rank(r)
      && (r != Sonstige ==> ContainsAny(name, KeywordsOf(r)))
      && (forall j | i <= j < Rank(r) :: !ContainsAny(name, KeywordsOf(CategoryOrder[j])))
    decreases |CategoryOrder| - i
  {
    if i < |CategoryOrder| {
      RankOfOrder(i);
      if !ContainsAny(name, KeywordsOf(CategoryOrder[i])) {
        FirstCategoryFromMatches(name, i + 1);
        var r := FirstCategoryFrom(name, i + 1);
        forall j | i <= j < Rank(r)
          ensures !ContainsAny(name, KeywordsOf(CategoryOrder[j]))
        {
          if j == i {
          }
        }
      }
    }
  }

  /** The chain picks the first category whose keywords occur in the name,
      and falls through to SONSTIGE exactly when no keyword list matches. */
  lemma DetermineCategoryFirstMatch(name: string)
    ensures var r := DetermineCategory(name);
      && (r != Sonstige ==> ContainsAny(name, KeywordsOf(r)))
      && (forall c: Category | Rank(c) < Rank(r) :: !ContainsAny(name, KeywordsOf(c)))
      && (r == Sonstige <==> forall c: Category | c != Sonstige :: !ContainsAny(name, KeywordsOf(c)))
  {
    var r := DetermineCategory(name);
    FirstCategoryFromMatches(name, 0);
    forall c: Category | Rank(c) < Rank(r)
      ensures !ContainsAny(name, KeywordsOf(c))
    {
      assert CategoryOrder[Rank(c)] == c;
    }
  }

  /** As written, the authority keyword "amt" also occurs in "gesamt"
      ("total"), so every name that mentions a total, such as "gesamtmiete",
      "miete gesamt" or "insgesamt", is filed under BEHOERDE. */
  lemma TotalNamesFiledUnderAuthority(name: string)
    requires Contains(name, "gesamt")
    ensures DetermineCategory(name) == Behoerde
  {
    var i :| 0 <= i <= |name| && StartsAt(name, "gesamt", i);
    assert name[i + 3..i + 6] == "gesamt"[3..];
    assert StartsAt(name, "amt", i + 3);
    assert KeywordsOf(Behoerde)[3] == "amt";
  }

  /** The authority keywords other than "amt". */
  const AuthorityWords: seq<string> := ["behörde", "behoerde", "dienststelle", "wohngeldbehörde"]

  /** The occurrence of "amt" at `i` is the tail of "gesamt". */
  predicate TailOfGesamt(name: string, i: int)
  {
    i >= 3 && StartsAt(name, "gesamt", i - 3)
  }

  /** "amt" occurs in the name other than as the tail of "gesamt". */
  predicate AuthorityAmt(name: string)
  {
    exists i | 0 <= i <= |name| :: StartsAt(name, "amt", i) && !TailOfGesamt(name, i)
  }

  /** `determineCategory` as evidently intended: "amt" names an authority
      only where it is not the tail of "gesamt"; the rest of the chain is
      unchanged. It differs from the code as written only on names that
      mention "gesamt" and that the code files under BEHOERDE. */
  function CorrectedDetermineCategory(name: string): (r: Category)
    ensures r == Behoerde <==> ContainsAny(name, AuthorityWords) || AuthorityAmt(name)
    ensures r != DetermineCategory(name) ==> DetermineCategory(name) == Behoerde && Contains(name, "gesamt")
  {
    var authority := ContainsAny(name, AuthorityWords) || AuthorityAmt(name);
    CorrectedChainAgrees(name, authority);
    if authority then Behoerde else FirstCategoryFrom(name, 1)
  }

  /** The two chains agree once the authority test is passed or failed for
      the same reason. */
  lemma CorrectedChainAgrees(name: string, authority: bool)
    requires authority == (ContainsAny(name, AuthorityWords) || AuthorityAmt(name))
    ensures FirstCategoryFrom(name, 1) != Behoerde
    ensures authority ==> DetermineCategory(name) == Behoerde
    ensures !authority && DetermineCategory(name) != FirstCategoryFrom(name, 1) ==>
      DetermineCategory(name) == Behoerde && Contains(name, "gesamt")
  {
    FirstCategoryFromMatches(name, 1);
    assert FirstCategoryFrom(name, 1) != Behoerde by {
      var r := FirstCategoryFrom(name, 1);
      assert r == Sonstige || Rank(r) >= 1;
    }
    AuthorityKeywordsSplit(name);
    if !authority && Contains(name, "amt") {
      var i :| 0 <= i <= |name| && StartsAt(name, "amt", i);
      assert TailOfGesamt(name, i);
      assert StartsAt(name, "gesamt", i - 3);
    }
  }

  /** The authority keywords are "amt" and the other authority words. */
  lemma AuthorityKeywordsSplit(name: string)
    ensures ContainsAny(name, KeywordsOf(Behoerde)) == (ContainsAny(name, AuthorityWords) || Contains(name, "amt"))
  {
    var keywords := KeywordsOf(Behoerde);
    assert keywords[0] == AuthorityWords[0] && keywords[1] == AuthorityWords[1];
    assert keywords[2] == AuthorityWords[2] && keywords[3] == "amt" && keywords[4] == AuthorityWords[3];
  }

  /** "gesamtmiete" holds no authority word, and its only "amt" is the tail of "gesamt". */
  lemma TotalRentNameNoAuthority()
    ensures !ContainsAny("gesamtmiete", AuthorityWords) && !AuthorityAmt("gesamtmiete")
  {
    var name := "gesamtmiete";
    MissingCharsNotContained(name, AuthorityWords, "bbdw");
    forall i | 0 <= i <= |name| && StartsAt(name, "amt", i)
      ensures TailOfGesamt(name, i)
    {
      assert name[i] == 'a';
      assert i == 3;
      assert StartsAt(name, "gesamt", 0);
    }
  }

  /** A name lacks every keyword of `c` when each keyword holds a character,
      given at the same position of `missing`, that the name lacks. */
  lemma KeywordsMissing(name: string, c: Category, missing: string)
    requires |missing| == |KeywordsOf(c)|
    requires forall k | 0 <= k < |missing| :: missing[k] in KeywordsOf(c)[k] && missing[k] !in name
    ensures !ContainsAny(name, KeywordsOf(c))
  {
    MissingCharsNotContained(name, KeywordsOf(c), missing);
  }

  /** A name holding "miete" and no keyword of the four categories between
      BEHOERDE and MIETE is a rent field once it passes the authority test. */
  lemma ChainReachesRent(name: string)
    requires !ContainsAny(name, KeywordsOf(Antragsdaten)) && !ContainsAny(name, KeywordsOf(Person))
    requires !ContainsAny(name, KeywordsOf(Adresse)) && !ContainsAny(name, KeywordsOf(Wohnung))
    requires Contains(name, "miete")
    ensures FirstCategoryFrom(name, 1) == Miete
  {
    assert KeywordsOf(CategoryOrder[5])[0] == "miete";
  }

  // Every keyword of the four categories between BEHOERDE and MIETE holds a
  // letter that "gesamtmiete" lacks.

  lemma TotalRentNameNotApplication()
    ensures !ContainsAny("gesamtmiete", KeywordsOf(Antragsdaten))
  {
    KeywordsMissing("gesamtmiete", Antragsdaten, "rwfkwr");
  }

  lemma TotalRentNameNotPerson()
    ensures !ContainsAny("gesamtmiete", KeywordsOf(Person))
  {
    KeywordsMissing("gesamtmiete", Person, "nvnfbcnwdflvcv");
  }

  lemma TotalRentNameNotAddress()
    ensures !ContainsAny("gesamtmiete", KeywordsOf(Adresse))
  {
    KeywordsMissing("gesamtmiete", Adresse, "rrhhppodwnd");
  }

  lemma TotalRentNameNotDwelling()
    ensures !ContainsAny("gesamtmiete", KeywordsOf(Wohnung))
  {
    KeywordsMissing("gesamtmiete", Wohnung, "wwwzrnbbvr");
  }

  lemma TotalRentNameHoldsRent()
    ensures Contains("gesamtmiete", "miete")
  {
    assert StartsAt("gesamtmiete", "miete", 6);
  }

  /** Past the authority test, "gesamtmiete" is a rent field. */
  lemma TotalRentNameIsRent()
    ensures FirstCategoryFrom("gesamtmiete", 1) == Miete
  {
    TotalRentNameNotApplication();
    TotalRentNameNotPerson();
    TotalRentNameNotAddress();
    TotalRentNameNotDwelling();
    TotalRentNameHoldsRent();
    ChainReachesRent("gesamtmiete");
  }

  /** As written, "gesamtmiete" is filed under BEHOERDE; with the corrected
      authority test it is a rent field. */
  lemma CorrectedTotalRentCategory()
    ensures DetermineCategory("gesamtmiete") == Behoerde
    ensures CorrectedDetermineCategory("gesamtmiete") == Miete
  {
    assert StartsAt("gesamtmiete", "gesamt", 0);
    TotalNamesFiledUnderAuthority("gesamtmiete");
    TotalRentNameNoAuthority();
    TotalRentNameIsRent();
  }

  // ---------------------------------------------------------------------------
  // analyzeField
  // ---------------------------------------------------------------------------

  lemma {:induction false} LowerKeepsShortNameDefined(name: string)
    requires ShortNameDefined(name)
    ensures ShortNameDefined(Lower(name))
  {
    if name != [] && IsSeparator(name[|name| - 1]) {
      LowerKeepsShortNameDefined(name[..|name| - 1]);
      assert Lower(name)[..|name| - 1] == Lower(name[..|name| - 1]);
    }
  }

  /** `analyzeField`: all classification works on the lower-cased name. */
  function AnalyzeField(f: PdfField): (info: FieldInfo)
    ensures info.fullName == f.fullName && info.checkbox == f.isCheckbox && info.currentValue == f.value
    ensures info.sectionNumber <= 20 && info.personNumber <= 10
  {
    var name := Lower(f.fullName);
    FieldInfo(f.fullName, ExtractShortName(name), f.typeName, DetermineCategory(name),
              ExtractSectionNumber(name), ExtractPersonNumber(name), f.isCheckbox, f.value)
  }

  // ---------------------------------------------------------------------------
  // determineValueForField
  // ---------------------------------------------------------------------------

  /** The first of two results that is not null. */
  function OrElse(a: Option<string>, b: Option<string>): Option<string>
  {
    if a.Some? then a else b
  }

  /** The BEHOERDE block: a dummy authority address. */
  function AuthorityDummy(name: string, category: Category): Option<string>
  {
    if category != Behoerde then None
    else if ContainsAny(name, ["name", "bezeichnung"]) && !ContainsAny(name, ["straße", "strasse", "plz", "ort"]) then
      Some("Bezirksamt Mitte von Berlin")
    else if ContainsAny(name, ["straße", "strasse"]) then Some("Karl-Marx-Allee 31")
    else if ContainsAny(name, ["plz"]) then Some("10178")
    else if ContainsAny(name, ["ort"]) then Some("Berlin")
    else None
  }

  /** The application-data rules, tried for every field. */
  function ApplicationDummy(name: string): Option<string>
  {
    if ContainsAny(name, ["wohngeldnummer", "aktenzeichen"]) && !ContainsAny(name, ["datum"]) then Some("")
    else if ContainsAny(name, ["wohngeld ab", "ab datum", "leistung ab", "bewilligung ab"]) then Some("01.01.2026")
    else None
  }

  /** The checkbox block: only "true", "false" or null. */
  function CheckboxDummy(name: string): (r: Option<string>)
    ensures r == None || r == Some("true") || r == Some("false")
  {
    if ContainsAny(name, ["erstantrag"]) && !ContainsAny(name, ["weiter", "folge"]) then Some("true")
    else if ContainsAny(name, ["weiterleistung", "folgeantrag"]) then Some("false")
    else if ContainsAny(name, ["männlich", "maennlich"]) && !ContainsAny(name, ["weiblich"]) then Some("true")
    else if ContainsAny(name, ["weiblich"]) then Some("false")
    else if ContainsAny(name, ["divers"]) then Some("false")
    else if ContainsAny(name, ["ledig"]) && !ContainsAny(name, ["verheiratet", "geschieden"]) then Some("true")
    else if ContainsAny(name, ["verheiratet", "geschieden", "verwitwet", "getrennt", "lebenspartner"]) then Some("false")
    else if ContainsAny(name, ["erwerbstätig", "erwerbstaetig"]) && !ContainsAny(name, ["nicht"]) then Some("true")
    else if ContainsAny(name, ["arbeitslos", "rentner", "student", "schüler", "schueler", "selbständig", "selbststaendig"]) then
      Some("false")
    else None
  }

  /** The person rules for a text field. */
  function PersonDummy(name: string): Option<string>
  {
    if ContainsAny(name, ["familienname", "nachname"]) && !ContainsAny(name, ["vorname", "geburts"]) then Some("Mustermann")
    else if ContainsAny(name, ["vorname"]) && !ContainsAny(name, ["nachname"]) then Some("Max")
    else if ContainsAny(name, ["geburtsdatum", "geb.datum", "geboren am"]) then Some("15.03.1985")
    else if ContainsAny(name, ["geburtsort", "geb.ort"]) then Some("Berlin")
    else if ContainsAny(name, ["staatsangehörigkeit", "staatsangehoerigkeit", "nationalität"]) then Some("deutsch")
    else if ContainsAny(name, ["telefon", "tel."]) then Some("030-12345678")
    else if ContainsAny(name, ["email", "e-mail"]) then Some("max.mustermann@beispiel.de")
    else None
  }

  /** The address rules, consulted only for ADRESSE fields. */
  function AddressDummy(name: string, category: Category): Option<string>
  {
    if category != Adresse then None
    else if ContainsAny(name, ["straße", "strasse", "str."]) && !ContainsAny(name, ["hausnr", "nr"]) then Some("Musterstraße")
    else if ContainsAny(name, ["hausnummer", "hausnr", "haus-nr", "nr."]) then Some("42")
    else if ContainsAny(name, ["postleitzahl", "plz"]) then Some("10115")
    else if ContainsAny(name, ["wohnort", "ort", "stadt"]) && !ContainsAny(name, ["geburts"]) then Some("Berlin")
    else None
  }

  /** The dwelling, rent, income, bank and household rules. */
  function HomeAndMoneyDummy(name: string): Option<string>
  {
    if ContainsAny(name, ["einzug", "bezug", "eingezogen", "seit wann"]) then Some("01.01.2023")
    else if ContainsAny(name, ["wohnfläche", "wohnflaeche", "qm", "größe"]) then Some("65")
    else if ContainsAny(name, ["zimmer", "räume", "raeume"]) && ContainsAny(name, ["anzahl"]) then Some("3")
    else if ContainsAny(name, ["baujahr"]) then Some("1990")
    else if ContainsAny(name, ["vermieter"]) && ContainsAny(name, ["name"]) then Some("Berliner Wohnungsbaugesellschaft mbH")
    else if ContainsAny(name, ["kaltmiete", "grundmiete", "miete ohne"]) then Some("650,00")
    else if ContainsAny(name, ["nebenkosten", "betriebskosten"]) then Some("150,00")
    else if ContainsAny(name, ["heizkosten", "heizung"]) && !ContainsAny(name, ["art"]) then Some("80,00")
    else if ContainsAny(name, ["warmwasser"]) then Some("20,00")
    else if ContainsAny(name, ["gesamtmiete", "warmmiete", "miete gesamt", "insgesamt"]) then Some("900,00")
    else if ContainsAny(name, ["brutto"]) && ContainsAny(name, ["einkommen", "verdienst", "gehalt"]) then Some("2.200,00")
    else if ContainsAny(name, ["netto"]) && ContainsAny(name, ["einkommen", "verdienst", "gehalt"]) then Some("1.800,00")
    else if ContainsAny(name, ["iban"]) then Some("DE89 3704 0044 0532 0130 00")
    else if ContainsAny(name, ["bic"]) then Some("COBADEFFXXX")
    else if ContainsAny(name, ["bank", "kreditinstitut", "geldinstitut"]) then Some("Commerzbank AG")
    else if ContainsAny(name, ["kontoinhaber"]) then Some("Max Mustermann")
    else if ContainsAny(name, ["anzahl"]) && ContainsAny(name, ["person", "haushalt"]) then Some("1")
    else None
  }

  /** `determineValueForField`: the dummy value proposed for a field, null to
      leave it alone. */
  function DetermineValueForField(f: FieldInfo): Option<string>
  {
    var name := Lower(f.fullName);
    if f.personNumber > 1 then None
    else
      var early := OrElse(AuthorityDummy(name, f.category), ApplicationDummy(name));
      if early.Some? then early
      else if f.checkbox then CheckboxDummy(name)
      else OrElse(PersonDummy(name), OrElse(AddressDummy(name, f.category), HomeAndMoneyDummy(name)))
  }

  /** Only the applicant (person 0 or 1) gets values; a checkbox that no
      authority or application-data rule caught gets only "true", "false" or
      null, never a text value. */
  lemma ProposalPolicy(f: FieldInfo)
    ensures f.personNumber > 1 ==> DetermineValueForField(f) == None
    ensures (f.personNumber <= 1 && f.checkbox && AuthorityDummy(Lower(f.fullName), f.category).None? &&
             ApplicationDummy(Lower(f.fullName)).None?) ==>
      var r := DetermineValueForField(f); r == None || r == Some("true") || r == Some("false")
  {
  }

  /** A file-number field is proposed the empty value, not left alone. */
  lemma FileNumberProposedEmpty(f: FieldInfo)
    requires f.personNumber <= 1 && f.category != Behoerde
    requires Contains(Lower(f.fullName), "wohngeldnummer") && !Contains(Lower(f.fullName), "datum")
    ensures DetermineValueForField(f) == Some("")
  {
    assert ContainsAny(Lower(f.fullName), ["wohngeldnummer", "aktenzeichen"]);
    assert !ContainsAny(Lower(f.fullName), ["datum"]);
  }

  // ---------------------------------------------------------------------------
  // createRecommendedMapping
  // ---------------------------------------------------------------------------

  /** The value proposed for each field, in field order. */
  function Proposals(fields: seq<FieldInfo>): (vs: seq<Option<string>>)
    ensures |vs| == |fields|
    ensures forall i | 0 <= i < |fields| :: vs[i] == DetermineValueForField(fields[i])
  {
    seq(|fields|, i requires 0 <= i < |fields| => DetermineValueForField(fields[i]))
  }

  /** The `put` calls for fields with proposed values `values`: the original-case
      full name of each field whose value is not null, in field order. */
  function PutsFor(fields: seq<FieldInfo>, values: seq<Option<string>>): (es: seq<(string, string)>)
    requires |values| == |fields|
    ensures |es| <= |fields|
  {
    if fields == [] then []
    else
      var n := |fields| - 1;
      PutsFor(fields[..n], values[..n]) + (if values[n].Some? then [(fields[n].fullName, values[n].value)] else [])
  }

  /** One more field adds its own `put`, if any, after those of the fields before it. */
  lemma PutsForSnoc(fields: seq<FieldInfo>, values: seq<Option<string>>, i: nat)
    requires |values| == |fields| && i < |fields|
    ensures PutsFor(fields[..i + 1], values[..i + 1]) ==
      PutsFor(fields[..i], values[..i]) + (if values[i].Some? then [(fields[i].fullName, values[i].value)] else [])
  {
    assert fields[..i + 1][..i] == fields[..i] && values[..i + 1][..i] == values[..i];
  }

  /** The `put` calls of `createRecommendedMapping`. */
  function RecommendedEntries(fields: seq<FieldInfo>): seq<(string, string)>
  {
    PutsFor(fields, Proposals(fields))
  }

  /** An entry is put exactly for a field whose value is not null. */
  lemma {:induction false} PutsForEntries(fields: seq<FieldInfo>, values: seq<Option<string>>, k: string, v: string)
    requires |values| == |fields|
    ensures (k, v) in PutsFor(fields, values) <==>
      exists i | 0 <= i < |fields| :: fields[i].fullName == k && values[i] == Some(v)
  {
    if fields != [] {
      var n := |fields| - 1;
      PutsForEntries(fields[..n], values[..n], k, v);
      if (k, v) in PutsFor(fields[..n], values[..n]) {
        var i :| 0 <= i < n && fields[..n][i].fullName == k && values[..n][i] == Some(v);
        assert fields[i].fullName == k && values[i] == Some(v);
      }
      if exists i | 0 <= i < |fields| :: fields[i].fullName == k && values[i] == Some(v) {
        var i :| 0 <= i < |fields| && fields[i].fullName == k && values[i] == Some(v);
        if i < n {
          assert fields[..n][i].fullName == k && values[..n][i] == Some(v);
        }
      }
    }
  }

  /** The recommended mapping has a key exactly for the full names of the
      fields whose proposed value is not null, including the empty value, and
      that key holds the value proposed for one of them. */
  lemma RecommendedMappingKeys(fields: seq<FieldInfo>, k: string)
    ensures Get(FromEntries(RecommendedEntries(fields)), k).Some? <==>
      exists i | 0 <= i < |fields| :: fields[i].fullName == k && DetermineValueForField(fields[i]).Some?
    ensures Get(FromEntries(RecommendedEntries(fields)), k).Some? ==>
      exists i | 0 <= i < |fields| ::
        fields[i].fullName == k && DetermineValueForField(fields[i]) == Get(FromEntries(RecommendedEntries(fields)), k)
  {
    var values := Proposals(fields);
    var es := PutsFor(fields, values);
    GetInsertAll(Empty(), es, k);
    LastValueIsEntry(es, k);
    if LastValue(es, k).Some? {
      var v := LastValue(es, k).value;
      PutsForEntries(fields, values, k, v);
      var i :| 0 <= i < |fields| && fields[i].fullName == k && values[i] == Some(v);
    }
    if exists i | 0 <= i < |fields| :: fields[i].fullName == k && DetermineValueForField(fields[i]).Some? {
      var i :| 0 <= i < |fields| && fields[i].fullName == k && DetermineValueForField(fields[i]).Some?;
      PutsForEntries(fields, values, k, values[i].value);
      var j :| 0 <= j < |es| && es[j] == (k, values[i].value);
    }
  }

  /** With pairwise different full names, the keys of the recommended mapping
      are the full names of the fields with a value, in field order. */
  lemma {:induction false} PutsForKeys(fields: seq<FieldInfo>, values: seq<Option<string>>, k: string)
    requires |values| == |fields|
    ensures (exists i | 0 <= i < |PutsFor(fields, values)| :: PutsFor(fields, values)[i].0 == k) ==>
      exists i | 0 <= i < |fields| :: fields[i].fullName == k
  {
    if fields != [] {
      var n := |fields| - 1;
      var init := PutsFor(fields[..n], values[..n]);
      PutsForKeys(fields[..n], values[..n], k);
      if exists i | 0 <= i < |PutsFor(fields, values)| :: PutsFor(fields, values)[i].0 == k {
        var i :| 0 <= i < |PutsFor(fields, values)| && PutsFor(fields, values)[i].0 == k;
        if i < |init| {
          assert init[i].0 == k;
          var j :| 0 <= j < n && fields[..n][j].fullName == k;
          assert fields[j].fullName == k;
        } else {
          assert fields[n].fullName == k;
        }
      }
    }
  }

  /** The put calls of fields with pairwise different names have pairwise different keys. */
  lemma {:induction false} PutsForDistinct(fields: seq<FieldInfo>, values: seq<Option<string>>)
    requires |values| == |fields|
    requires forall i, j | 0 <= i < j < |fields| :: fields[i].fullName != fields[j].fullName
    ensures KeysDistinct(PutsFor(fields, values))
  {
    if fields != [] {
      var n := |fields| - 1;
      var init := PutsFor(fields[..n], values[..n]);
      PutsForDistinct(fields[..n], values[..n]);
      if values[n].Some? {
        forall i | 0 <= i < |init| ensures init[i].0 != fields[n].fullName {
          var k := init[i].0;
          PutsForKeys(fields[..n], values[..n], k);
          var j :| 0 <= j < n && fields[..n][j].fullName == k;
          assert fields[j].fullName == k;
        }
        var es := PutsFor(fields, values);
        assert es == init + [(fields[n].fullName, values[n].value)];
        forall i, j | 0 <= i < j < |es| ensures es[i].0 != es[j].0 {
          assert es[i] == init[i];
          if j < |init| {
            assert es[j] == init[j];
          }
        }
      } else {
        assert PutsFor(fields, values) == init + [];
        assert init + [] == init;
      }
    }
  }

  predicate KeysDistinct(es: seq<(string, string)>)
  {
    forall i, j | 0 <= i < j < |es| :: es[i].0 != es[j].0
  }

  /** With pairwise different full names, the recommended mapping iterates its
      keys in field order. */
  lemma RecommendedMappingOrder(fields: seq<FieldInfo>)
    requires forall i, j | 0 <= i < j < |fields| :: fields[i].fullName != fields[j].fullName
    ensures FromEntries(RecommendedEntries(fields)).keys == KeysOf(RecommendedEntries(fields))
  {
    var es := RecommendedEntries(fields);
    PutsForDistinct(fields, Proposals(fields));
    InsertAllFreshKeys(Empty(), es);
    assert Empty<string>().keys + KeysOf(es) == KeysOf(es);
  }

  /** `createRecommendedMapping`. */
  method CreateRecommendedMapping(fields: seq<FieldInfo>) returns (mapping: Table<string>)
    ensures mapping.Valid()
    ensures mapping.Model() == FromEntries(RecommendedEntries(fields))
  {
    ghost var values := Proposals(fields);
    mapping := new Table<string>();
    var i := 0;
    while i < |fields|
      invariant 0 <= i <= |fields|
      invariant mapping.Valid()
      invariant mapping.Model() == FromEntries(PutsFor(fields[..i], values[..i]))
    {
      var field := fields[i];
      var value := DetermineValueForField(field);
      ghost var before := PutsFor(fields[..i], values[..i]);
      assert values[i] == value;
      PutsForSnoc(fields, values, i);
      if value.Some? {
        mapping.Put(field.fullName, value.value);
        FromEntriesSnoc(before, (field.fullName, value.value));
        assert mapping.Model() == FromEntries(before + [(field.fullName, value.value)]);
      } else {
        assert before + [] == before;
      }
      assert mapping.Model() == FromEntries(PutsFor(fields[..i + 1], values[..i + 1]));
      i := i + 1;
    }
    assert fields[..i] == fields && values[..i] == values;
  }

  // ---------------------------------------------------------------------------
  // analyzePdf: grouping
  // ---------------------------------------------------------------------------

  /** `map.computeIfAbsent(k, ...).add(f)`. */
  function AddToGroup<K>(m: map<K, seq<FieldInfo>>, k: K, f: FieldInfo): map<K, seq<FieldInfo>>
  {
    m[k := (if k in m then m[k] else []) + [f]]
  }

  /** The group of key `k`, empty when there is none. */
  function GroupOf<K>(m: map<K, seq<FieldInfo>>, k: K): seq<FieldInfo>
  {
    if k in m then m[k] else []
  }

  /** `byCategory` after the fields `fs` have been added in order. */
  function CategoryGroups(fs: seq<FieldInfo>): map<Category, seq<FieldInfo>>
  {
    if fs == [] then map[]
    else AddToGroup(CategoryGroups(fs[..|fs| - 1]), fs[|fs| - 1].category, fs[|fs| - 1])
  }

  /** `bySection` after the fields `fs` have been added in order. */
  function SectionGroups(fs: seq<FieldInfo>): map<nat, seq<FieldInfo>>
  {
    if fs == [] then map[]
    else
      var m := SectionGroups(fs[..|fs| - 1]);
      var f := fs[|fs| - 1];
      if f.sectionNumber > 0 then AddToGroup(m, f.sectionNumber, f) else m
  }

  /** The fields of category `c`, in order: the reference definition of a group. */
  function WithCategory(fs: seq<FieldInfo>, c: Category): (r: seq<FieldInfo>)
    ensures forall i | 0 <= i < |r| :: r[i].category == c
  {
    if fs == [] then []
    else WithCategory(fs[..|fs| - 1], c) + (if fs[|fs| - 1].category == c then [fs[|fs| - 1]] else [])
  }

  /** The fields of section `s`, in order. */
  function WithSection(fs: seq<FieldInfo>, s: nat): (r: seq<FieldInfo>)
    ensures forall i | 0 <= i < |r| :: r[i].sectionNumber == s
  {
    if fs == [] then []
    else WithSection(fs[..|fs| - 1], s) + (if fs[|fs| - 1].sectionNumber == s then [fs[|fs| - 1]] else [])
  }

  /** Each category group holds exactly the fields of that category, in field
      order, and a category has a group exactly when some field has it. */
  lemma {:induction false} CategoryGroupsAreFilters(fs: seq<FieldInfo>, c: Category)
    ensures GroupOf(CategoryGroups(fs), c) == WithCategory(fs, c)
    ensures c in CategoryGroups(fs) <==> WithCategory(fs, c) != []
  {
    if fs != [] {
      CategoryGroupsAreFilters(fs[..|fs| - 1], c);
    }
  }

  /** Each section group holds exactly the fields of that section; section 0
      has no group. */
  lemma {:induction false} SectionGroupsAreFilters(fs: seq<FieldInfo>, s: nat)
    ensures GroupOf(SectionGroups(fs), s) == if s > 0 then WithSection(fs, s) else []
    ensures s in SectionGroups(fs) <==> s > 0 && WithSection(fs, s) != []
  {
    if fs != [] {
      SectionGroupsAreFilters(fs[..|fs| - 1], s);
    }
  }

  /** A field occurs in the group of its own category as often as in the
      list of all fields, and in no other category's group. */
  lemma {:induction false} WithCategoryCounts(fs: seq<FieldInfo>, c: Category, f: FieldInfo)
    ensures multiset(WithCategory(fs, c))[f] == if f.category == c then multiset(fs)[f] else 0
  {
    if fs != [] {
      WithCategoryCounts(fs[..|fs| - 1], c, f);
      assert fs == fs[..|fs| - 1] + [fs[|fs| - 1]];
    }
  }

  lemma {:induction false} WithSectionCount(fs: seq<FieldInfo>, f: FieldInfo)
    ensures multiset(WithSection(fs, f.sectionNumber))[f] == multiset(fs)[f]
  {
    if fs != [] {
      WithSectionCount(fs[..|fs| - 1], f);
      assert fs == fs[..|fs| - 1] + [fs[|fs| - 1]];
    }
  }

  /** A field occurs in the group of its section, as often as in the list of
      all fields, exactly when its section number is positive. */
  lemma SectionGroupCounts(fs: seq<FieldInfo>, f: FieldInfo)
    ensures multiset(GroupOf(SectionGroups(fs), f.sectionNumber))[f] ==
      if f.sectionNumber > 0 then multiset(fs)[f] else 0
  {
    SectionGroupsAreFilters(fs, f.sectionNumber);
    WithSectionCount(fs, f);
  }

  /** The fields of the form, each analysed, in the order of the field tree. */
  function AnalyzeFields(form: seq<PdfField>): (infos: seq<FieldInfo>)
    ensures |infos| == |form|
  {
    if form == [] then [] else AnalyzeFields(form[..|form| - 1]) + [AnalyzeField(form[|form| - 1])]
  }

  /** Position `i` holds the analysis of field `i`. */
  lemma {:induction false} AnalyzeFieldsAt(form: seq<PdfField>, i: nat)
    requires i < |form|
    ensures AnalyzeFields(form)[i] == AnalyzeField(form[i])
  {
    var init := form[..|form| - 1];
    assert AnalyzeFields(form) == AnalyzeFields(init) + [AnalyzeField(form[|form| - 1])];
    if i < |form| - 1 {
      AnalyzeFieldsAt(init, i);
      assert init[i] == form[i];
    }
  }

  /** One more field, one more analysis. */
  lemma AnalyzeFieldsSnoc(form: seq<PdfField>, i: nat)
    requires i < |form|
    ensures AnalyzeFields(form[..i + 1]) == AnalyzeFields(form[..i]) + [AnalyzeField(form[i])]
  {
    assert form[..i + 1][..i] == form[..i];
  }

  /** `AnalysisResult`: the analysis, filled in place by `analyzePdf`. */
  class AnalysisResult {
    var allFields: seq<FieldInfo>
    var byCategory: map<Category, seq<FieldInfo>>
    var bySection: map<nat, seq<FieldInfo>>
    var recommendedMapping: LinkedMap<string>

    constructor ()
      ensures allFields == [] && byCategory == map[] && bySection == map[] && recommendedMapping == Empty()
    {
      allFields, byCategory, bySection, recommendedMapping := [], map[], map[], Empty();
    }

    /** One step of the loop in `analyzePdf`: record the field and group it. */
    method Add(info: FieldInfo)
      modifies this
      ensures allFields == old(allFields) + [info]
      ensures byCategory == AddToGroup(old(byCategory), info.category, info)
      ensures bySection == if info.sectionNumber > 0 then AddToGroup(old(bySection), info.sectionNumber, info) else old(bySection)
      ensures recommendedMapping == old(recommendedMapping)
    {
      allFields := allFields + [info];
      byCategory := AddToGroup(byCategory, info.category, info);
      if info.sectionNumber > 0 {
        bySection := AddToGroup(bySection, info.sectionNumber, info);
      }
    }
  }

  /** The loop of `analyzePdf` over the field tree: each field is analysed,
      recorded and grouped. */
  method CollectFields(result: AnalysisResult, fields: seq<PdfField>)
    requires result.allFields == [] && result.byCategory == map[] && result.bySection == map[]
    modifies result
    ensures result.allFields == AnalyzeFields(fields)
    ensures result.byCategory == CategoryGroups(result.allFields)
    ensures result.bySection == SectionGroups(result.allFields)
    ensures result.recommendedMapping == old(result.recommendedMapping)
  {
    var i := 0;
    while i < |fields|
      invariant 0 <= i <= |fields|
      invariant result.allFields == AnalyzeFields(fields[..i])
      invariant result.byCategory == CategoryGroups(result.allFields)
      invariant result.bySection == SectionGroups(result.allFields)
      invariant result.recommendedMapping == old(result.recommendedMapping)
    {
      var info := AnalyzeField(fields[i]);
      ghost var fs := result.allFields;
      AnalyzeFieldsSnoc(fields, i);
      GroupsStep(fs, info);
      result.Add(info);
      assert result.allFields == fs + [info] == AnalyzeFields(fields[..i + 1]);
      i := i + 1;
    }
    assert fields[..i] == fields;
  }

  /** Adding one field updates the groups as `Add` does. */
  lemma GroupsStep(fs: seq<FieldInfo>, f: FieldInfo)
    ensures CategoryGroups(fs + [f]) == AddToGroup(CategoryGroups(fs), f.category, f)
    ensures SectionGroups(fs + [f]) ==
      if f.sectionNumber > 0 then AddToGroup(SectionGroups(fs), f.sectionNumber, f) else SectionGroups(fs)
  {
    assert (fs + [f])[..|fs|] == fs;
  }

  /** `analyzePdf` after the document has been loaded: `form` is the field tree
      of its AcroForm, `None` when the document has none. */
  method AnalyzePdf(form: Option<seq<PdfField>>) returns (result: AnalysisResult)
    requires form.Some? ==> forall i | 0 <= i < |form.value| :: ShortNameDefined(form.value[i].fullName)
    ensures form.None? ==>
      result.allFields == [] && result.byCategory == map[] && result.bySection == map[] && result.recommendedMapping == Empty()
    ensures form.Some? ==> result.allFields == AnalyzeFields(form.value)
    ensures result.byCategory == CategoryGroups(result.allFields)
    ensures result.bySection == SectionGroups(result.allFields)
    ensures form.Some? ==> result.recommendedMapping == FromEntries(RecommendedEntries(result.allFields))
  {
    result := new AnalysisResult();
    if form.None? {
      return;
    }
    CollectFields(result, form.value);
    var mapping := CreateRecommendedMapping(result.allFields);
    result.recommendedMapping := mapping.Model();
  }

  // ---------------------------------------------------------------------------
  // formatAnalysisReport
  // ---------------------------------------------------------------------------

  const ReportTitle := "=== PDF FELD-ANALYSE ===\n\n"
  const CategoryTitle := "--- Nach Kategorie ---\n"
  const MappingTitle := "\n--- Empfohlenes Mapping ---\n"

  /** "Gesamt: %d Felder", then an empty line. */
  function TotalLine(total: nat): string
  {
    "Gesamt: " + NatToString(total) + " Felder\n\n"
  }

  /** "  - %s [%s]\n" for one field. */
  function FieldLine(f: FieldInfo): string
  {
    "  - " + f.fullName + " [" + f.typeName + "]\n"
  }

  function FieldLines(fs: seq<FieldInfo>): string
  {
    if fs == [] then "" else FieldLines(fs[..|fs| - 1]) + FieldLine(fs[|fs| - 1])
  }

  /** One more field, one more line. */
  lemma FieldLinesSnoc(fs: seq<FieldInfo>, j: nat)
    requires j < |fs|
    ensures FieldLines(fs[..j + 1]) == FieldLines(fs[..j]) + FieldLine(fs[j])
  {
    assert fs[..j + 1][..j] == fs[..j];
  }

  /** "%s: %d Felder\n" for a category. */
  function GroupLine(c: Category, size: nat): string
  {
    Label(c) + ": " + NatToString(size) + " Felder\n"
  }

  /** The category blocks in the iteration order `order` of the hash map. */
  function CategoryBlocks(order: seq<Category>, groups: map<Category, seq<FieldInfo>>): string
    requires forall i | 0 <= i < |order| :: order[i] in groups
  {
    if order == [] then ""
    else
      var c := order[|order| - 1];
      CategoryBlocks(order[..|order| - 1], groups) + GroupLine(c, |groups[c]|) + FieldLines(groups[c])
  }

  /** "%s = %s\n" for one mapping entry. */
  function MappingLine(k: string, v: string): string
  {
    k + " = " + v + "\n"
  }

  /** A line for each mapping entry whose value is not empty, in key order. */
  function MappingLines(keys: seq<string>, values: map<string, string>): string
    requires forall i | 0 <= i < |keys| :: keys[i] in values
  {
    if keys == [] then ""
    else
      MappingLines(keys[..|keys| - 1], values) + EntryLine(keys[|keys| - 1], values)
  }

  /** The line of one entry, empty when its value is empty. */
  function EntryLine(k: string, values: map<string, string>): string
    requires k in values
  {
    if values[k] != "" then MappingLine(k, values[k]) else ""
  }

  lemma MappingLinesSnoc(keys: seq<string>, values: map<string, string>, j: nat)
    requires forall i | 0 <= i < |keys| :: keys[i] in values
    requires j < |keys|
    ensures MappingLines(keys[..j + 1], values) == MappingLines(keys[..j], values) + EntryLine(keys[j], values)
  {
    assert keys[..j + 1][..j] == keys[..j];
  }

  /** Keys whose value is empty contribute no line. */
  lemma {:induction false} MappingLinesAllEmpty(keys: seq<string>, values: map<string, string>)
    requires forall i | 0 <= i < |keys| :: keys[i] in values && values[keys[i]] == ""
    ensures MappingLines(keys, values) == ""
  {
    if keys != [] {
      MappingLinesAllEmpty(keys[..|keys| - 1], values);
    }
  }

  /** Every key with a non-empty value has its line in the report. */
  lemma {:induction false} MappingLinesListNonEmpty(keys: seq<string>, values: map<string, string>, i: int)
    requires forall j | 0 <= j < |keys| :: keys[j] in values
    requires 0 <= i < |keys| && values[keys[i]] != ""
    ensures Contains(MappingLines(keys, values), MappingLine(keys[i], values[keys[i]]))
  {
    var init := MappingLines(keys[..|keys| - 1], values);
    var tail := EntryLine(keys[|keys| - 1], values);
    assert MappingLines(keys, values) == init + tail;
    if i == |keys| - 1 {
      assert StartsAt(init + tail, tail, |init|);
    } else {
      MappingLinesListNonEmpty(keys[..|keys| - 1], values, i);
      ContainsWithin(init, MappingLine(keys[i], values[keys[i]]), "", tail);
      assert "" + init + tail == init + tail;
    }
  }

  /** The whole report for a result whose hash map iterates its categories in `order`. */
  function ReportText(total: nat, order: seq<Category>, groups: map<Category, seq<FieldInfo>>, mapping: LinkedMap<string>): string
    requires forall i | 0 <= i < |order| :: order[i] in groups
    requires WellFormed(mapping)
  {
    ReportTitle + TotalLine(total) + CategoryTitle + CategoryBlocks(order, groups) + MappingTitle +
    MappingLines(mapping.keys, mapping.values)
  }

  lemma StartsWithExtend(s: string, p: string, q: string)
    requires StartsWith(s, p)
    ensures StartsWith(s + q, p)
  {
    assert (s + q)[..|p|] == s[..|p|];
  }

  lemma AppendAssoc(a: string, b: string, c: string)
    ensures a + (b + c) == a + b + c
  {
  }

  /** The report opens with the number of all analysed fields. */
  lemma ReportStartsWithTotal(total: nat, order: seq<Category>, groups: map<Category, seq<FieldInfo>>, mapping: LinkedMap<string>)
    requires forall i | 0 <= i < |order| :: order[i] in groups
    requires WellFormed(mapping)
    ensures StartsWith(ReportText(total, order, groups, mapping), ReportTitle + TotalLine(total))
  {
    var p := ReportTitle + TotalLine(total);
    assert StartsWith(p, p);
    var p1 := p + CategoryTitle;
    StartsWithExtend(p, p, CategoryTitle);
    var p2 := p1 + CategoryBlocks(order, groups);
    StartsWithExtend(p1, p, CategoryBlocks(order, groups));
    var p3 := p2 + MappingTitle;
    StartsWithExtend(p2, p, MappingTitle);
    StartsWithExtend(p3, p, MappingLines(mapping.keys, mapping.values));
  }

  /** Appends the lines of one category group. */
  method AppendGroup(report: string, c: Category, group: seq<FieldInfo>) returns (r: string)
    ensures r == report + GroupLine(c, |group|) + FieldLines(group)
  {
    r := report + GroupLine(c, |group|);
    ghost var start := r;
    var j := 0;
    while j < |group|
      invariant 0 <= j <= |group|
      invariant r == start + FieldLines(group[..j])
    {
      FieldLinesSnoc(group, j);
      AppendAssoc(start, FieldLines(group[..j]), FieldLine(group[j]));
      r := r + FieldLine(group[j]);
      j := j + 1;
    }
    assert group[..j] == group;
  }

  /** Appends the mapping lines, skipping empty values. */
  method AppendMapping(report: string, keys: seq<string>, values: map<string, string>) returns (r: string)
    requires forall i | 0 <= i < |keys| :: keys[i] in values
    ensures r == report + MappingLines(keys, values)
  {
    r := report;
    var k := 0;
    while k < |keys|
      invariant 0 <= k <= |keys|
      invariant r == report + MappingLines(keys[..k], values)
    {
      ghost var done := MappingLines(keys[..k], values);
      MappingLinesSnoc(keys, values, k);
      var v := values[keys[k]];
      if v != "" {
        AppendAssoc(report, done, MappingLine(keys[k], v));
        r := r + MappingLine(keys[k], v);
      } else {
        assert done + "" == done;
      }
      assert r == report + (done + EntryLine(keys[k], values));
      k := k + 1;
    }
    assert keys[..k] == keys;
  }

  lemma CategoryBlocksStep(order: seq<Category>, groups: map<Category, seq<FieldInfo>>, i: nat)
    requires forall j | 0 <= j < |order| :: order[j] in groups
    requires i < |order|
    ensures CategoryBlocks(order[..i + 1], groups) ==
      CategoryBlocks(order[..i], groups) + (GroupLine(order[i], |groups[order[i]]|) + FieldLines(groups[order[i]]))
  {
    assert order[..i + 1][..i] == order[..i];
  }

  /** Appends the category blocks in the order `order`. */
  method AppendCategoryBlocks(report: string, order: seq<Category>, groups: map<Category, seq<FieldInfo>>) returns (r: string)
    requires forall i | 0 <= i < |order| :: order[i] in groups
    ensures r == report + CategoryBlocks(order, groups)
  {
    r := report;
    var i := 0;
    while i < |order|
      invariant 0 <= i <= |order|
      invariant r == report + CategoryBlocks(order[..i], groups)
    {
      var c := order[i];
      ghost var previous := CategoryBlocks(order[..i], groups);
      r := AppendGroup(r, c, groups[c]);
      CategoryBlocksStep(order, groups, i);
      AppendAssoc(report + previous, GroupLine(c, |groups[c]|), FieldLines(groups[c]));
      AppendAssoc(report, previous, GroupLine(c, |groups[c]|) + FieldLines(groups[c]));
      i := i + 1;
    }
    assert order[..i] == order;
  }

  /** `formatAnalysisReport`. Java's `HashMap` iterates `byCategory` in an order
      fixed by the hash codes of the keys; `order` is that order. */
  method FormatAnalysisReport(result: AnalysisResult, order: seq<Category>) returns (report: string)
    requires forall c :: c in result.byCategory <==> c in order
    requires forall i, j | 0 <= i < j < |order| :: order[i] != order[j]
    requires WellFormed(result.recommendedMapping)
    ensures report == ReportText(|result.allFields|, order, result.byCategory, result.recommendedMapping)
  {
    var head := ReportTitle + TotalLine(|result.allFields|) + CategoryTitle;
    var blocks := AppendCategoryBlocks(head, order, result.byCategory);
    report := AppendMapping(blocks + MappingTitle, result.recommendedMapping.keys, result.recommendedMapping.values);
  }
}
