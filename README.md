# Wohngeld application form filler — a Dafny model of its core

The service behind this model fills the official German housing-benefit
application form (the "Wohngeldantrag", a PDF AcroForm) from a JSON request.
Its core, modelled here, is:

- `WohngeldAntragMapper`: converts the API request (DTO records) into the
  internal request model. It normalizes gender, marital status, employment
  status and tenancy type. It estimates the cold rent from the total rent.
  It converts every income entry to a monthly amount and sums them. It strips
  whitespace from the IBAN.
- `Miete.getGesamtmiete`: the total rent is either the explicit total or the
  sum of its four parts.
- `PdfFieldMapper`: builds the ordered table (a `LinkedHashMap`) from PDF
  field name to value, section by section. It fills in checkboxes for
  application type, gender, marital status, employment, tenancy and the
  yes/no questions, the rent questions, four income slots, 33 IBAN character
  boxes and the additional questions.
- `PdfService`: the fill pass over the form's field tree. Each field name is
  looked up in the table, first directly and then by a normalized spelling.
  The value is written into the field if the value is usable for that field
  type. Fields found and fields filled are counted. The class also holds the
  keyword-driven "intelligent" filler (`getCheckboxValue`,
  `getValueForField`) and `fillFieldIntelligently`.
- `PdfFieldAnalyzer`: classifies each form field. It takes the short name,
  the section number, the person number and the category from the field's
  full name, and groups the fields by category and by section. It proposes
  a dummy value per field (the recommended mapping) and renders a text
  report.

Module layout:

| file | module | contents |
|---|---|---|
| `wrappers.dfy` | `Wrappers` | `Option` |
| `text.dfy` | `Text` | the `java.lang.String` operations the code relies on: `contains`, `replace`, case mapping over ASCII and umlauts, `replaceAll("\\s", "")`, integer rendering, "%.2f" with HALF_UP rounding |
| `domain.dfy` | `Domain` | the internal request records, with `Option` for nullable fields; `Miete.getGesamtmiete` |
| `dto.dfy` | `Dto` | the API request records |
| `field_table.dfy` | `FieldTable` | `LinkedHashMap<String, V>`: the value `LinkedMap` (key order plus map) and the class `Table` that is filled in place |
| `antrag_mapper.dfy` | `AntragMapper` | `WohngeldAntragMapper` |
| `pdf_field_mapper.dfy` | `PdfFieldMapper` | `PdfFieldMapper` |
| `pdf_field_analyzer.dfy` | `FieldAnalyzer` | `PdfFieldAnalyzer` |
| `pdf_service.dfy` | `PdfService` | `PdfService`; the AcroForm as the class `Form` |

Code that builds values from other values is modelled as functions, with
lemmas stating its properties. Code that changes state is modelled with
methods:

- `PdfFieldMapper.createFieldMapping` puts entries into a `Table`. Each
  method is proved to leave exactly the table that a pure list of `put`
  calls yields.
- `PdfFieldAnalyzer.analyzePdf` fills an `AnalysisResult` object.
- `PdfFieldAnalyzer.createRecommendedMapping` fills a `Table`.
- `PdfFieldAnalyzer.formatAnalysisReport` appends to a string builder.
- `PdfService.fillPdf` writes into a `Form` object.

## Model

| member | source | states |
|---|---|---|
| Domain.MieteOf | src/main/java/com/wohngeld/model/Miete.java:14-30 | a rent built from a cold rent and a total gets 0.0 for service charges, heating and hot water (the `@Builder.Default` values) |
| Domain.GetGesamtmiete | src/main/java/com/wohngeld/model/Miete.java:34-39 | the explicit total when it is set, otherwise the sum of cold rent, service charges, heating and hot water |
| Domain.GesamtmieteOfKaltmiete | src/main/java/com/wohngeld/model/Miete.java:20-39 | with only the cold rent given, the defaults make the total readable and equal to the cold rent |
| Domain.GesamtmieteCoversParts | src/main/java/com/wohngeld/model/Miete.java:16-39 | with all parts non-negative (the `@PositiveOrZero` constraints), a summed total is at least each of its four parts |
| AntragMapper.GeschlechtAliasValues | src/main/java/com/wohngeld/mapper/WohngeldAntragMapper.java:167-170 | every recognised gender spelling maps to one of "maennlich", "weiblich", "divers" |
| AntragMapper.GeschlechtFixed | src/main/java/com/wohngeld/mapper/WohngeldAntragMapper.java:167-170 | each canonical gender, upper-cased, is recognised as itself |
| AntragMapper.GeschlechtCanonical | src/main/java/com/wohngeld/mapper/WohngeldAntragMapper.java:165-173 | every result (null default, alias or lower-cased fallback) has no capital letter, and normalizing it again gives it back |
| AntragMapper.GeschlechtIgnoresCase | src/main/java/com/wohngeld/mapper/WohngeldAntragMapper.java:165-173 | two inputs equal ignoring case normalize to the same gender |
| AntragMapper.FamilienstandAliasValues | src/main/java/com/wohngeld/mapper/WohngeldAntragMapper.java:177-183 | every recognised marital spelling maps to one of the six canonical states |
| AntragMapper.FamilienstandFixed | src/main/java/com/wohngeld/mapper/WohngeldAntragMapper.java:178-180 | "ledig", "verheiratet" and "geschieden", upper-cased, are recognised as themselves |
| AntragMapper.FamilienstandFixedSeparated | src/main/java/com/wohngeld/mapper/WohngeldAntragMapper.java:181-182 | "verwitwet" and "getrennt lebend", upper-cased, are recognised as themselves |
| AntragMapper.FamilienstandPartnershipNoAlias | src/main/java/com/wohngeld/mapper/WohngeldAntragMapper.java:183-184 | the canonical "eingetragene Lebenspartnerschaft" is not among the recognised spellings (those use an underscore), so a second pass lower-cases it |
| AntragMapper.FamilienstandCanonical | src/main/java/com/wohngeld/mapper/WohngeldAntragMapper.java:175-186 | every result other than the registered partnership has no capital letter and is a fixed point; the partnership is lower-cased by a second pass |
| AntragMapper.FamilienstandAliasFixed | src/main/java/com/wohngeld/mapper/WohngeldAntragMapper.java:177-183 | every alias other than the partnership leads to a lower-case value that is its own alias |
| AntragMapper.FamilienstandIgnoresCase | src/main/java/com/wohngeld/mapper/WohngeldAntragMapper.java:175-186 | two inputs equal ignoring case normalize to the same state |
| AntragMapper.ErwerbsstatusAliasValues | src/main/java/com/wohngeld/mapper/WohngeldAntragMapper.java:190-196 | every recognised employment spelling maps to one of the six canonical states |
| AntragMapper.ErwerbsstatusFixed | src/main/java/com/wohngeld/mapper/WohngeldAntragMapper.java:191-193 | "erwerbstaetig", "arbeitslos" and "rentner", upper-cased, are recognised as themselves |
| AntragMapper.ErwerbsstatusFixedEducation | src/main/java/com/wohngeld/mapper/WohngeldAntragMapper.java:194-196 | "student", "schueler" and "selbststaendig", upper-cased, are recognised as themselves |
| AntragMapper.ErwerbsstatusCanonical | src/main/java/com/wohngeld/mapper/WohngeldAntragMapper.java:188-199 | every result has no capital letter, and normalizing it again gives it back |
| AntragMapper.ErwerbsstatusAliasFixed | src/main/java/com/wohngeld/mapper/WohngeldAntragMapper.java:190-196 | every alias leads to a lower-case value that is its own alias |
| AntragMapper.ErwerbsstatusIgnoresCase | src/main/java/com/wohngeld/mapper/WohngeldAntragMapper.java:188-199 | two inputs equal ignoring case normalize to the same state |
| AntragMapper.WohnverhaeltnisCanonical | src/main/java/com/wohngeld/mapper/WohngeldAntragMapper.java:72-81 | every result (null default, alias or upper-cased fallback) has no lower-case letter, and normalizing it again gives it back |
| AntragMapper.WohnverhaeltnisIgnoresCase | src/main/java/com/wohngeld/mapper/WohngeldAntragMapper.java:72-81 | two inputs equal ignoring case normalize to the same tenancy type |
| AntragMapper.CalculateKaltmiete | src/main/java/com/wohngeld/mapper/WohngeldAntragMapper.java:93-106 | the estimate is the total minus heating and hot water (each only when given and not included) and other costs, floored at 0 |
| AntragMapper.KaltmieteBounds | src/main/java/com/wohngeld/mapper/WohngeldAntragMapper.java:93-106 | with non-negative costs the estimate never exceeds a non-negative total, and declaring heating as included never lowers it |
| AntragMapper.MapMiete | src/main/java/com/wohngeld/mapper/WohngeldAntragMapper.java:83-91 | the internal rent carries the given total and the estimated cold rent, and copies other costs as service charges, heating and hot-water costs, so `getGesamtmiete` returns the given total |
| AntragMapper.ConvertToMonthly | src/main/java/com/wohngeld/mapper/WohngeldAntragMapper.java:133-134 | a null amount counts as 0 |
| AntragMapper.ConvertToMonthlyScales | src/main/java/com/wohngeld/mapper/WohngeldAntragMapper.java:133-140 | a yearly amount is divided by 12 and a daily amount multiplied by 30; any other interval keeps the amount; non-negative stays non-negative |
| AntragMapper.ConvertToMonthlyIgnoresCase | src/main/java/com/wohngeld/mapper/WohngeldAntragMapper.java:133-140 | the interval is matched ignoring case |
| AntragMapper.MonthlySumAppend | src/main/java/com/wohngeld/mapper/WohngeldAntragMapper.java:110-112 | the stream sum of monthly amounts splits over concatenated income lists |
| AntragMapper.MonthlySumCovers | src/main/java/com/wohngeld/mapper/WohngeldAntragMapper.java:110-112 | with non-negative amounts the monthly total is at least each entry's monthly amount |
| AntragMapper.MapEinkommen | src/main/java/com/wohngeld/mapper/WohngeldAntragMapper.java:108-131 | the entries are copied in order (type, amount, interval); gross is the monthly sum and net equals gross; the three deduction flags are copied; other income, child benefit and maintenance keep their default of 0.0 |
| AntragMapper.MapBankverbindung | src/main/java/com/wohngeld/mapper/WohngeldAntragMapper.java:142-152 | the IBAN holds no whitespace; the account holder is "surname, first name"; bank and BIC are copied |
| AntragMapper.CleanIbanStable | src/main/java/com/wohngeld/mapper/WohngeldAntragMapper.java:144 | the cleaned IBAN is the input without whitespace, cleaning it again changes nothing, and an IBAN without whitespace is kept as it is |
| AntragMapper.MapAntragsteller | src/main/java/com/wohngeld/mapper/WohngeldAntragMapper.java:33-47 | the salutation keeps its default "Herr"; names, birth data, nationality, phone and e-mail are copied; gender, marital and employment status are the normalized API values, and gender and employment come out without capital letters |
| AntragMapper.MapAdresse | src/main/java/com/wohngeld/mapper/WohngeldAntragMapper.java:49-57 | street, house number, postcode, town and federal state (`bundesland`) are copied |
| AntragMapper.MapWohnung | src/main/java/com/wohngeld/mapper/WohngeldAntragMapper.java:59-70 | area, move-in date, rooms, construction year and landlord name are copied; heating type and landlord address stay null; the tenancy type is the normalized API value, without lower-case letters; the two yes/no answers are boxed |
| AntragMapper.MapAntragDaten | src/main/java/com/wohngeld/mapper/WohngeldAntragMapper.java:154-161 | first-application flag, Wohngeld number, start date and application date are copied; the four authority fields stay null |
| AntragMapper.ToInternal | src/main/java/com/wohngeld/mapper/WohngeldAntragMapper.java:20-31 | every section is the result of its own mapper (applicant, address, dwelling, rent, income, bank, application data); the salutation is the default "Herr"; other income, child benefit and maintenance are 0.0; the surname, the estimated cold rent, the monthly gross income and the cleaned IBAN come from the request; the household is one person |
| AntragMapper.ToInternalCanonical | src/main/java/com/wohngeld/mapper/WohngeldAntragMapper.java:20-81 | the converted request has a readable total rent equal to the given total, and its gender, employment and tenancy strings are fixed points of their normalizers |
| PdfFieldMapper.FormatCurrency | src/main/java/com/wohngeld/service/PdfFieldMapper.java:357-367 | null exactly for null; otherwise "%.2f" with a decimal comma (`formatNumber` is the same function) |
| PdfFieldMapper.NormalizeValue | src/main/java/com/wohngeld/service/PdfFieldMapper.java:336-337 | null exactly for null |
| PdfFieldMapper.NormalizeValueIsNormal | src/main/java/com/wohngeld/service/PdfFieldMapper.java:338-345 | the result has no capital letter, no umlaut, no 'ß', no space, hyphen or underscore |
| PdfFieldMapper.NormalizeValueFixpoint | src/main/java/com/wohngeld/service/PdfFieldMapper.java:336-346 | a string already in that form is its own normalization |
| PdfFieldMapper.NormalizeViaLower | src/main/java/com/wohngeld/service/PdfFieldMapper.java:336-346 | a value whose lower case is already normal (for example "Geschieden") normalizes to that lower case |
| PdfFieldMapper.NormalizeValueIdempotent | src/main/java/com/wohngeld/service/PdfFieldMapper.java:336-346 | normalizing twice is normalizing once |
| PdfFieldMapper.NormalizeTurnus | src/main/java/com/wohngeld/service/PdfFieldMapper.java:348-355 | the result is one of "monatlich", "jährlich", "täglich"; "monatlich" for null and for any interval containing "monat"; "jährlich" exactly when there is no "monat" but "jahr" or "annual"; "täglich" exactly when there is none of those but "tag" or "daily" (tested on the lower-cased interval) |
| PdfFieldMapper.NormalizeTurnusMissesYearly | src/main/java/com/wohngeld/service/PdfFieldMapper.java:350-354 | as written, "jährlich" and the API's "JAEHRLICH" are written as "monatlich" |
| PdfFieldMapper.NormalizeTurnusMissesDaily | src/main/java/com/wohngeld/service/PdfFieldMapper.java:350-354 | as written, "täglich" and the API's "TAEGLICH" are written as "monatlich" |
| PdfFieldMapper.CorrectedNormalizeTurnus | src/main/java/com/wohngeld/service/PdfFieldMapper.java:348-355 | intended behaviour: one of the three form spellings; "monatlich" for any interval containing "monat"; "jährlich" exactly when there is no "monat" but "jahr", "jähr", "jaehr" or "annual"; "täglich" exactly when there is none of those but "tag", "täg", "taeg" or "daily"; every yearly answer of the original stays yearly and no daily answer turns monthly |
| PdfFieldMapper.CorrectedAgreesWithoutUmlautStems | src/main/java/com/wohngeld/service/PdfFieldMapper.java:348-355 | the corrected function and the one as written agree on every interval without "jähr", "jaehr", "täg" or "taeg" |
| PdfFieldMapper.CorrectedNormalizeTurnusFixpoint | src/main/java/com/wohngeld/service/PdfFieldMapper.java:348-355 | each of the three spellings it writes is read back as itself |
| PdfFieldMapper.CorrectedNormalizeTurnusApiNames | src/main/java/com/wohngeld/service/PdfFieldMapper.java:348-355 | the API names "MONATLICH", "JAEHRLICH", "TAEGLICH" map to the matching form spelling |
| PdfFieldMapper.AntragstypComplement | src/main/java/com/wohngeld/service/PdfFieldMapper.java:44-56 | the first-application and continuation boxes are complements; the Wohngeld number is written exactly for a continuation application that has one, and holds it |
| PdfFieldMapper.GenderExclusive | src/main/java/com/wohngeld/service/PdfFieldMapper.java:71-76 | at most one gender box is ticked, and none without a gender |
| PdfFieldMapper.MaritalEqualityBoxesExclusive | src/main/java/com/wohngeld/service/PdfFieldMapper.java:78-86 | the marital boxes decided by equality exclude each other, and none is ticked without a status |
| PdfFieldMapper.MaritalCanonicalTicksOne | src/main/java/com/wohngeld/service/PdfFieldMapper.java:78-86 | each of the six marital states the application mapper produces (`normalizeFamilienstand`, WohngeldAntragMapper.java:175-186), passed through `normalizeValue`, ticks its own box and no other: "ledig" → ledig, "verheiratet" → verheiratet, "geschieden" → geschieden, "verwitwet" → verwitwet, "getrennt lebend" → getrenntlebend, "eingetragene Lebenspartnerschaft" → eingLebenspartner |
| PdfFieldMapper.MaritalDivorced | src/main/java/com/wohngeld/service/PdfFieldMapper.java:79-86 | a divorced applicant ticks the divorced box and no other |
| PdfFieldMapper.NormalizeTwoWords | src/main/java/com/wohngeld/service/PdfFieldMapper.java:336-346 | two words joined by one space normalize to both words lower-cased and run together |
| PdfFieldMapper.MaritalPartnershipOverlap | src/main/java/com/wohngeld/service/PdfFieldMapper.java:83-86 | the substring tests overlap: "nichtehelichelebenspartnerschaft" ticks the registered-partnership box as well as the unmarried-partnership box |
| PdfFieldMapper.EmploymentExclusive | src/main/java/com/wohngeld/service/PdfFieldMapper.java:88-95 | at most one employment box is ticked, and none without a status |
| PdfFieldMapper.SelbstNotListed | src/main/java/com/wohngeld/service/PdfFieldMapper.java:90-95 | a status containing "selbst" equals none of the values the other employment boxes test for |
| PdfFieldMapper.HousingExclusive | src/main/java/com/wohngeld/service/PdfFieldMapper.java:121-126 | at most one tenancy box is ticked, and none without a tenancy type |
| PdfFieldMapper.WohnungYesNoComplement | src/main/java/com/wohngeld/service/PdfFieldMapper.java:128-136 | the landlord-relation and subsidy questions get complementary Nein/Ja boxes; a missing answer counts as Nein |
| PdfFieldMapper.CostQuestionAnswer | src/main/java/com/wohngeld/service/PdfFieldMapper.java:147-163 | a heating or hot-water question is answered Nein unless the amount is positive, "Ja, in rent" is never ticked, and the amount is written with a decimal comma exactly when positive |
| PdfFieldMapper.RentDefaults | src/main/java/com/wohngeld/service/PdfFieldMapper.java:165-189 | each constant rent question is answered by ticking its Nein box only |
| PdfFieldMapper.NumberedKeyInjective | src/main/java/com/wohngeld/service/PdfFieldMapper.java:205-207 | slot field names built from different numbers or different suffixes differ |
| PdfFieldMapper.IncomeSlotsLookup | src/main/java/com/wohngeld/service/PdfFieldMapper.java:202-208 | after N loop passes, slot field n holds entry n's data (type, formatted amount, interval through `normalizeTurnus` as written) for 1 <= n <= N and nothing otherwise |
| PdfFieldMapper.IncomeSlotLookup | src/main/java/com/wohngeld/service/PdfFieldMapper.java:203-207 | one loop pass writes only the three fields of its own slot |
| PdfFieldMapper.IncomeRowsLookup | src/main/java/com/wohngeld/service/PdfFieldMapper.java:201-208 | with a non-empty income list, slot n shows entry n (type, formatted amount, interval through `normalizeTurnus` as written) for the first min(4, size) entries; further entries are dropped |
| PdfFieldMapper.YearlyIncomeWrittenMonthly | src/main/java/com/wohngeld/service/PdfFieldMapper.java:201-208 | as written, a first income entry paid "JAEHRLICH" shows "monatlich" in its interval field |
| PdfFieldMapper.IncomeRowsFallback | src/main/java/com/wohngeld/service/PdfFieldMapper.java:209-216 | without an income list, a positive monthly gross fills slot 1 with "Einkommen", the amount and "monatlich" |
| PdfFieldMapper.IbanCharsLookup | src/main/java/com/wohngeld/service/PdfFieldMapper.java:237-239 | after N loop passes, IBAN box n holds character n for 1 <= n <= N and is not written otherwise |
| PdfFieldMapper.IbanRowsLookup | src/main/java/com/wohngeld/service/PdfFieldMapper.java:233-240 | IBAN box n holds the n-th non-whitespace character for n up to min(33, length) and is absent otherwise |
| PdfFieldMapper.PutIbanChars | src/main/java/com/wohngeld/service/PdfFieldMapper.java:237-239 | the loop leaves the table that the min(33, length) character puts yield |
| PdfFieldMapper.PutIncomeSlots | src/main/java/com/wohngeld/service/PdfFieldMapper.java:202-208 | the loop leaves the table that the three puts (type, amount, interval as written) of each of the min(4, size) slots yield |
| PdfFieldMapper.PutIncomeSlot | src/main/java/com/wohngeld/service/PdfFieldMapper.java:203-207 | one pass adds the three puts of its slot: type, formatted amount and the interval through `normalizeTurnus` as written |
| PdfFieldMapper.MapEinkommen | src/main/java/com/wohngeld/service/PdfFieldMapper.java:192-223 | the table grows by the income section's puts: names, slots (interval through `normalizeTurnus` as written) or fallback, then the three deduction boxes; nothing without an applicant |
| PdfFieldMapper.MapBankverbindung | src/main/java/com/wohngeld/service/PdfFieldMapper.java:225-255 | the table grows by the bank section's puts: payment boxes, IBAN boxes, bank name, holder name and address |
| PdfFieldMapper.NeinJaAll | src/main/java/com/wohngeld/service/PdfFieldMapper.java:257-329 | every default yes/no question ticks its Nein box and leaves its Ja box unticked |
| PdfFieldMapper.ZusatzfragenEntries | src/main/java/com/wohngeld/service/PdfFieldMapper.java:257-332 | all additional questions are answered Nein, the other boxes stay unticked, and the consent box is ticked |
| PdfFieldMapper.FieldMappingZusatzfragen | src/main/java/com/wohngeld/service/PdfFieldMapper.java:29-42 | in the finished table, every additional-question box is ticked exactly when it is a Nein box or the consent box (the last section wins) |
| PdfFieldMapper.CreateFieldMapping | src/main/java/com/wohngeld/service/PdfFieldMapper.java:29-42 | a fresh table filled by the eight sections in order equals the table that all their puts yield, with the code's own normalizers |
| FieldAnalyzer.ContainsAny | src/main/java/com/wohngeld/service/PdfFieldAnalyzer.java:415-422 | true exactly when some keyword occurs in the text |
| FieldAnalyzer.ShortNameIsLastRun | src/main/java/com/wohngeld/service/PdfFieldAnalyzer.java:116-120 | the short name has no '.' or '_', ends the name once trailing separators are dropped, and is preceded there by a separator or the start; it is non-empty for a non-empty name |
| FieldAnalyzer.ShortNameIsLastPart | src/main/java/com/wohngeld/service/PdfFieldAnalyzer.java:116-120 | the short name is the last element of the array that `split("[._]")` returns |
| FieldAnalyzer.ScanSections | src/main/java/com/wohngeld/service/PdfFieldAnalyzer.java:125-129 | the loop returns the first section from `from` to 20 that the name mentions, 0 if none |
| FieldAnalyzer.LetterSection | src/main/java/com/wohngeld/service/PdfFieldAnalyzer.java:132-138 | the first letter rule that matches, "a." to "e." giving 1 to 5, and 0 if none |
| FieldAnalyzer.ExtractSectionNumber | src/main/java/com/wohngeld/service/PdfFieldAnalyzer.java:122-139 | the section is at most 20 |
| FieldAnalyzer.SectionNumberIsFirstMentioned | src/main/java/com/wohngeld/service/PdfFieldAnalyzer.java:122-139 | the smallest section mentioned; the letter rules decide only when none is mentioned |
| FieldAnalyzer.SectionTwelveReadsAsOne | src/main/java/com/wohngeld/service/PdfFieldAnalyzer.java:125-127 | "abschnitt 12" is placed in section 1, since it contains "abschnitt 1" |
| FieldAnalyzer.ScanPersons | src/main/java/com/wohngeld/service/PdfFieldAnalyzer.java:143-149 | the loop returns the first person from `from` to 10 that the name mentions, 0 if none |
| FieldAnalyzer.ExtractPersonNumber | src/main/java/com/wohngeld/service/PdfFieldAnalyzer.java:141-155 | the person is at most 10 |
| FieldAnalyzer.PersonNumberIsFirstMentioned | src/main/java/com/wohngeld/service/PdfFieldAnalyzer.java:141-155 | the smallest person mentioned; otherwise 1 for "antragsteller", 2 for "ehegatte" or "partner", else 0 |
| FieldAnalyzer.PersonTenReadsAsOne | src/main/java/com/wohngeld/service/PdfFieldAnalyzer.java:143-148 | "person 10" is read as person 1, since it contains "person 1" |
| FieldAnalyzer.FirstCategoryFromMatches | src/main/java/com/wohngeld/service/PdfFieldAnalyzer.java:157-217 | resumed at position i, the if-chain answers a matching category at or after i, and every category between i and the answer was tried and missed |
| FieldAnalyzer.DetermineCategoryFirstMatch | src/main/java/com/wohngeld/service/PdfFieldAnalyzer.java:157-217 | the category is the first one in the chain whose keywords occur in the name, and SONSTIGE exactly when no keyword list matches |
| FieldAnalyzer.TotalNamesFiledUnderAuthority | src/main/java/com/wohngeld/service/PdfFieldAnalyzer.java:157-160 | as written, every name containing "gesamt" is filed under BEHOERDE, because "amt" occurs inside "gesamt" |
| FieldAnalyzer.CorrectedDetermineCategory | src/main/java/com/wohngeld/service/PdfFieldAnalyzer.java:157-217 | intended behaviour: BEHOERDE exactly when the name holds an authority word, or "amt" other than as the tail of "gesamt"; it differs from the chain as written only on names filed under BEHOERDE that contain "gesamt", and otherwise answers as the chain does |
| FieldAnalyzer.CorrectedTotalRentCategory | src/main/java/com/wohngeld/service/PdfFieldAnalyzer.java:157-200 | "gesamtmiete" is BEHOERDE as written and MIETE once corrected |
| FieldAnalyzer.AnalyzeField | src/main/java/com/wohngeld/service/PdfFieldAnalyzer.java:93-114 | full name, checkbox flag and current value are copied; section at most 20, person at most 10 |
| FieldAnalyzer.CheckboxDummy | src/main/java/com/wohngeld/service/PdfFieldAnalyzer.java:276-310 | the checkbox block proposes only "true", "false" or null |
| FieldAnalyzer.ProposalPolicy | src/main/java/com/wohngeld/service/PdfFieldAnalyzer.java:241-310 | nothing is proposed for persons above 1; a checkbox that no authority or application rule answers is proposed "true", "false" or nothing |
| FieldAnalyzer.FileNumberProposedEmpty | src/main/java/com/wohngeld/service/PdfFieldAnalyzer.java:267-269 | a file-number field outside BEHOERDE that is not a date gets the empty value, not null |
| FieldAnalyzer.Proposals | src/main/java/com/wohngeld/service/PdfFieldAnalyzer.java:225-228 | one proposal per field, in field order |
| FieldAnalyzer.PutsForEntries | src/main/java/com/wohngeld/service/PdfFieldAnalyzer.java:225-233 | a pair is put exactly when some field has that full name and that non-null proposal |
| FieldAnalyzer.RecommendedMappingKeys | src/main/java/com/wohngeld/service/PdfFieldAnalyzer.java:222-236 | a name is a key of the recommended mapping exactly when some field with that name has a proposal, and its value is one such proposal |
| FieldAnalyzer.PutsForDistinct | src/main/java/com/wohngeld/service/PdfFieldAnalyzer.java:225-233 | fields with pairwise different names give puts with pairwise different keys |
| FieldAnalyzer.RecommendedMappingOrder | src/main/java/com/wohngeld/service/PdfFieldAnalyzer.java:222-236 | with pairwise different names, the mapping iterates its keys in field order |
| FieldAnalyzer.CreateRecommendedMapping | src/main/java/com/wohngeld/service/PdfFieldAnalyzer.java:222-236 | the loop leaves the map that the puts of the fields with a non-null proposal yield |
| FieldAnalyzer.CategoryGroupsAreFilters | src/main/java/com/wohngeld/service/PdfFieldAnalyzer.java:69-72 | each category group holds exactly that category's fields in field order; a category has a group exactly when some field has it |
| FieldAnalyzer.SectionGroupsAreFilters | src/main/java/com/wohngeld/service/PdfFieldAnalyzer.java:74-79 | each section group holds exactly that section's fields; section 0 has no group |
| FieldAnalyzer.WithCategoryCounts | src/main/java/com/wohngeld/service/PdfFieldAnalyzer.java:69-72 | a field occurs in its own category's group as often as among all fields and in no other category's group, and as often in the filter of its section |
| FieldAnalyzer.SectionGroupCounts | src/main/java/com/wohngeld/service/PdfFieldAnalyzer.java:74-79 | a field occurs in its section's group as often as among all fields exactly when its section is positive |
| FieldAnalyzer.AnalyzeFieldsAt | src/main/java/com/wohngeld/service/PdfFieldAnalyzer.java:65-67 | position i of the field list holds the analysis of field i |
| FieldAnalyzer.AnalysisResult.Add | src/main/java/com/wohngeld/service/PdfFieldAnalyzer.java:66-79 | one loop pass: the field is appended to all fields, to its category group and, for a positive section, to its section group |
| FieldAnalyzer.CollectFields | src/main/java/com/wohngeld/service/PdfFieldAnalyzer.java:65-80 | the loop leaves all fields analysed in order, grouped by category and by section |
| FieldAnalyzer.GroupsStep | src/main/java/com/wohngeld/service/PdfFieldAnalyzer.java:69-79 | adding one field updates the groups as `computeIfAbsent(...).add` does |
| FieldAnalyzer.AnalyzePdf | src/main/java/com/wohngeld/service/PdfFieldAnalyzer.java:53-88 | without an AcroForm the result is empty; otherwise all fields analysed in order, grouped, and the recommended mapping built from them |
| FieldAnalyzer.MappingLinesAllEmpty | src/main/java/com/wohngeld/service/PdfFieldAnalyzer.java:443-447 | entries with an empty value contribute no report line |
| FieldAnalyzer.MappingLinesListNonEmpty | src/main/java/com/wohngeld/service/PdfFieldAnalyzer.java:443-447 | every entry with a non-empty value has its "key = value" line in the report |
| FieldAnalyzer.ReportStartsWithTotal | src/main/java/com/wohngeld/service/PdfFieldAnalyzer.java:429-431 | the report opens with its title and the number of all analysed fields |
| FieldAnalyzer.AppendGroup | src/main/java/com/wohngeld/service/PdfFieldAnalyzer.java:436-439 | one category block: the count line, then one line per field |
| FieldAnalyzer.AppendMapping | src/main/java/com/wohngeld/service/PdfFieldAnalyzer.java:443-447 | the mapping lines, skipping empty values |
| FieldAnalyzer.AppendCategoryBlocks | src/main/java/com/wohngeld/service/PdfFieldAnalyzer.java:435-440 | the category blocks in iteration order |
| FieldAnalyzer.FormatAnalysisReport | src/main/java/com/wohngeld/service/PdfFieldAnalyzer.java:427-450 | the report is title, total, category blocks in the map's iteration order, then the mapping lines |
| PdfService.KeepFieldNameChars | src/main/java/com/wohngeld/service/PdfService.java:149 | the result holds only `[a-zA-Z0-9_-]` and is no longer than the input |
| PdfService.NormalizeFieldName | src/main/java/com/wohngeld/service/PdfService.java:141-150 | the result holds only `[a-zA-Z0-9_-]` |
| PdfService.NormalizeFieldNameKeeps | src/main/java/com/wohngeld/service/PdfService.java:141-150 | a name made only of `[a-zA-Z0-9_-]` is its own normal form; case is kept |
| PdfService.NormalizeFieldNameIdempotent | src/main/java/com/wohngeld/service/PdfService.java:141-150 | normalizing twice is normalizing once |
| PdfService.NormalizeFieldNameSpelled | src/main/java/com/wohngeld/service/PdfService.java:141-150 | without the replacement character, the normal form is the name spelled character by character: umlauts and 'ß' spelled out, other characters outside the class dropped |
| PdfService.EncodingRepairLost | src/main/java/com/wohngeld/service/PdfService.java:146-149 | the garbled 'ß' is repaired to 'ß' after 'ß' has already been spelled out, so it is then removed and never matches the "ss" of a proper 'ß' |
| PdfService.UmlautMatchesSpelledForm | src/main/java/com/wohngeld/service/PdfService.java:141-150 | a name with 'ö' and its spelling with "oe" have the same normal form |
| PdfService.FirstNormalizedValueAt | src/main/java/com/wohngeld/service/PdfService.java:129-135 | the scan returns the value of the first key with the target normal form, and null when there is none |
| PdfService.MappedValueLookup | src/main/java/com/wohngeld/service/PdfService.java:121-136 | a present key gives its own value; otherwise the first key in insertion order with the same normal form decides; with none the result is null |
| PdfService.FindMappingValue | src/main/java/com/wohngeld/service/PdfService.java:121-136 | the loop returns the value that the direct lookup, then the ordered scan, finds |
| PdfService.WriteOf | src/main/java/com/wohngeld/service/PdfService.java:155-171 | a checkbox is ticked exactly for `true` or a text equal to "true" ignoring case; a text field receives the value's text exactly when it is neither empty nor "null" |
| PdfService.Form.FillField | src/main/java/com/wohngeld/service/PdfService.java:155-176 | the field is written as `WriteOf` says unless the write fails (the caught IOException); the result tells whether it was written; no other field changes |
| PdfService.Form.FillFieldIntelligently | src/main/java/com/wohngeld/service/PdfService.java:188-215 | the field is written as `IntelligentWrite` says unless the write fails; the result tells whether it was written |
| PdfService.FoundValuesAt | src/main/java/com/wohngeld/service/PdfService.java:88-92 | the value looked up for field i is `findMappingValue` of its full name |
| PdfService.LookUpFields | src/main/java/com/wohngeld/service/PdfService.java:88-92 | the loop looks up every field's value in field order |
| PdfService.WrittenPositionsAre | src/main/java/com/wohngeld/service/PdfService.java:94-100 | the written positions are exactly those whose value is non-null, whose write applies and does not fail |
| PdfService.FilledCountCountsWrites | src/main/java/com/wohngeld/service/PdfService.java:94-100 | `fieldsFilled` counts the fields written, each once |
| PdfService.FilledAfterAt | src/main/java/com/wohngeld/service/PdfService.java:88-101 | a written field holds what its value asked for; every other field keeps its earlier content |
| PdfService.CheckboxStaysTicked | src/main/java/com/wohngeld/service/PdfService.java:155-171 | a ticked box stays ticked; a checkbox receives nothing but a tick; no text field receives an empty or "null" text |
| PdfService.FillFields | src/main/java/com/wohngeld/service/PdfService.java:81-102 | the two loops count every field and write each field whose value is non-null, as `fillField` does |
| PdfService.FillPdf | src/main/java/com/wohngeld/service/PdfService.java:65-116 | at most as many fields filled as found; nothing without an AcroForm; otherwise the counts and contents of the fill pass over the table that `createFieldMapping` built |
| PdfService.ApplicationTypeComplement | src/main/java/com/wohngeld/service/PdfService.java:242-251 | a first-application box and a continuation box always get opposite answers |
| PdfService.GenderExclusive | src/main/java/com/wohngeld/service/PdfService.java:254-265 | for a given gender, at most one of the three options holds |
| PdfService.GenderBoxesExclusive | src/main/java/com/wohngeld/service/PdfService.java:254-265 | two gender boxes ticked for the same applicant are boxes for the same option |
| PdfService.MaritalExclusive | src/main/java/com/wohngeld/service/PdfService.java:269-283 | the four options tested by equality exclude each other |
| PdfService.EmploymentExclusive | src/main/java/com/wohngeld/service/PdfService.java:293-314 | for a given employment status, at most one of the six options holds |
| PdfService.UnknownCheckboxUntouched | src/main/java/com/wohngeld/service/PdfService.java:237-318 | a box whose name contains none of the opening keywords is left alone (null), whatever the request holds |
| PdfService.Currency | src/main/java/com/wohngeld/service/PdfService.java:502-506 | null exactly for null, and otherwise the same text as the field mapper's `formatCurrency` |
| PdfService.GetValueForField | src/main/java/com/wohngeld/service/PdfService.java:324-488 | the value of the first rule that applies, null when none does |
| PdfService.AuthorityFieldsFromAuthority | src/main/java/com/wohngeld/service/PdfService.java:335-349 | with application data present, a field in BEHOERDE is always answered from the authority's four attributes |
| PdfService.AuthorityIgnoresHomeAddress | src/main/java/com/wohngeld/service/PdfService.java:389-407 | the applicant's home address never answers a field in BEHOERDE |
| PdfService.RentWordsOfTotal | src/main/java/com/wohngeld/service/PdfService.java:429-445 | "gesamtmiete" opens only the total-rent rule of the rent block |
| PdfService.TotalRentField | src/main/java/com/wohngeld/service/PdfService.java:429-445 | for every readable rent, a field named "gesamtmiete" in any category other than BEHOERDE, or in any category when the request has no application data, receives the total rent with two decimals and a decimal comma: the stored total, or the sum of the four parts when none is stored; whatever else the request holds |
| PdfService.TotalRentFieldGetsAuthorityName | src/main/java/com/wohngeld/service/PdfService.java:334-347 | as written, with application data present, a field named "gesamtmiete" in the category the analyzer gives it receives the housing-benefit authority's name, not the rent |
| PdfService.CorrectedTotalRentField | src/main/java/com/wohngeld/service/PdfService.java:429-445 | in the corrected category, a field named "gesamtmiete" receives the total rent with two decimals and a decimal comma for every readable rent, with or without application data |
| PdfService.IntelligentWrite | src/main/java/com/wohngeld/service/PdfService.java:188-231 | nothing for persons above 1; a checkbox is ticked exactly when `getCheckboxValue` says true; a text field receives `getValueForField` exactly when it is non-empty |
| PdfService.HouseholdCountWritten | src/main/java/com/wohngeld/service/PdfService.java:481-484 | for every household, a household-size field receives the person count in decimal, or the text "null" when the count is missing |

## Left out

- File system and PDF library: resolving the template path and extracting it
  to a temporary file, creating the output directory, loading and saving the
  document, and the output path, timestamp and file name of the result are
  not modelled. The form is a value given to `PdfService.FillPdf`. A write
  that raises `IOException` is modelled by a set of failing field positions.
- `analyzeTemplate`, `getFormFields`, `findFieldInfo` and
  `getDefaultTemplatePath` are not part of this model. They only load a
  document or search a list.
- The REST controller, the e-mail service, logging and bean validation are
  not part of this model.
- Money and area amounts are `Double` in Java. The model uses exact `real`
  numbers, and "%.2f"/"%.0f" use HALF_UP rounding on them. Binary
  floating-point rounding is not modelled.
- Case mapping covers ASCII letters and the German umlauts only. 'ß'
  upper-cases to "SS" as in Java. Other Unicode case rules are not modelled.
- PdfService.FillPdf: the values are looked up for all fields before the
  first write, while Java interleaves lookup and write. This is the same
  thing, because the lookup reads only the field table, never the form.
  `PdfService.LookUpFields` states that order.
- FieldAnalyzer.AnalyzePdf: each field is analysed inside the collecting loop
  as in Java. The recommended mapping is built after the loop, from the
  collected fields.
- FieldAnalyzer.FormatAnalysisReport: the iteration order of the category
  `HashMap` depends on hash codes. The model takes that order as a parameter
  and does not compute it.
- FieldAnalyzer.AnalyzePdf requires every field name to be empty or to hold
  a character other than '.' and '_'. Otherwise Java's `split` returns an
  empty array and `extractShortName` throws. That exception is not modelled.
- Domain.GetGesamtmiete requires the total or all four parts to be present.
  Otherwise unboxing a null part throws `NullPointerException`, which is not
  modelled. `PdfFieldMapper.CreateFieldMapping` and `PdfService.FillPdf`
  carry the same condition on the request's rent.
- PdfService.FillPdf requires an applicant. `generateOutputPath` dereferences
  the applicant's surname, and the resulting exception is not modelled.
- PdfService.GetValueForField: requires the rent to be readable whenever the
  name contains a total-rent keyword, even when an earlier rule would answer
  first. This is stronger than Java, which only fails if the total-rent rule
  is actually reached.
- PdfService.GetCheckboxValue: the unused `category` argument of
  `getCheckboxValue` is dropped.
- `fillFieldIntelligently` is modelled (`PdfService.Form.FillFieldIntelligently`)
  but `fillPdf` does not call it, as in Java.
- Where the code and its documentation disagree on whether field names are
  lower-cased before matching, the model follows the code:
  `normalizeFieldName` keeps case.
- `PdfService.GetValueForField` and the analyzer keep the category test as
  written. `FieldAnalyzer.CorrectedDetermineCategory` states the intended
  category (see Findings) and is used only by `PdfService.CorrectedTotalRentField`.
- The field table follows the code as written: its interval fields go
  through `PdfFieldMapper.NormalizeTurnus`. `PdfFieldMapper.CorrectedNormalizeTurnus`
  states the intended behaviour (see Findings) and is not used by the table.

## Findings

| source | as written | input that shows it | evidently intended | confidence | as-written member | corrected member |
|---|---|---|---|---|---|---|
| src/main/java/com/wohngeld/service/PdfFieldMapper.java:348-355 | `normalizeTurnus` tests for "jahr" and "tag". The internal spelling "jährlich" and the API name "JAEHRLICH" (lower-cased "jaehrlich") contain neither, and likewise "täglich"/"TAEGLICH". So a yearly or daily income is written to the form as "monatlich". | "JAEHRLICH", "jährlich", "TAEGLICH", "täglich" | yearly and daily intervals written as "jährlich" and "täglich" | not executed | PdfFieldMapper.YearlyIncomeWrittenMonthly | PdfFieldMapper.CorrectedNormalizeTurnusApiNames |
| src/main/java/com/wohngeld/service/PdfFieldAnalyzer.java:157-160 | `determineCategory` tests for "amt" before any other category, and "amt" occurs inside "gesamt". So every total field ("gesamtmiete", "gesamteinkommen") is filed under BEHOERDE, and with application data `getValueForField` (PdfService.java:334-347) answers it with the authority's name. | field "gesamtmiete" with application data present | the total rent, from the rent block | not executed | PdfService.TotalRentFieldGetsAuthorityName | PdfService.CorrectedTotalRentField |
