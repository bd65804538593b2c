/**
 * PdfService: the binding engine. `fillPdf` counts the fields of the form,
 * looks each field's name up in the table built by `createFieldMapping`
 * (exactly, then after `normalizeFieldName`) and writes the value it finds
 * with `fillField`. The keyword resolvers `getCheckboxValue` and
 * `getValueForField`, used by `fillFieldIntelligently`, decide a value for
 * a classified field from the application record alone.
 *
 * The form is a `Form` object: its field descriptors, the fields whose
 * write fails with an IOException, and a map from field position to what
 * the engine has written there.
 */
module PdfService {
  import opened Wrappers
  import opened Text
  import opened Domain
  import opened FieldTable
  import Mapper = PdfFieldMapper
  import Analyzer = FieldAnalyzer

  // ---------------------------------------------------------------------------
  // normalizeFieldName
  // ---------------------------------------------------------------------------

  /** The characters of `[a-zA-Z0-9_-]`. */
  predicate IsFieldNameChar(c: char)
  {
    ('a' <= c <= 'z') || ('A' <= c <= 'Z') || ('0' <= c <= '9') || c == '_' || c == '-'
  }

  predicate IsFieldName(s: string)
  {
    forall i :: 0 <= i < |s| ==> IsFieldNameChar(s[i])
  }

  /** `replaceAll("[^a-zA-Z0-9_-]", "")`. */
  function KeepFieldNameChars(s: string): (r: string)
    ensures IsFieldName(r) && |r| <= |s|
  {
    if s == [] then []
    else (if IsFieldNameChar(s[0]) then [s[0]] else []) + KeepFieldNameChars(s[1..])
  }

  /** The `replace(pattern, replacement)` calls of `normalizeFieldName`, in
      order: umlauts and 'ß' become two-letter spellings (the second round of
      lower-case umlauts finds nothing left to replace); then the two
      "encoding error" repairs turn a replacement character followed by '?'
      into 'ß' and two replacement characters into 'ä'. */
  const UmlautSpellings: seq<(string, string)> :=
    [("ä", "ae"), ("Ä", "Ae"), ("ö", "oe"), ("Ö", "Oe"), ("ü", "ue"), ("Ü", "Ue"), ("ß", "ss"),
     ("ä", "ae"), ("ö", "oe"), ("ü", "ue")]

  /** The Unicode replacement character that a wrong decoding leaves behind. */
  const Garbled: char := '\U{FFFD}'

  const EncodingRepairs: seq<(string, string)> := [([Garbled, '?'], "ß"), ([Garbled, Garbled], "ä")]

  predicate NonEmptyPatterns(ps: seq<(string, string)>)
  {
    forall k :: 0 <= k < |ps| ==> |ps[k].0| > 0
  }

  lemma PatternsNonEmpty()
    ensures NonEmptyPatterns(UmlautSpellings) && NonEmptyPatterns(EncodingRepairs)
  {
    assert forall k :: 0 <= k < |UmlautSpellings| ==> |UmlautSpellings[k].0| == 1;
  }

  /** A chain of `replace` calls. */
  function ReplaceEach(s: string, ps: seq<(string, string)>): string
    requires NonEmptyPatterns(ps)
    decreases |ps|
  {
    if ps == [] then s else ReplaceEach(ReplaceAll(s, ps[0].0, ps[0].1), ps[1..])
  }

  /** The first ten `replace` calls of `normalizeFieldName`. */
  function SpellUmlauts(s: string): string
  {
    PatternsNonEmpty();
    ReplaceEach(s, UmlautSpellings)
  }

  /** The two encoding repairs of `normalizeFieldName`. */
  function RepairEncoding(s: string): string
  {
    PatternsNonEmpty();
    ReplaceEach(s, EncodingRepairs)
  }

  /** `normalizeFieldName`: umlauts spelled out, encoding repairs, then every
      character outside `[a-zA-Z0-9_-]` removed. Case is kept. */
  function NormalizeFieldName(name: string): (r: string)
    ensures IsFieldName(r)
  {
    KeepFieldNameChars(RepairEncoding(SpellUmlauts(name)))
  }

  lemma {:induction false} KeepFieldNameCharsKeeps(s: string)
    requires IsFieldName(s)
    ensures KeepFieldNameChars(s) == s
  {
    if s != [] {
      KeepFieldNameCharsKeeps(s[1..]);
      assert s == [s[0]] + s[1..];
    }
  }

  /** A name made only of `[a-zA-Z0-9_-]` is its own normal form: letters
      keep their case, '_' and '-' stay. */
  lemma NormalizeFieldNameKeeps(s: string)
    requires IsFieldName(s)
    ensures NormalizeFieldName(s) == s
  {
    ReplacementsShape();
    ReplaceEachAbsent(s, UmlautSpellings);
    ReplaceEachAbsent(s, EncodingRepairs);
    KeepFieldNameCharsKeeps(s);
  }

  /** Normalizing twice is normalizing once. */
  lemma NormalizeFieldNameIdempotent(s: string)
    ensures NormalizeFieldName(NormalizeFieldName(s)) == NormalizeFieldName(s)
  {
    NormalizeFieldNameKeeps(NormalizeFieldName(s));
  }

  /** What one character of a name contributes to its normal form. */
  function Spelling(c: char): (r: string)
    ensures IsFieldName(r)
  {
    if c == 'ä' then "ae" else if c == 'Ä' then "Ae"
    else if c == 'ö' then "oe" else if c == 'Ö' then "Oe"
    else if c == 'ü' then "ue" else if c == 'Ü' then "Ue"
    else if c == 'ß' then "ss"
    else if IsFieldNameChar(c) then [c] else []
  }

  /** The normal form defined character by character. */
  function SpelledName(s: string): (r: string)
    ensures IsFieldName(r)
  {
    if s == [] then [] else Spelling(s[0]) + SpelledName(s[1..])
  }

  predicate IsUmlaut(c: char)
  {
    c == 'ä' || c == 'Ä' || c == 'ö' || c == 'Ö' || c == 'ü' || c == 'Ü' || c == 'ß'
  }

  /** Patterns of one character each. */
  predicate OneCharPatterns(ps: seq<(string, string)>)
  {
    forall k :: 0 <= k < |ps| ==> |ps[k].0| == 1
  }

  /** The umlaut spellings replace one umlaut each by two field-name
      characters; the encoding repairs start with the replacement character. */
  lemma ReplacementsShape()
    ensures OneCharPatterns(UmlautSpellings) && NonEmptyPatterns(UmlautSpellings)
    ensures forall k :: 0 <= k < |UmlautSpellings| ==> IsUmlaut(UmlautSpellings[k].0[0]) && IsFieldName(UmlautSpellings[k].1)
    ensures NonEmptyPatterns(EncodingRepairs)
    ensures forall k :: 0 <= k < |EncodingRepairs| ==> EncodingRepairs[k].0[0] == Garbled
  {
    forall k | 0 <= k < |UmlautSpellings|
      ensures |UmlautSpellings[k].0| == 1 && IsUmlaut(UmlautSpellings[k].0[0]) && IsFieldName(UmlautSpellings[k].1)
    {
      if k == 0 {} else if k == 1 {} else if k == 2 {} else if k == 3 {} else if k == 4 {}
      else if k == 5 {} else if k == 6 {} else if k == 7 {} else if k == 8 {} else {}
    }
  }

  /** A chain of replacements whose patterns all start with characters that
      `s` lacks leaves `s` as it is. */
  lemma {:induction false} ReplaceEachAbsent(s: string, ps: seq<(string, string)>)
    requires NonEmptyPatterns(ps)
    requires forall k :: 0 <= k < |ps| ==> ps[k].0[0] !in s
    ensures ReplaceEach(s, ps) == s
    decreases |ps|
  {
    if ps != [] {
      ReplaceAllAbsent(s, ps[0].0, ps[0].1);
      assert forall k :: 0 <= k < |ps| - 1 ==> ps[1..][k] == ps[k + 1];
      ReplaceEachAbsent(s, ps[1..]);
    }
  }

  /** One-character replacements work on each part of a concatenation separately. */
  lemma {:induction false} ReplaceEachAppend(a: string, b: string, ps: seq<(string, string)>)
    requires OneCharPatterns(ps)
    ensures NonEmptyPatterns(ps)
    ensures ReplaceEach(a + b, ps) == ReplaceEach(a, ps) + ReplaceEach(b, ps)
    decreases |ps|
  {
    if ps != [] {
      ReplaceAllOneCharAppend(a, b, ps[0].0, ps[0].1);
      assert forall k :: 0 <= k < |ps| - 1 ==> ps[1..][k] == ps[k + 1];
      ReplaceEachAppend(ReplaceAll(a, ps[0].0, ps[0].1), ReplaceAll(b, ps[0].0, ps[0].1), ps[1..]);
    }
  }

  /** Every character of the result comes from the input or from a replacement. */
  lemma {:induction false} ReplaceEachChars(s: string, ps: seq<(string, string)>, c: char)
    requires NonEmptyPatterns(ps)
    requires c in ReplaceEach(s, ps)
    ensures c in s || exists k :: 0 <= k < |ps| && c in ps[k].1
    decreases |ps|
  {
    if ps != [] {
      var t := ReplaceAll(s, ps[0].0, ps[0].1);
      assert forall k :: 0 <= k < |ps| - 1 ==> ps[1..][k] == ps[k + 1];
      ReplaceEachChars(t, ps[1..], c);
      if c in t {
        ReplaceAllChars(s, ps[0].0, ps[0].1, c);
      }
    }
  }

  /** What the umlaut spellings make of one character: the replacement of the
      first pattern equal to it, or the character itself. */
  function SpellOut(c: char, ps: seq<(string, string)>): string
  {
    if ps == [] then [c] else if ps[0].0 == [c] then ps[0].1 else SpellOut(c, ps[1..])
  }

  /** Replacements that introduce no pattern character act on a single
      character by its first matching pattern. */
  lemma {:induction false} ReplaceEachOne(c: char, ps: seq<(string, string)>)
    requires OneCharPatterns(ps)
    requires forall k, j :: 0 <= k < |ps| && 0 <= j < |ps| ==> ps[j].0[0] !in ps[k].1
    ensures NonEmptyPatterns(ps)
    ensures ReplaceEach([c], ps) == SpellOut(c, ps)
    decreases |ps|
  {
    if ps != [] {
      var rest := ps[1..];
      assert forall k :: 0 <= k < |rest| ==> rest[k] == ps[k + 1];
      if ps[0].0 == [c] {
        assert ReplaceAll([c], ps[0].0, ps[0].1) == ps[0].1 by {
          assert [c][..1] == ps[0].0;
          assert [c][1..] == [];
        }
        ReplaceEachAbsent(ps[0].1, rest);
      } else {
        assert ReplaceAll([c], ps[0].0, ps[0].1) == [c] by {
          assert [c][..1] == [c];
          assert [c][1..] == [];
        }
        ReplaceEachOne(c, rest);
      }
    }
  }

  lemma {:induction false} KeepFieldNameCharsAppend(a: string, b: string)
    ensures KeepFieldNameChars(a + b) == KeepFieldNameChars(a) + KeepFieldNameChars(b)
  {
    if a != [] {
      assert (a + b)[1..] == a[1..] + b;
      KeepFieldNameCharsAppend(a[1..], b);
    } else {
      assert a + b == b;
    }
  }

  lemma {:induction false} SpellOutAbsent(c: char, ps: seq<(string, string)>)
    requires forall k :: 0 <= k < |ps| ==> ps[k].0 != [c]
    ensures SpellOut(c, ps) == [c]
  {
    if ps != [] {
      assert forall k :: 0 <= k < |ps| - 1 ==> ps[1..][k] == ps[k + 1];
      SpellOutAbsent(c, ps[1..]);
    }
  }

  lemma {:induction false} SpellOutAt(c: char, ps: seq<(string, string)>, k: nat)
    requires k < |ps| && ps[k].0 == [c]
    requires forall j :: 0 <= j < k ==> ps[j].0 != [c]
    ensures SpellOut(c, ps) == ps[k].1
  {
    if k > 0 {
      assert forall j :: 0 <= j < |ps| - 1 ==> ps[1..][j] == ps[j + 1];
      SpellOutAt(c, ps[1..], k - 1);
    }
  }

  lemma SpellOutSpelling(c: char)
    ensures KeepFieldNameChars(SpellOut(c, UmlautSpellings)) == Spelling(c)
  {
    var u := UmlautSpellings;
    ReplacementsShape();
    if !IsUmlaut(c) {
      forall k | 0 <= k < |u| ensures u[k].0 != [c] {
        assert u[k].0[0] != c;
      }
      SpellOutAbsent(c, u);
      if IsFieldNameChar(c) {
        KeepFieldNameCharsKeeps([c]);
      }
    } else {
      var k := if c == 'ä' then 0 else if c == 'Ä' then 1 else if c == 'ö' then 2 else if c == 'Ö' then 3
        else if c == 'ü' then 4 else if c == 'Ü' then 5 else 6;
      SpellOutAt(c, u, k);
      KeepFieldNameCharsKeeps(u[k].1);
    }
  }

  /** Without replacement characters in the name the encoding repairs find nothing. */
  lemma RepairsIdle(s: string)
    requires Garbled !in s
    ensures NormalizeFieldName(s) == KeepFieldNameChars(SpellUmlauts(s))
  {
    ReplacementsShape();
    var w := SpellUmlauts(s);
    if Garbled in w {
      ReplaceEachChars(s, UmlautSpellings, Garbled);
      assert false;
    }
    ReplaceEachAbsent(w, EncodingRepairs);
  }

  /** The umlaut spellings, followed by the removal of other characters, are
      the spelling character by character. */
  lemma {:induction false} SpelledByCharacter(s: string)
    ensures KeepFieldNameChars(SpellUmlauts(s)) == SpelledName(s)
  {
    ReplacementsShape();
    var u := UmlautSpellings;
    if s == [] {
      ReplaceEachAbsent(s, u);
    } else {
      var head, tail := [s[0]], s[1..];
      assert head + tail == s;
      ReplaceEachAppend(head, tail, u);
      NoPatternInSpellings();
      ReplaceEachOne(s[0], u);
      var h, t := SpellOut(s[0], u), ReplaceEach(tail, u);
      assert ReplaceEach(s, u) == h + t;
      KeepFieldNameCharsAppend(h, t);
      SpellOutSpelling(s[0]);
      SpelledByCharacter(tail);
    }
  }

  lemma NoPatternInSpellings()
    ensures forall k, j :: 0 <= k < |UmlautSpellings| && 0 <= j < |UmlautSpellings| ==>
      UmlautSpellings[j].0[0] !in UmlautSpellings[k].1
  {
    ReplacementsShape();
    var u := UmlautSpellings;
    forall k, j | 0 <= k < |u| && 0 <= j < |u| ensures u[j].0[0] !in u[k].1 {
      assert IsUmlaut(u[j].0[0]) && IsFieldName(u[k].1);
    }
  }

  /** Without replacement characters in the name, `normalizeFieldName` is the
      character-by-character spelling: each umlaut or 'ß' becomes its
      two-letter form, `[a-zA-Z0-9_-]` stays as it is, and every other
      character is dropped. */
  lemma NormalizeFieldNameSpelled(s: string)
    requires Garbled !in s
    ensures NormalizeFieldName(s) == SpelledName(s)
  {
    RepairsIdle(s);
    SpelledByCharacter(s);
  }

  /** The encoding repairs are undone by the final clean-up: a garbled 'ß'
      (a replacement character followed by '?') becomes 'ß' and is then
      removed, so it never matches the "ss" that a proper 'ß' normalizes to. */
  lemma EncodingRepairLost(garbled: string, sharpS: string)
    requires garbled == [Garbled, '?'] && sharpS == "ß"
    ensures NormalizeFieldName(garbled) == []
    ensures NormalizeFieldName(sharpS) == "ss"
  {
    SharpSSpelled('ß');
    assert sharpS == ['ß'];
    GarbledSharpSRepaired(garbled);
    SharpSRemoved(['ß']);
  }

  /** The garbled 'ß' survives the umlaut spellings and is repaired to 'ß'. */
  lemma GarbledSharpSRepaired(garbled: string)
    requires garbled == [Garbled, '?']
    ensures RepairEncoding(SpellUmlauts(garbled)) == ['ß']
  {
    SpellingsSkip(garbled);
    RepairSharpS(garbled);
  }

  lemma SpellingsSkip(s: string)
    requires forall i :: 0 <= i < |s| ==> !IsUmlaut(s[i])
    ensures SpellUmlauts(s) == s
  {
    ReplacementsShape();
    ReplaceEachAbsent(s, UmlautSpellings);
  }

  lemma RepairSharpS(garbled: string)
    requires garbled == [Garbled, '?']
    ensures RepairEncoding(garbled) == ['ß']
  {
    var repairs := EncodingRepairs;
    assert NonEmptyPatterns(repairs);
    ReplaceAllWhole(garbled, ['ß']);
    assert ReplaceEach(garbled, repairs) == ReplaceEach(['ß'], repairs[1..]);
    assert repairs[1..][0].0[0] == Garbled;
    ReplaceEachAbsent(['ß'], repairs[1..]);
  }

  lemma SharpSRemoved(s: string)
    requires s == ['ß']
    ensures KeepFieldNameChars(s) == []
  {
    assert s[1..] == [];
  }

  lemma ReplaceAllWhole(s: string, rep: string)
    requires |s| > 0
    ensures ReplaceAll(s, s, rep) == rep
  {
    assert s[..|s|] == s;
    assert s[|s|..] == [];
    assert rep + [] == rep;
  }

  lemma SharpSSpelled(c: char)
    requires c == 'ß'
    ensures NormalizeFieldName([c]) == "ss"
  {
    assert Spelling(c) == "ss";
    SpelledNameOne(c);
    NormalizeFieldNameSpelled([c]);
  }

  lemma SpelledNameOne(c: char)
    ensures SpelledName([c]) == Spelling(c)
  {
    assert [c][1..] == [];
  }

  lemma {:induction false} SpelledNameAppend(a: string, b: string)
    ensures SpelledName(a + b) == SpelledName(a) + SpelledName(b)
  {
    if a != [] {
      assert (a + b)[1..] == a[1..] + b;
      SpelledNameAppend(a[1..], b);
    } else {
      assert a + b == b;
    }
  }

  lemma {:induction false} SpelledNameKeeps(s: string)
    requires IsFieldName(s)
    ensures SpelledName(s) == s
  {
    if s != [] {
      SpelledNameKeeps(s[1..]);
      assert s == [s[0]] + s[1..];
    }
  }

  /** A form field spelled with an umlaut normalizes like a key spelled with
      its two-letter form (for example "WohnungGefördertNein" and
      "WohnungGefoerdertNein"). */
  lemma UmlautMatchesSpelledForm(pre: string, post: string)
    requires IsFieldName(pre) && IsFieldName(post)
    ensures NormalizeFieldName(pre + "ö" + post) == pre + "oe" + post
    ensures NormalizeFieldName(pre + "oe" + post) == pre + "oe" + post
  {
    var umlaut, spelled := pre + "ö" + post, pre + "oe" + post;
    assert Garbled !in umlaut by {
      assert forall i :: 0 <= i < |umlaut| ==> umlaut[i] == 'ö' || IsFieldNameChar(umlaut[i]);
    }
    assert IsFieldName(spelled) by {
      assert forall i :: 0 <= i < |spelled| ==> IsFieldNameChar(spelled[i]);
    }
    SpelledNameOne('ö');
    assert "ö" == ['ö'];
    SpelledNameAppend(pre, "ö");
    SpelledNameAppend(pre + "ö", post);
    SpelledNameKeeps(pre);
    SpelledNameKeeps(post);
    assert SpelledName(umlaut) == spelled;
    NormalizeFieldNameSpelled(umlaut);
    NormalizeFieldNameKeeps(spelled);
  }

  // ---------------------------------------------------------------------------
  // findMappingValue
  // ---------------------------------------------------------------------------

  /** The value of the first of `keys` whose normal form is `target`, or
      null: the loop of `findMappingValue` over the entries in insertion
      order. */
  function FirstNormalizedValue(keys: seq<string>, values: map<string, Mapper.Value>, target: string): Mapper.Value
    requires forall k :: k in keys ==> k in values
  {
    if keys == [] then Mapper.Null
    else if NormalizeFieldName(keys[0]) == target then values[keys[0]]
    else FirstNormalizedValue(keys[1..], values, target)
  }

  /** What `findMappingValue` returns, `Null` for Java's `null`: the value of
      the exact key if there is one (even a null value), otherwise the value
      of the first key in insertion order whose normal form is the field
      name's, otherwise null. */
  function MappedValue(mapping: LinkedMap<Mapper.Value>, fieldName: string): Mapper.Value
    requires WellFormed(mapping)
  {
    if fieldName in mapping.values then mapping.values[fieldName]
    else FirstNormalizedValue(mapping.keys, mapping.values, NormalizeFieldName(fieldName))
  }

  /** The scan finds the first key of the target normal form, and nothing
      when no key has it. */
  lemma {:induction false} FirstNormalizedValueAt(keys: seq<string>, values: map<string, Mapper.Value>, target: string, i: nat)
    requires forall k :: k in keys ==> k in values
    ensures i < |keys| && NormalizeFieldName(keys[i]) == target &&
            (forall j :: 0 <= j < i ==> NormalizeFieldName(keys[j]) != target) ==>
      FirstNormalizedValue(keys, values, target) == values[keys[i]]
    ensures (forall j :: 0 <= j < |keys| ==> NormalizeFieldName(keys[j]) != target) ==>
      FirstNormalizedValue(keys, values, target) == Mapper.Null
  {
    if keys != [] {
      var rest := keys[1..];
      assert forall j :: 0 <= j < |rest| ==> rest[j] == keys[j + 1];
      FirstNormalizedValueAt(rest, values, target, if i == 0 then 0 else i - 1);
    }
  }

  /** The exact key wins; a field name whose spelling has drifted from its
      key still finds that key's value when no earlier key normalizes alike;
      with no key of the same normal form the result is null. */
  lemma MappedValueLookup(mapping: LinkedMap<Mapper.Value>, fieldName: string, i: nat)
    requires WellFormed(mapping)
    ensures fieldName in mapping.values ==> MappedValue(mapping, fieldName) == mapping.values[fieldName]
    ensures fieldName !in mapping.values && i < |mapping.keys| &&
            NormalizeFieldName(mapping.keys[i]) == NormalizeFieldName(fieldName) &&
            (forall j :: 0 <= j < i ==> NormalizeFieldName(mapping.keys[j]) != NormalizeFieldName(fieldName)) ==>
      MappedValue(mapping, fieldName) == mapping.values[mapping.keys[i]]
    ensures fieldName !in mapping.values &&
            (forall j :: 0 <= j < |mapping.keys| ==> NormalizeFieldName(mapping.keys[j]) != NormalizeFieldName(fieldName)) ==>
      MappedValue(mapping, fieldName) == Mapper.Null
  {
    FirstNormalizedValueAt(mapping.keys, mapping.values, NormalizeFieldName(fieldName), i);
  }

  /** `findMappingValue`: a direct `containsKey`, then a scan of the entries in
      insertion order comparing normalized names. */
  method FindMappingValue(mapping: LinkedMap<Mapper.Value>, fieldName: string) returns (v: Mapper.Value)
    requires WellFormed(mapping)
    ensures v == MappedValue(mapping, fieldName)
  {
    if fieldName in mapping.values {
      return mapping.values[fieldName];
    }
    var normalized := NormalizeFieldName(fieldName);
    var keys := mapping.keys;
    var i := 0;
    while i < |keys|
      invariant 0 <= i <= |keys|
      invariant FirstNormalizedValue(keys[i..], mapping.values, normalized) == FirstNormalizedValue(keys, mapping.values, normalized)
    {
      var key := keys[i];
      if NormalizeFieldName(key) == normalized {
        return mapping.values[key];
      }
      assert keys[i..][1..] == keys[i + 1..];
      i := i + 1;
    }
    return Mapper.Null;
  }

  // ---------------------------------------------------------------------------
  // fillField
  // ---------------------------------------------------------------------------

  /** What a write leaves in a field: a ticked box or a text value. */
  datatype Content = Ticked | Text(s: string)

  /** `String.valueOf(value)` for the values the field table holds. */
  function ValueText(v: Mapper.Value): string
  {
    match v
    case Flag(b) => if b then "true" else "false"
    case Str(s) => s
    case Null => "null"
  }

  /** The write `fillField` attempts, if any. A checkbox is ticked for Boolean
      true or a text equal to "true" ignoring case and is otherwise left
      alone, never unticked; any other field is set to the value's text
      unless the value is null or its text is empty or "null". */
  function WriteOf(isCheckbox: bool, v: Mapper.Value): (r: Option<Content>)
    ensures isCheckbox ==> (r.Some? <==> v == Mapper.Flag(true) || (v.Str? && EqualsIgnoreCase("true", v.s)))
    ensures isCheckbox && r.Some? ==> r.value == Ticked
    ensures !isCheckbox ==> (r.Some? <==> v.Flag? || (v.Str? && v.s != "" && v.s != "null"))
    ensures !isCheckbox && r.Some? ==> r.value == Text(if v.Flag? then (if v.b then "true" else "false") else v.s)
  {
    assert !EqualsIgnoreCase("true", "null") by {
      assert "true"[0] == 't' && "null"[0] == 'n';
    }
    if isCheckbox then
      if v == Mapper.Flag(true) || EqualsIgnoreCase("true", ValueText(v)) then Some(Ticked) else None
    else if v != Mapper.Null && ValueText(v) != "" && ValueText(v) != "null" then Some(Text(ValueText(v)))
    else None
  }

  /** An open form: its fields in field-tree order, the positions at which a
      write fails with an IOException, and what the engine has written at
      each position. */
  class Form {
    const fields: seq<Analyzer.PdfField>
    const failing: set<nat>
    var written: map<nat, Content>

    constructor (fields: seq<Analyzer.PdfField>, failing: set<nat>)
      ensures this.fields == fields && this.failing == failing && written == map[]
    {
      this.fields := fields;
      this.failing := failing;
      written := map[];
    }

    /** `fillField(field, value)`: performs the write `WriteOf` names unless
        it fails, and answers whether a write happened. */
    method FillField(i: nat, v: Mapper.Value) returns (filled: bool)
      requires i < |fields|
      modifies this
      ensures filled == (WriteOf(fields[i].isCheckbox, v).Some? && i !in failing)
      ensures filled ==> written == old(written)[i := WriteOf(fields[i].isCheckbox, v).value]
      ensures !filled ==> written == old(written)
    {
      var w := WriteOf(fields[i].isCheckbox, v);
      if w.Some? && i !in failing {
        written := written[i := w.value];
        return true;
      }
      return false;
    }

    /** `fillFieldIntelligently(field, fieldInfo, request)`: performs the
        write `IntelligentWrite` names for the analyzed field unless it fails,
        and answers whether a write happened. */
    method FillFieldIntelligently(i: nat, info: Analyzer.FieldInfo, req: WohngeldAntragRequest) returns (filled: bool)
      requires i < |fields|
      requires TotalRentReadable(Lower(info.fullName), req)
      modifies this
      ensures filled == (IntelligentWrite(fields[i].isCheckbox, info, req).Some? && i !in failing)
      ensures filled ==> written == old(written)[i := IntelligentWrite(fields[i].isCheckbox, info, req).value]
      ensures !filled ==> written == old(written)
    {
      var w := IntelligentWrite(fields[i].isCheckbox, info, req);
      if w.Some? && i !in failing {
        written := written[i := w.value];
        return true;
      }
      return false;
    }
  }

  // ---------------------------------------------------------------------------
  // fillPdf
  // ---------------------------------------------------------------------------

  /** The value `findMappingValue` finds for each field of the form. */
  function FoundValues(mapping: LinkedMap<Mapper.Value>, fields: seq<Analyzer.PdfField>): (vs: seq<Mapper.Value>)
    requires WellFormed(mapping)
    ensures |vs| == |fields|
  {
    if fields == [] then []
    else FoundValues(mapping, fields[..|fields| - 1]) + [MappedValue(mapping, fields[|fields| - 1].fullName)]
  }

  /** One more field, one more value. */
  lemma FoundValuesSnoc(mapping: LinkedMap<Mapper.Value>, fields: seq<Analyzer.PdfField>, i: nat)
    requires WellFormed(mapping) && i < |fields|
    ensures FoundValues(mapping, fields[..i + 1]) == FoundValues(mapping, fields[..i]) + [MappedValue(mapping, fields[i].fullName)]
  {
    assert fields[..i + 1][..i] == fields[..i];
  }

  /** Position `i` holds the value found for field `i`. */
  lemma {:induction false} FoundValuesAt(mapping: LinkedMap<Mapper.Value>, fields: seq<Analyzer.PdfField>, i: nat)
    requires WellFormed(mapping) && i < |fields|
    ensures FoundValues(mapping, fields)[i] == MappedValue(mapping, fields[i].fullName)
  {
    if i < |fields| - 1 {
      var init := fields[..|fields| - 1];
      FoundValuesAt(mapping, init, i);
      assert init[i] == fields[i];
    }
  }

  /** The `findMappingValue` calls of `fillPdf`, one per field in field-tree
      order. The lookups read only the table, so making them all before the
      first write gives the same values as interleaving them with the writes. */
  method LookUpFields(mapping: LinkedMap<Mapper.Value>, fields: seq<Analyzer.PdfField>) returns (values: seq<Mapper.Value>)
    requires WellFormed(mapping)
    ensures values == FoundValues(mapping, fields)
  {
    values := [];
    var i := 0;
    while i < |fields|
      invariant 0 <= i <= |fields|
      invariant values == FoundValues(mapping, fields[..i])
    {
      var v := FindMappingValue(mapping, fields[i].fullName);
      FoundValuesSnoc(mapping, fields, i);
      values := values + [v];
      i := i + 1;
    }
    assert fields[..i] == fields;
  }

  /** The write `fillPdf` attempts on field `i` given the value found for it. */
  function AttemptAt(fields: seq<Analyzer.PdfField>, values: seq<Mapper.Value>, i: nat): Option<Content>
    requires |values| == |fields| && i < |fields|
  {
    if values[i] == Mapper.Null then None else WriteOf(fields[i].isCheckbox, values[i])
  }

  /** Whether `fillPdf` writes field `i`: a non-null value was found for its
      name, `fillField` accepts the value, and the write succeeds. */
  predicate Writes(fields: seq<Analyzer.PdfField>, failing: set<nat>, values: seq<Mapper.Value>, i: nat)
    requires |values| == |fields| && i < |fields|
  {
    AttemptAt(fields, values, i).Some? && i !in failing
  }

  /** The form contents after `fillPdf` has visited the first `k` fields. */
  function FilledAfter(fields: seq<Analyzer.PdfField>, failing: set<nat>, values: seq<Mapper.Value>,
                       w: map<nat, Content>, k: nat): map<nat, Content>
    requires |values| == |fields| && k <= |fields|
  {
    if k == 0 then w
    else
      var m := FilledAfter(fields, failing, values, w, k - 1);
      if Writes(fields, failing, values, k - 1) then m[k - 1 := AttemptAt(fields, values, k - 1).value] else m
  }

  /** `fieldsFilled` after the first `k` fields. */
  function FilledCount(fields: seq<Analyzer.PdfField>, failing: set<nat>, values: seq<Mapper.Value>, k: nat): (r: nat)
    requires |values| == |fields| && k <= |fields|
    ensures r <= k
  {
    if k == 0 then 0
    else FilledCount(fields, failing, values, k - 1) + (if Writes(fields, failing, values, k - 1) then 1 else 0)
  }

  /** The positions among the first `k` that `fillPdf` writes. */
  ghost function WrittenPositions(fields: seq<Analyzer.PdfField>, failing: set<nat>, values: seq<Mapper.Value>, k: nat): (r: set<nat>)
    requires |values| == |fields| && k <= |fields|
    ensures forall i :: i in r ==> i < k
  {
    if k == 0 then {}
    else
      WrittenPositions(fields, failing, values, k - 1) +
        (if Writes(fields, failing, values, k - 1) then {k - 1} else {})
  }

  /** The written positions are exactly those below `k` whose write happens. */
  lemma {:induction false} WrittenPositionsAre(fields: seq<Analyzer.PdfField>, failing: set<nat>, values: seq<Mapper.Value>, k: nat, i: nat)
    requires |values| == |fields| && k <= |fields|
    ensures i in WrittenPositions(fields, failing, values, k) <==> i < k && Writes(fields, failing, values, i)
  {
    if k > 0 {
      WrittenPositionsAre(fields, failing, values, k - 1, i);
    }
  }

  /** `fieldsFilled` counts the fields written, each once. */
  lemma {:induction false} FilledCountCountsWrites(fields: seq<Analyzer.PdfField>, failing: set<nat>, values: seq<Mapper.Value>, k: nat)
    requires |values| == |fields| && k <= |fields|
    ensures FilledCount(fields, failing, values, k) == |WrittenPositions(fields, failing, values, k)|
  {
    if k > 0 {
      FilledCountCountsWrites(fields, failing, values, k - 1);
      assert k - 1 !in WrittenPositions(fields, failing, values, k - 1);
    }
  }

  /** After the first `k` fields, a written position holds what its field's
      value asked for; every other position keeps its earlier content. */
  lemma {:induction false} FilledAfterAt(fields: seq<Analyzer.PdfField>, failing: set<nat>, values: seq<Mapper.Value>,
                                         w: map<nat, Content>, k: nat, j: nat)
    requires |values| == |fields| && k <= |fields|
    ensures j < k && Writes(fields, failing, values, j) ==>
      j in FilledAfter(fields, failing, values, w, k) &&
      FilledAfter(fields, failing, values, w, k)[j] == AttemptAt(fields, values, j).value
    ensures !(j < k && Writes(fields, failing, values, j)) ==>
      (j in FilledAfter(fields, failing, values, w, k) <==> j in w) &&
      (j in w ==> FilledAfter(fields, failing, values, w, k)[j] == w[j])
  {
    if k > 0 {
      FilledAfterAt(fields, failing, values, w, k - 1, j);
    }
  }

  /** A ticked box stays ticked, and a checkbox receives nothing but a tick;
      no text field receives an empty or "null" text. */
  lemma CheckboxStaysTicked(fields: seq<Analyzer.PdfField>, failing: set<nat>, values: seq<Mapper.Value>,
                            w: map<nat, Content>, j: nat)
    requires |values| == |fields| && j < |fields|
    ensures fields[j].isCheckbox && j in w && w[j] == Ticked ==>
      j in FilledAfter(fields, failing, values, w, |fields|) &&
      FilledAfter(fields, failing, values, w, |fields|)[j] == Ticked
    ensures fields[j].isCheckbox && j in FilledAfter(fields, failing, values, w, |fields|) && j !in w ==>
      FilledAfter(fields, failing, values, w, |fields|)[j] == Ticked
    ensures !fields[j].isCheckbox && j in FilledAfter(fields, failing, values, w, |fields|) && j !in w ==>
      var c := FilledAfter(fields, failing, values, w, |fields|)[j];
      c.Text? && c.s != "" && c.s != "null"
  {
    FilledAfterAt(fields, failing, values, w, |fields|, j);
  }

  lemma FilledStep(fields: seq<Analyzer.PdfField>, failing: set<nat>, values: seq<Mapper.Value>, w: map<nat, Content>, i: nat)
    requires |values| == |fields| && i < |fields|
    ensures Writes(fields, failing, values, i) <==>
      values[i] != Mapper.Null && WriteOf(fields[i].isCheckbox, values[i]).Some? && i !in failing
    ensures Writes(fields, failing, values, i) ==>
      FilledCount(fields, failing, values, i + 1) == FilledCount(fields, failing, values, i) + 1 &&
      FilledAfter(fields, failing, values, w, i + 1) ==
        FilledAfter(fields, failing, values, w, i)[i := WriteOf(fields[i].isCheckbox, values[i]).value]
    ensures !Writes(fields, failing, values, i) ==>
      FilledCount(fields, failing, values, i + 1) == FilledCount(fields, failing, values, i) &&
      FilledAfter(fields, failing, values, w, i + 1) == FilledAfter(fields, failing, values, w, i)
  {
  }

  /** The two loops of `fillPdf` over the fields of an AcroForm: the count,
      then a `fillField` call for each field whose value is non-null. */
  method FillFields(form: Form, values: seq<Mapper.Value>) returns (fieldsFound: nat, fieldsFilled: nat)
    requires |values| == |form.fields|
    modifies form
    ensures fieldsFound == |form.fields|
    ensures fieldsFilled == FilledCount(form.fields, form.failing, values, |form.fields|)
    ensures form.written == FilledAfter(form.fields, form.failing, values, old(form.written), |form.fields|)
  {
    var fields := form.fields;
    fieldsFound, fieldsFilled := 0, 0;
    var i := 0;
    while i < |fields|
      invariant 0 <= i <= |fields| && fieldsFound == i
    {
      fieldsFound := fieldsFound + 1;
      i := i + 1;
    }
    i := 0;
    while i < |fields|
      invariant 0 <= i <= |fields|
      invariant fieldsFilled == FilledCount(fields, form.failing, values, i)
      invariant form.written == FilledAfter(fields, form.failing, values, old(form.written), i)
    {
      var v := values[i];
      FilledStep(fields, form.failing, values, old(form.written), i);
      if v != Mapper.Null {
        var filled := form.FillField(i, v);
        if filled {
          fieldsFilled := fieldsFilled + 1;
        }
      }
      i := i + 1;
    }
  }

  /** What `fillPdf` reports: `fieldsFound` and `fieldsFilled` (the output
      path and file name are left out). */
  datatype PdfResult = PdfResult(fieldsFound: nat, fieldsFilled: nat)

  /** `fillPdf(request, template)`: `form` is the template's AcroForm, null
      when the document has none. The applicant is dereferenced for the
      output file name, and the field table is built from the request. */
  method FillPdf(form: Form?, req: WohngeldAntragRequest) returns (result: PdfResult)
    requires req.antragsteller.Some?
    requires Mapper.MieteReadable(req)
    modifies form
    ensures result.fieldsFilled <= result.fieldsFound
    ensures form == null ==> result == PdfResult(0, 0)
    ensures form != null ==>
      var values := FoundValues(Mapper.FieldMapping(req), form.fields);
      result.fieldsFound == |form.fields| &&
      result.fieldsFilled == FilledCount(form.fields, form.failing, values, |form.fields|) &&
      form.written == FilledAfter(form.fields, form.failing, values, old(form.written), |form.fields|)
  {
    var table := Mapper.CreateFieldMapping(req);
    var mapping := table.Model();
    if form == null {
      return PdfResult(0, 0);
    }
    var values := LookUpFields(mapping, form.fields);
    var found, filled := FillFields(form, values);
    return PdfResult(found, filled);
  }

  // ---------------------------------------------------------------------------
  // matches and getCheckboxValue
  // ---------------------------------------------------------------------------

  /** `matches(name, terms...)`: some term occurs in the name. Every term the
      resolvers pass is already lower case, so `term.toLowerCase()` leaves it
      as it is, and this is the analyzer's `containsAny`. */
  predicate Matches(name: string, terms: seq<string>)
  {
    Analyzer.ContainsAny(name, terms)
  }

  const FirstApplicationTerms: seq<string> := ["erstantrag"]
  const ContinuationMarks: seq<string> := ["weiter", "folge"]
  const FollowUpTerms: seq<string> := ["weiterleistung", "folgeantrag", "weiterbewilligung"]

  /** The application-type boxes: a first-application box shows whether
      `erstantrag` is Boolean true, a follow-up box shows the opposite. */
  function ApplicationTypeBox(name: string, antrag: Option<AntragDaten>): Option<bool>
  {
    if antrag.None? then None
    else
      var first := antrag.value.erstantrag == Some(true);
      if Matches(name, FirstApplicationTerms) && !Matches(name, ContinuationMarks) then Some(first)
      else if Matches(name, FollowUpTerms) then Some(!first)
      else None
  }

  /** A first-application box and a follow-up box always disagree. */
  lemma ApplicationTypeComplement(first: string, followUp: string, antrag: Option<AntragDaten>)
    requires antrag.Some?
    requires Matches(first, FirstApplicationTerms) && !Matches(first, ContinuationMarks)
    requires !Matches(followUp, FirstApplicationTerms) && Matches(followUp, FollowUpTerms)
    ensures ApplicationTypeBox(first, antrag).Some? && ApplicationTypeBox(followUp, antrag).Some?
    ensures ApplicationTypeBox(first, antrag).value == !ApplicationTypeBox(followUp, antrag).value
  {
  }

  datatype Gender = Male | Female | Diverse

  const MaleTerms: seq<string> := ["männlich", "maennlich"]
  const FemaleTerms: seq<string> := ["weiblich"]
  const DiverseTerms: seq<string> := ["divers"]

  /** Which gender box a field name denotes, if any. */
  function GenderOption(name: string): Option<Gender>
  {
    if Matches(name, MaleTerms) && !Matches(name, FemaleTerms) then Some(Male)
    else if Matches(name, FemaleTerms) && !Matches(name, MaleTerms) then Some(Female)
    else if Matches(name, DiverseTerms) then Some(Diverse)
    else None
  }

  /** Whether the lower-cased `geschlecht` selects the option. */
  predicate IsGender(g: string, option: Gender)
  {
    match option
    case Male => g == "maennlich" || g == "männlich" || g == "m"
    case Female => g == "weiblich" || g == "w"
    case Diverse => g == "divers" || g == "d"
  }

  function GenderBox(name: string, a: Option<Antragsteller>): Option<bool>
  {
    if a.None? || a.value.geschlecht.None? || GenderOption(name).None? then None
    else Some(IsGender(Lower(a.value.geschlecht.value), GenderOption(name).value))
  }

  /** For a given `geschlecht`, at most one of the three options holds. */
  lemma GenderExclusive(g: string, x: Gender, y: Gender)
    requires IsGender(g, x) && IsGender(g, y)
    ensures x == y
  {
  }

  /** Two gender boxes that both come out ticked for the same applicant are
      boxes for the same option. */
  lemma GenderBoxesExclusive(n1: string, n2: string, a: Option<Antragsteller>)
    requires GenderBox(n1, a) == Some(true) && GenderBox(n2, a) == Some(true)
    ensures GenderOption(n1) == GenderOption(n2)
  {
    GenderExclusive(Lower(a.value.geschlecht.value), GenderOption(n1).value, GenderOption(n2).value);
  }

  datatype Marital = Single | Married | Divorced | Widowed | Separated | Partnership

  const SingleTerms: seq<string> := ["ledig"]
  const NotSingleMarks: seq<string> := ["ver", "gesch", "witw", "getr", "partner"]
  const MarriedTerms: seq<string> := ["verheiratet"]
  const NegationMarks: seq<string> := ["nicht", "un"]
  const DivorcedTerms: seq<string> := ["geschieden"]
  const WidowedTerms: seq<string> := ["verwitwet", "witwe", "witwer"]
  const SeparatedTerms: seq<string> := ["getrennt"]
  const LivingTerms: seq<string> := ["lebend"]
  const PartnershipTerms: seq<string> := ["lebenspartner", "eingetragen"]

  /** Which marital-status box a field name denotes, if any. */
  function MaritalOption(name: string): Option<Marital>
  {
    if Matches(name, SingleTerms) && !Matches(name, NotSingleMarks) then Some(Single)
    else if Matches(name, MarriedTerms) && !Matches(name, NegationMarks) then Some(Married)
    else if Matches(name, DivorcedTerms) then Some(Divorced)
    else if Matches(name, WidowedTerms) then Some(Widowed)
    else if Matches(name, SeparatedTerms) && Matches(name, LivingTerms) then Some(Separated)
    else if Matches(name, PartnershipTerms) then Some(Partnership)
    else None
  }

  /** Whether the lower-cased `familienstand` selects the option: equality
      for the first four, containment for the last two. */
  predicate IsMarital(fs: string, option: Marital)
  {
    match option
    case Single => fs == "ledig"
    case Married => fs == "verheiratet"
    case Divorced => fs == "geschieden"
    case Widowed => fs == "verwitwet"
    case Separated => Contains(fs, "getrennt")
    case Partnership => Contains(fs, "lebenspartner")
  }

  function MaritalBox(name: string, a: Option<Antragsteller>): Option<bool>
  {
    if a.None? || a.value.familienstand.None? || MaritalOption(name).None? then None
    else Some(IsMarital(Lower(a.value.familienstand.value), MaritalOption(name).value))
  }

  /** The four options tested by equality exclude each other. */
  lemma MaritalExclusive(fs: string, x: Marital, y: Marital)
    requires x in {Single, Married, Divorced, Widowed} && y in {Single, Married, Divorced, Widowed}
    requires IsMarital(fs, x) && IsMarital(fs, y)
    ensures x == y
  {
  }

  datatype Employment = Employed | Unemployed | Retired | Student | Pupil | SelfEmployed

  const EmployedTerms: seq<string> := ["erwerbstätig", "erwerbstaetig", "beschäftigt", "beschaeftigt"]
  const NotEmployedMarks: seq<string> := ["nicht", "arbeitslos", "selbst"]
  const UnemployedTerms: seq<string> := ["arbeitslos", "arbeitssuchend", "arbeitsuchend"]
  const RetiredTerms: seq<string> := ["rentner", "rentnerin", "rente", "pension", "ruhestand"]
  const StudentTerms: seq<string> := ["student", "studentin", "studierend"]
  const PupilTerms: seq<string> := ["schüler", "schueler", "auszubildend", "azubi"]
  const SelfEmployedTerms: seq<string> := ["selbständig", "selbstständig", "selbstaendig", "selbststaendig", "freiberuf"]

  /** Which employment box a field name denotes, if any. */
  function EmploymentOption(name: string): Option<Employment>
  {
    if Matches(name, EmployedTerms) && !Matches(name, NotEmployedMarks) then Some(Employed)
    else if Matches(name, UnemployedTerms) then Some(Unemployed)
    else if Matches(name, RetiredTerms) then Some(Retired)
    else if Matches(name, StudentTerms) then Some(Student)
    else if Matches(name, PupilTerms) then Some(Pupil)
    else if Matches(name, SelfEmployedTerms) then Some(SelfEmployed)
    else None
  }

  /** The canonical `erwerbsstatus` value of each option. */
  function EmploymentValue(option: Employment): string
  {
    match option
    case Employed => "erwerbstaetig"
    case Unemployed => "arbeitslos"
    case Retired => "rentner"
    case Student => "student"
    case Pupil => "schueler"
    case SelfEmployed => "selbststaendig"
  }

  function EmploymentBox(name: string, a: Option<Antragsteller>): Option<bool>
  {
    if a.None? || a.value.erwerbsstatus.None? || EmploymentOption(name).None? then None
    else Some(Lower(a.value.erwerbsstatus.value) == EmploymentValue(EmploymentOption(name).value))
  }

  /** For a given `erwerbsstatus`, at most one of the six options holds. */
  lemma EmploymentExclusive(es: string, x: Employment, y: Employment)
    requires es == EmploymentValue(x) && es == EmploymentValue(y)
    ensures x == y
  {
  }

  /** `getCheckboxValue(name, category, request)`: the first group whose
      keywords the name matches decides; `None` (Java's `null`) means the box
      is not touched. The category argument is not used. */
  function GetCheckboxValue(name: string, req: WohngeldAntragRequest): Option<bool>
  {
    var app := ApplicationTypeBox(name, req.antrag);
    if app.Some? then app
    else
      var gender := GenderBox(name, req.antragsteller);
      if gender.Some? then gender
      else
        var marital := MaritalBox(name, req.antragsteller);
        if marital.Some? then marital
        else EmploymentBox(name, req.antragsteller)
  }

  /** The keyword lists that can open a checkbox rule, group by group. */
  const CheckboxTermGroups: seq<seq<string>> := [
    FirstApplicationTerms, FollowUpTerms, MaleTerms, FemaleTerms, DiverseTerms,
    SingleTerms, MarriedTerms, DivorcedTerms, WidowedTerms, SeparatedTerms, PartnershipTerms,
    EmployedTerms, UnemployedTerms, RetiredTerms, StudentTerms, PupilTerms, SelfEmployedTerms]

  function Flatten(groups: seq<seq<string>>): seq<string>
  {
    if groups == [] then [] else groups[0] + Flatten(groups[1..])
  }

  /** A name that matches one group matches the flattened list. */
  lemma {:induction false} MatchesFlattened(name: string, groups: seq<seq<string>>, k: nat)
    requires k < |groups| && Matches(name, groups[k])
    ensures Matches(name, Flatten(groups))
  {
    var terms := Flatten(groups);
    if k == 0 {
      var i :| 0 <= i < |groups[0]| && Contains(name, groups[0][i]);
      assert terms[i] == groups[0][i];
    } else {
      MatchesFlattened(name, groups[1..], k - 1);
      var i :| 0 <= i < |Flatten(groups[1..])| && Contains(name, Flatten(groups[1..])[i]);
      assert terms[|groups[0]| + i] == Flatten(groups[1..])[i];
    }
  }

  /** A box whose name contains none of the opening keywords is left alone,
      whatever the request holds. */
  lemma UnknownCheckboxUntouched(name: string, req: WohngeldAntragRequest)
    requires !Matches(name, Flatten(CheckboxTermGroups))
    ensures GetCheckboxValue(name, req) == None
  {
    forall k | 0 <= k < |CheckboxTermGroups|
      ensures !Matches(name, CheckboxTermGroups[k])
    {
      if Matches(name, CheckboxTermGroups[k]) {
        MatchesFlattened(name, CheckboxTermGroups, k);
      }
    }
    var g := CheckboxTermGroups;
    assert !Matches(name, g[0]) && !Matches(name, g[1]);
    assert ApplicationTypeBox(name, req.antrag) == None;
    assert !Matches(name, g[2]) && !Matches(name, g[3]) && !Matches(name, g[4]);
    assert GenderOption(name) == None;
    assert !Matches(name, g[5]) && !Matches(name, g[6]) && !Matches(name, g[7]);
    assert !Matches(name, g[8]) && !Matches(name, g[9]) && !Matches(name, g[10]);
    assert MaritalOption(name) == None;
    assert !Matches(name, g[11]) && !Matches(name, g[12]) && !Matches(name, g[13]);
    assert !Matches(name, g[14]) && !Matches(name, g[15]) && !Matches(name, g[16]);
    assert EmploymentOption(name) == None;
  }

  // ---------------------------------------------------------------------------
  // getValueForField
  // ---------------------------------------------------------------------------

  /** What one block of rules says about a text field: no rule of the block
      applies, or the first rule that applies gives its value (which may be
      `None`, Java's `null`, and then ends the search all the same). */
  datatype Resolution = NoRule | Resolved(value: Option<string>)

  /** The first block that has a rule for the name decides. */
  function FirstRule(first: Resolution, rest: Resolution): (r: Resolution)
    ensures first.Resolved? ==> r == first
    ensures first.NoRule? ==> r == rest
  {
    if first.Resolved? then first else rest
  }

  /** `formatCurrency(value)` as a string: two fraction digits after a comma. */
  function Currency(x: Option<real>): (r: Option<string>)
    ensures r.None? <==> x.None?
    ensures x.Some? ==> Mapper.FormatCurrency(x) == Mapper.Str(r.value)
  {
    if x.None? then None else Some(FormatFixed2(x.value))
  }

  const StreetWords: seq<string> := ["straße", "strasse"]
  const PostcodeWords: seq<string> := ["plz", "ort"]
  const AuthorityPostcodeTerms: seq<string> := ["plz", "postleitzahl"]
  const AuthorityTownTerms: seq<string> := ["ort", "stadt"]
  const AuthorityAddressWords: seq<string> := ["straße", "strasse", "plz", "ort"]

  /** The authority block, for fields the analyzer put in `BEHOERDE`. */
  function Authority(name: string, category: Analyzer.Category, antrag: Option<AntragDaten>): Resolution
  {
    if category != Analyzer.Behoerde || antrag.None? then NoRule
    else
      var d := antrag.value;
      if Matches(name, StreetWords) && !Matches(name, PostcodeWords) then Resolved(d.wohngeldbehoerdeStrasse)
      else if Matches(name, AuthorityPostcodeTerms) then Resolved(d.wohngeldbehoerdePlz)
      else if Matches(name, AuthorityTownTerms) then Resolved(d.wohngeldbehoerdeOrt)
      else if !Matches(name, AuthorityAddressWords) then Resolved(d.wohngeldbehoerde)
      else NoRule
  }

  const FileNumberTerms: seq<string> := ["wohngeldnummer", "aktenzeichen", "geschäftszeichen", "az"]
  const StartTerms: seq<string> := ["wohngeld ab", "ab wann", "leistung ab", "bewilligung ab", "antrag ab"]
  const ApplicationDateTerms: seq<string> := ["antragsdatum", "datum des antrags"]

  /** The application-data block. */
  function Application(name: string, antrag: Option<AntragDaten>): Resolution
  {
    if antrag.None? then NoRule
    else
      var d := antrag.value;
      if Matches(name, FileNumberTerms) then Resolved(d.wohngeldnummer)
      else if Matches(name, StartTerms) then Resolved(d.wohngeldAb)
      else if Matches(name, ApplicationDateTerms) then Resolved(d.antragsdatum)
      else NoRule
  }

  const SurnameTerms: seq<string> := ["familienname", "nachname"]
  const NotSurnameMarks: seq<string> := ["vorname", "geburtsname"]
  const FirstNameTerms: seq<string> := ["vorname", "vornamen"]
  const NotFirstNameMarks: seq<string> := ["nachname", "familien"]
  const BirthDateTerms: seq<string> := ["geburtsdatum", "geb.datum", "geboren am", "geb am"]
  const BirthPlaceTerms: seq<string> := ["geburtsort", "geb.ort", "geboren in"]
  const NationalityTerms: seq<string> := ["staatsangehörigkeit", "staatsangehoerigkeit", "nationalität", "nation"]
  const PhoneTerms: seq<string> := ["telefon", "tel.", "rufnummer", "mobil", "handy"]
  const EmailTerms: seq<string> := ["email", "e-mail", "mail"]

  /** The applicant block. */
  function Applicant(name: string, a: Option<Antragsteller>): Resolution
  {
    if a.None? then NoRule
    else
      var p := a.value;
      if Matches(name, SurnameTerms) && !Matches(name, NotSurnameMarks) then Resolved(p.nachname)
      else if Matches(name, FirstNameTerms) && !Matches(name, NotFirstNameMarks) then Resolved(p.vorname)
      else if Matches(name, BirthDateTerms) then Resolved(p.geburtsdatum)
      else if Matches(name, BirthPlaceTerms) then Resolved(p.geburtsort)
      else if Matches(name, NationalityTerms) then Resolved(p.staatsangehoerigkeit)
      else if Matches(name, PhoneTerms) then Resolved(p.telefon)
      else if Matches(name, EmailTerms) then Resolved(p.email)
      else NoRule
  }

  const StreetTerms: seq<string> := ["straße", "strasse", "str."]
  const NotStreetMarks: seq<string> := ["hausnr", "nummer", "behörde", "behoerde"]
  const HouseNumberTerms: seq<string> := ["hausnummer", "hausnr", "haus-nr", "hnr", "nr."]
  const NotHouseNumberMarks: seq<string> := ["wohnung"]
  const PostcodeTerms: seq<string> := ["postleitzahl", "plz"]
  const AuthorityMarks: seq<string> := ["behörde", "behoerde"]
  const TownTerms: seq<string> := ["wohnort", "ort", "stadt", "gemeinde"]
  const NotTownMarks: seq<string> := ["geburts", "behörde", "behoerde"]
  const StateTerms: seq<string> := ["bundesland"]

  /** The address block; it is skipped for fields in `BEHOERDE`. */
  function Address(name: string, category: Analyzer.Category, adr: Option<Adresse>): Resolution
  {
    if adr.None? || category == Analyzer.Behoerde then NoRule
    else
      var d := adr.value;
      if Matches(name, StreetTerms) && !Matches(name, NotStreetMarks) then Resolved(d.strasse)
      else if Matches(name, HouseNumberTerms) && !Matches(name, NotHouseNumberMarks) then Resolved(d.hausnummer)
      else if Matches(name, PostcodeTerms) && !Matches(name, AuthorityMarks) then Resolved(d.plz)
      else if Matches(name, TownTerms) && !Matches(name, NotTownMarks) then Resolved(d.ort)
      else if Matches(name, StateTerms) then Resolved(d.bundesland)
      else NoRule
  }

  const MoveInTerms: seq<string> := ["einzug", "bezug", "eingezogen", "wohnt seit", "seit wann"]
  const AreaTerms: seq<string> :=
    ["wohnfläche", "wohnflaeche", "qm", "quadratmeter", "fläche", "flaeche", "größe", "groesse"]
  const RoomTerms: seq<string> := ["zimmer", "räume", "raeume"]
  const CountTerms: seq<string> := ["anzahl", "zahl"]
  const BuiltTerms: seq<string> := ["baujahr", "erbaut", "errichtet", "fertiggestellt"]
  const LandlordTerms: seq<string> := ["vermieter", "eigentümer", "eigentuemer", "hausverwaltung", "vermieterin"]

  /** The dwelling block: the area is printed as a whole number, the room
      count in decimal. */
  function Dwelling(name: string, w: Option<Wohnung>): Resolution
  {
    if w.None? then NoRule
    else
      var d := w.value;
      if Matches(name, MoveInTerms) then Resolved(d.einzugsdatum)
      else if Matches(name, AreaTerms) then
        Resolved(if d.wohnflaecheQm.Some? then Some(FormatWhole(d.wohnflaecheQm.value)) else None)
      else if Matches(name, RoomTerms) && Matches(name, CountTerms) then
        Resolved(if d.anzahlRaeume.Some? then Some(IntToString(d.anzahlRaeume.value)) else None)
      else if Matches(name, BuiltTerms) then Resolved(d.baujahr)
      else if Matches(name, LandlordTerms) then Resolved(d.vermieterName)
      else NoRule
  }

  const ColdRentTerms: seq<string> := ["kaltmiete", "grundmiete", "miete ohne", "nettomiete"]
  const NotColdRentMarks: seq<string> := ["warm", "brutto", "gesamt"]
  const ServiceChargeTerms: seq<string> := ["nebenkosten", "betriebskosten", "nk", "umlagen"]
  const HeatingTerms: seq<string> := ["heizkosten", "heizung"]
  const NotHeatingCostMarks: seq<string> := ["art", "typ"]
  const HotWaterTerms: seq<string> := ["warmwasser", "ww"]
  const TotalRentTerms: seq<string> :=
    ["gesamtmiete", "warmmiete", "bruttomiete", "miete gesamt", "insgesamt", "summe"]

  /** A total-rent field can be answered: `getGesamtmiete()` does not fail
      with a `NullPointerException` on the request's rent. */
  predicate TotalRentReadable(name: string, req: WohngeldAntragRequest)
  {
    req.miete.Some? && Matches(name, TotalRentTerms) ==> GesamtmieteDefined(req.miete.value)
  }

  /** The rent block; amounts go through `formatCurrency`. */
  function Rent(name: string, m: Option<Miete>): Resolution
    requires m.Some? && Matches(name, TotalRentTerms) ==> GesamtmieteDefined(m.value)
  {
    if m.None? then NoRule
    else
      var d := m.value;
      if Matches(name, ColdRentTerms) && !Matches(name, NotColdRentMarks) then Resolved(Currency(d.kaltmiete))
      else if Matches(name, ServiceChargeTerms) then Resolved(Currency(d.nebenkosten))
      else if Matches(name, HeatingTerms) && !Matches(name, NotHeatingCostMarks) then Resolved(Currency(d.heizkosten))
      else if Matches(name, HotWaterTerms) then Resolved(Currency(d.warmwasser))
      else if Matches(name, TotalRentTerms) then Resolved(Currency(Some(GetGesamtmiete(d))))
      else NoRule
  }

  const GrossTerms: seq<string> := ["brutto"]
  const NetTerms: seq<string> := ["netto"]
  const EarningsTerms: seq<string> := ["einkommen", "verdienst", "gehalt", "lohn", "einnahmen"]
  const ChildBenefitTerms: seq<string> := ["kindergeld"]
  const MaintenanceTerms: seq<string> := ["unterhalt"]

  /** The income block: child benefit and maintenance are only filled in when
      they are positive. */
  function Income(name: string, e: Option<Einkommen>): Resolution
  {
    if e.None? then NoRule
    else
      var d := e.value;
      if Matches(name, GrossTerms) && Matches(name, EarningsTerms) then Resolved(Currency(d.bruttoeinkommenMonatlich))
      else if Matches(name, NetTerms) && Matches(name, EarningsTerms) then Resolved(Currency(d.nettoeinkommenMonatlich))
      else if Matches(name, ChildBenefitTerms) && d.kindergeld.Some? && d.kindergeld.value > 0.0 then
        Resolved(Currency(d.kindergeld))
      else if Matches(name, MaintenanceTerms) && d.unterhalt.Some? && d.unterhalt.value > 0.0 then
        Resolved(Currency(d.unterhalt))
      else NoRule
  }

  const IbanTerms: seq<string> := ["iban"]
  const BicTerms: seq<string> := ["bic", "swift"]
  const BankTerms: seq<string> := ["bank", "kreditinstitut", "geldinstitut", "sparkasse"]
  const HolderTerms: seq<string> := ["kontoinhaber", "kontoinhaberin"]

  /** The bank-account block. */
  function Bank(name: string, b: Option<Bankverbindung>): Resolution
  {
    if b.None? then NoRule
    else
      var d := b.value;
      if Matches(name, IbanTerms) then Resolved(d.iban)
      else if Matches(name, BicTerms) then Resolved(d.bic)
      else if Matches(name, BankTerms) then Resolved(d.bank)
      else if Matches(name, HolderTerms) then Resolved(d.kontoinhaber)
      else NoRule
  }

  const NumberWord: seq<string> := ["anzahl"]
  const MemberTerms: seq<string> := ["person", "haushalt", "mitglieder"]

  /** The household block: `String.valueOf` of the person count, which is the
      text "null" when the count is missing. */
  function Household(name: string, h: Option<Haushalt>): Resolution
  {
    if h.None? then NoRule
    else if Matches(name, NumberWord) && Matches(name, MemberTerms) then
      Resolved(Some(if h.value.anzahlPersonen.Some? then IntToString(h.value.anzahlPersonen.value) else "null"))
    else NoRule
  }

  /** The rule blocks in the order `getValueForField` tries them. */
  function Rules(name: string, category: Analyzer.Category, req: WohngeldAntragRequest): Resolution
    requires TotalRentReadable(name, req)
  {
    FirstRule(Authority(name, category, req.antrag),
    FirstRule(Application(name, req.antrag),
    FirstRule(Applicant(name, req.antragsteller),
    FirstRule(Address(name, category, req.adresse),
    FirstRule(Dwelling(name, req.wohnung),
    FirstRule(Rent(name, req.miete),
    FirstRule(Income(name, req.einkommen),
    FirstRule(Bank(name, req.bankverbindung),
              Household(name, req.haushalt)))))))))
  }

  /** `getValueForField(name, category, request)` for a lower-cased field
      name: the value of the first rule that applies, `None` when none does. */
  function GetValueForField(name: string, category: Analyzer.Category, req: WohngeldAntragRequest): (r: Option<string>)
    requires TotalRentReadable(name, req)
    ensures Rules(name, category, req).NoRule? ==> r.None?
    ensures Rules(name, category, req).Resolved? ==> r == Rules(name, category, req).value
  {
    if Rules(name, category, req).Resolved? then Rules(name, category, req).value else None
  }

  /** With the application data present, a field in `BEHOERDE` is always
      answered from the authority's four attributes. */
  lemma AuthorityFieldsFromAuthority(name: string, req: WohngeldAntragRequest)
    requires req.antrag.Some? && TotalRentReadable(name, req)
    ensures var d := req.antrag.value;
      GetValueForField(name, Analyzer.Behoerde, req) in
        {d.wohngeldbehoerdeStrasse, d.wohngeldbehoerdePlz, d.wohngeldbehoerdeOrt, d.wohngeldbehoerde}
  {
    if !Matches(name, AuthorityPostcodeTerms) && !Matches(name, AuthorityTownTerms) {
      assert !Contains(name, "plz") && !Contains(name, "ort") by {
        assert AuthorityPostcodeTerms[0] == "plz" && AuthorityTownTerms[0] == "ort";
      }
      if Matches(name, StreetWords) {
        assert !Matches(name, PostcodeWords);
      } else {
        assert !Matches(name, AuthorityAddressWords);
      }
    }
  }

  /** The applicant's home address never answers a field in `BEHOERDE`. */
  lemma AuthorityIgnoresHomeAddress(name: string, req: WohngeldAntragRequest)
    requires TotalRentReadable(name, req)
    ensures GetValueForField(name, Analyzer.Behoerde, req) == GetValueForField(name, Analyzer.Behoerde, req.(adresse := None))
  {
    assert Address(name, Analyzer.Behoerde, req.adresse) == NoRule;
  }

  /** "gesamtmiete" opens only the total-rent rule of the rent block. */
  lemma RentWordsOfTotal()
    ensures var name := "gesamtmiete";
      !Matches(name, ColdRentTerms) && !Matches(name, ServiceChargeTerms) && !Matches(name, HeatingTerms)
      && !Matches(name, HotWaterTerms) && Matches(name, TotalRentTerms)
  {
    var name := "gesamtmiete";
    MissingCharNotContained(name, ColdRentTerms[0], 'k');
    MissingCharNotContained(name, ColdRentTerms[1], 'r');
    MissingCharNotContained(name, ColdRentTerms[2], 'o');
    MissingCharNotContained(name, ColdRentTerms[3], 'n');
    MissingCharNotContained(name, ServiceChargeTerms[0], 'n');
    MissingCharNotContained(name, ServiceChargeTerms[1], 'b');
    MissingCharNotContained(name, ServiceChargeTerms[2], 'n');
    MissingCharNotContained(name, ServiceChargeTerms[3], 'u');
    MissingCharNotContained(name, HeatingTerms[0], 'h');
    MissingCharNotContained(name, HeatingTerms[1], 'h');
    MissingCharNotContained(name, HotWaterTerms[0], 'w');
    MissingCharNotContained(name, HotWaterTerms[1], 'w');
    assert StartsAt(name, TotalRentTerms[0], 0);
  }

  /** The letters of "gesamtmiete". */
  const TotalRentLetters: set<char> := {'g', 'e', 's', 'a', 'm', 't', 'i'}

  /** A name spelled from `letters` matches none of the term lists when each
      term holds a character, given at the same position of the list's
      entry in `missing`, outside `letters`. */
  lemma TermsMissing(name: string, letters: set<char>, lists: seq<seq<string>>, missing: seq<string>)
    requires SpelledFrom(name, letters) && |missing| == |lists|
    requires forall l | 0 <= l < |lists| :: |missing[l]| == |lists[l]|
    requires forall l, k | 0 <= l < |lists| && 0 <= k < |lists[l]| :: missing[l][k] in lists[l][k] && missing[l][k] !in letters
    ensures forall l | 0 <= l < |lists| :: !Matches(name, lists[l])
  {
    forall l | 0 <= l < |lists|
      ensures !Matches(name, lists[l])
    {
      OutsideLettersNotContained(name, letters, lists[l], missing[l]);
    }
  }

  // A name spelled from the letters of "gesamtmiete" opens no rule of the
  // blocks before the rent block: every term those rules test for holds a
  // letter outside them.

  lemma NoApplicationRule(name: string, antrag: Option<AntragDaten>)
    requires SpelledFrom(name, TotalRentLetters)
    ensures Application(name, antrag) == NoRule
  {
    var lists := [FileNumberTerms, StartTerms, ApplicationDateTerms];
    TermsMissing(name, TotalRentLetters, lists, ["wkhz", "wblbn", "nd"]);
    assert !Matches(name, lists[0]) && !Matches(name, lists[1]) && !Matches(name, lists[2]);
  }

  lemma NoApplicantRule(name: string, a: Option<Antragsteller>)
    requires SpelledFrom(name, TotalRentLetters)
    ensures Applicant(name, a) == NoRule
  {
    var lists := [SurnameTerms, FirstNameTerms, BirthDateTerms, BirthPlaceTerms, NationalityTerms, PhoneTerms, EmailTerms];
    TermsMissing(name, TotalRentLetters, lists, ["fn", "vv", "bbbb", "bbb", "nnnn", "llroh", "lll"]);
    assert !Matches(name, lists[0]) && !Matches(name, lists[1]) && !Matches(name, lists[2]) && !Matches(name, lists[3]);
    assert !Matches(name, lists[4]) && !Matches(name, lists[5]) && !Matches(name, lists[6]);
  }

  lemma NoAddressRule(name: string, category: Analyzer.Category, adr: Option<Adresse>)
    requires SpelledFrom(name, TotalRentLetters)
    ensures Address(name, category, adr) == NoRule
  {
    var lists := [StreetTerms, HouseNumberTerms, PostcodeTerms, TownTerms, StateTerms];
    TermsMissing(name, TotalRentLetters, lists, ["rrr", "hhhhn", "pp", "wodn", "b"]);
    assert !Matches(name, lists[0]) && !Matches(name, lists[1]) && !Matches(name, lists[2]);
    assert !Matches(name, lists[3]) && !Matches(name, lists[4]);
  }

  lemma NoDwellingRule(name: string, w: Option<Wohnung>)
    requires SpelledFrom(name, TotalRentLetters)
    ensures Dwelling(name, w) == NoRule
  {
    var lists := [MoveInTerms, AreaTerms, RoomTerms, BuiltTerms, LandlordTerms];
    TermsMissing(name, TotalRentLetters, lists, ["nbnww", "wwqqffrr", "zrr", "bbrf", "vnnhv"]);
    assert !Matches(name, lists[0]) && !Matches(name, lists[1]) && !Matches(name, lists[2]);
    assert !Matches(name, lists[3]) && !Matches(name, lists[4]);
  }

  /** In BEHOERDE, a name spelled from those letters names no part of the
      authority's address, so it receives the authority's name. */
  lemma AuthorityNameRule(name: string, d: AntragDaten)
    requires SpelledFrom(name, TotalRentLetters)
    ensures Authority(name, Analyzer.Behoerde, Some(d)) == Resolved(d.wohngeldbehoerde)
  {
    var lists := [StreetWords, AuthorityPostcodeTerms, AuthorityTownTerms, AuthorityAddressWords];
    TermsMissing(name, TotalRentLetters, lists, ["rr", "pp", "od", "rrpo"]);
    assert !Matches(name, lists[0]) && !Matches(name, lists[1]) && !Matches(name, lists[2]) && !Matches(name, lists[3]);
  }

  lemma TotalRentNameLetters()
    ensures SpelledFrom("gesamtmiete", TotalRentLetters)
  {
  }

  /** A field named "gesamtmiete" outside BEHOERDE, or in a request without
      application data, reads the total rent with two decimals and a
      decimal comma, whatever else the request holds: the stored total when
      there is one, the sum of the four parts otherwise. */
  lemma TotalRentField(category: Analyzer.Category, req: WohngeldAntragRequest)
    requires category != Analyzer.Behoerde || req.antrag.None?
    requires req.miete.Some? && GesamtmieteDefined(req.miete.value)
    ensures GetValueForField("gesamtmiete", category, req) == Some(FormatFixed2(GetGesamtmiete(req.miete.value)))
    ensures req.miete.value.gesamtmiete.None? ==>
      GetValueForField("gesamtmiete", category, req) == Some(FormatFixed2(ComponentSum(req.miete.value)))
  {
    TotalRentNameLetters();
    NoApplicationRule("gesamtmiete", req.antrag);
    NoApplicantRule("gesamtmiete", req.antragsteller);
    NoAddressRule("gesamtmiete", category, req.adresse);
    NoDwellingRule("gesamtmiete", req.wohnung);
    RentWordsOfTotal();
  }

  /** As written, the analyzer files "gesamtmiete" under BEHOERDE, so with
      application data present the total-rent field receives the name of
      the Wohngeld authority instead of the rent. */
  lemma TotalRentFieldGetsAuthorityName(req: WohngeldAntragRequest)
    requires req.antrag.Some? && TotalRentReadable("gesamtmiete", req)
    ensures GetValueForField("gesamtmiete", Analyzer.DetermineCategory("gesamtmiete"), req)
      == req.antrag.value.wohngeldbehoerde
  {
    Analyzer.CorrectedTotalRentCategory();
    TotalRentNameLetters();
    AuthorityNameRule("gesamtmiete", req.antrag.value);
  }

  /** With the corrected category, the total-rent field receives the total
      rent for every request whose rent is readable. */
  lemma CorrectedTotalRentField(req: WohngeldAntragRequest)
    requires req.miete.Some? && GesamtmieteDefined(req.miete.value)
    ensures GetValueForField("gesamtmiete", Analyzer.CorrectedDetermineCategory("gesamtmiete"), req)
      == Some(FormatFixed2(GetGesamtmiete(req.miete.value)))
  {
    Analyzer.CorrectedTotalRentCategory();
    TotalRentField(Analyzer.Miete, req);
  }

  // ---------------------------------------------------------------------------
  // fillFieldIntelligently
  // ---------------------------------------------------------------------------

  /** What `fillFieldIntelligently` writes into a field the analyzer
      described: nothing for persons after the first; a tick when the
      checkbox rules answer true; otherwise the text the value rules find,
      unless it is missing or empty. The name is lower-cased first. */
  function IntelligentWrite(isCheckbox: bool, info: Analyzer.FieldInfo, req: WohngeldAntragRequest): (w: Option<Content>)
    requires TotalRentReadable(Lower(info.fullName), req)
    ensures info.personNumber > 1 ==> w.None?
    ensures isCheckbox ==>
      (w.Some? <==> info.personNumber <= 1 && GetCheckboxValue(Lower(info.fullName), req) == Some(true))
    ensures isCheckbox && w.Some? ==> w.value == Ticked
    ensures var v := GetValueForField(Lower(info.fullName), info.category, req);
      !isCheckbox ==> (w.Some? <==> info.personNumber <= 1 && v.Some? && v.value != [])
    ensures !isCheckbox && w.Some? ==> w.value == Text(GetValueForField(Lower(info.fullName), info.category, req).value)
  {
    var name := Lower(info.fullName);
    if info.personNumber > 1 then None
    else if isCheckbox then
      if GetCheckboxValue(name, req) == Some(true) then Some(Ticked) else None
    else
      var v := GetValueForField(name, info.category, req);
      if v.Some? && v.value != [] then Some(Text(v.value)) else None
  }

  /** A household-size field receives the person count in decimal, and the
      text "null", as `String.valueOf` renders a missing count, when the
      household has none. */
  lemma HouseholdCountWritten(info: Analyzer.FieldInfo, h: Haushalt)
    requires info.personNumber <= 1 && info.category != Analyzer.Behoerde
    requires Matches(Lower(info.fullName), NumberWord) && Matches(Lower(info.fullName), MemberTerms)
    ensures var req := WohngeldAntragRequest(None, None, None, None, Some(h), None, None, None);
      TotalRentReadable(Lower(info.fullName), req)
      && IntelligentWrite(false, info, req)
         == Some(Text(if h.anzahlPersonen.Some? then IntToString(h.anzahlPersonen.value) else "null"))
  {
  }
}
