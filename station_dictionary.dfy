/**
 * The pronunciation dictionary of JR terms: entries read from a CSV text
 * (`term,reading,ipa,alternative...`), the lookup by term or alternative
 * spelling, the phrase list handed to speech recognition and the SSML
 * pronunciation lexicon. The CSV text is what the `fetch` returned, `None`
 * when that failed.
 */
module StationDictionary {
  import opened Wrappers
  import opened JsText
  import opened Sequences
  import opened StationNormalizer

  datatype TermPronunciation = TermPronunciation(
    term: string,
    reading: string,
    ipa: Option<string>,
    alternativeSpellings: Option<seq<string>>)

  /** The entry the dictionary falls back to when the CSV cannot be fetched. */
  function Fallback(): seq<TermPronunciation> {
    [TermPronunciation("飯給", "いたぶ", Some("itabu"), Some(["いたぶ", "イタブ"]))]
  }

  // ----- Reading the CSV -----

  /** The non-empty trimmed values, in order. */
  function NonEmptyTrimmed(values: seq<string>): (r: seq<string>)
    ensures forall k :: 0 <= k < |r| ==> r[k] != [] && Trim(r[k]) == r[k]
  {
    if values == [] then []
    else
      var v := Trim(values[|values| - 1]);
      TrimTwice(values[|values| - 1]);
      NonEmptyTrimmed(values[..|values| - 1]) + (if v != [] then [v] else [])
  }

  /** `alternativeSpellings.length > 0 ? alternativeSpellings : undefined`. */
  function Alternatives(values: seq<string>): Option<seq<string>> {
    var alts := NonEmptyTrimmed(values);
    if |alts| > 0 then Some(alts) else None
  }

  /** One data row; a row with fewer than three values is skipped. */
  function ParseTermRow(line: string): Option<TermPronunciation> {
    var values := Split(line, ',');
    if |values| < 3 then None
    else
      var ipa := Trim(values[2]);
      Some(TermPronunciation(Trim(values[0]), Trim(values[1]), if ipa == [] then None else Some(ipa),
        Alternatives(values[3..])))
  }

  function TermRows(lines: seq<string>): seq<TermPronunciation> {
    if lines == [] then []
    else
      var row := ParseTermRow(lines[|lines| - 1]);
      TermRows(lines[..|lines| - 1]) + (if row.Some? then [row.value] else [])
  }

  lemma {:induction false} TermRowsSnoc(u: seq<string>, line: string)
    ensures TermRows(u + [line]) == TermRows(u) + (if ParseTermRow(line).Some? then [ParseTermRow(line).value] else [])
  {
    assert (u + [line])[..|u|] == u;
  }

  /** The loop of `loadStationDictionary` over the lines after the header. */
  method ReadTermRows(lines: seq<string>) returns (rows: seq<TermPronunciation>)
    requires lines != []
    ensures rows == TermRows(lines[1..])
  {
    rows := [];
    var i := 1;
    while i < |lines|
      invariant 1 <= i <= |lines| && rows == TermRows(lines[1..i])
    {
      var values := Split(lines[i], ',');
      assert lines[1..i + 1] == lines[1..i] + [lines[i]];
      TermRowsSnoc(lines[1..i], lines[i]);
      i := i + 1;
      if |values| < 3 {
        continue;
      }
      var term := Trim(values[0]);
      var reading := Trim(values[1]);
      var ipa := if Trim(values[2]) == [] then None else Some(Trim(values[2]));
      var alternativeSpellings := CollectAlternatives(values);
      rows := rows + [TermPronunciation(term, reading, ipa, alternativeSpellings)];
    }
    assert lines[1..i] == lines[1..];
  }

  /** The dictionary a CSV text gives: a row per non-blank line after the header. */
  function ParseTermDictionary(csvText: string): seq<TermPronunciation> {
    var lines := CsvLines(csvText);
    if lines == [] then [] else TermRows(lines[1..])
  }

  /** The collecting loop `for (let j = 3; j < values.length; j++)`. */
  method CollectAlternatives(values: seq<string>) returns (r: Option<seq<string>>)
    ensures r == Alternatives(if |values| < 3 then [] else values[3..])
  {
    var alternativeSpellings: seq<string> := [];
    var j := 3;
    while j < |values|
      invariant 3 <= j <= |values| || (j == 3 && |values| < 3)
      invariant alternativeSpellings == NonEmptyTrimmed(if j <= |values| then values[3..j] else [])
    {
      var spelling := Trim(values[j]);
      assert values[3..j + 1] == values[3..j] + [values[j]];
      if spelling != [] {
        alternativeSpellings := alternativeSpellings + [spelling];
      }
      j := j + 1;
    }
    if |values| >= 3 {
      assert values[3..j] == values[3..];
    }
    r := if |alternativeSpellings| > 0 then Some(alternativeSpellings) else None;
  }

  predicate AllTrimmedNonEmpty(values: seq<string>) {
    |values| > 0 && forall k :: 0 <= k < |values| ==> values[k] != [] && Trim(values[k]) == values[k]
  }

  /** A stored entry: trimmed fields, an ipa that is present only when non-empty, non-empty alternatives. */
  predicate WellFormed(e: TermPronunciation) {
    Trim(e.term) == e.term && Trim(e.reading) == e.reading
    && (e.ipa.Some? ==> e.ipa.value != [] && Trim(e.ipa.value) == e.ipa.value)
    && (e.alternativeSpellings.Some? ==> AllTrimmedNonEmpty(e.alternativeSpellings.value))
  }

  /** Every entry read from a CSV text is well formed, and there is at most one per line. */
  lemma {:induction false} TermRowsWellFormed(lines: seq<string>)
    ensures forall k :: 0 <= k < |TermRows(lines)| ==> WellFormed(TermRows(lines)[k])
    ensures |TermRows(lines)| <= |lines|
  {
    if lines != [] {
      TermRowsWellFormed(lines[..|lines| - 1]);
      var values := Split(lines[|lines| - 1], ',');
      if |values| >= 3 {
        TrimTwice(values[0]);
        TrimTwice(values[1]);
        TrimTwice(values[2]);
      }
    }
  }

  /** The CSV line of an entry: an absent ipa is an empty column, alternatives follow. */
  function TermLine(e: TermPronunciation): string {
    Join([e.term, e.reading, if e.ipa.Some? then e.ipa.value else ""]
      + (if e.alternativeSpellings.Some? then e.alternativeSpellings.value else []), ",")
  }

  /** An entry a CSV line can hold: well formed and without commas. */
  predicate TermWritable(e: TermPronunciation) {
    WellFormed(e) && ',' !in e.term && ',' !in e.reading && (e.ipa.Some? ==> ',' !in e.ipa.value)
    && (e.alternativeSpellings.Some? ==> forall k :: 0 <= k < |e.alternativeSpellings.value| ==>
      ',' !in e.alternativeSpellings.value[k])
  }

  lemma {:induction false} NonEmptyTrimmedOfTrimmed(values: seq<string>)
    requires forall k :: 0 <= k < |values| ==> values[k] != [] && Trim(values[k]) == values[k]
    ensures NonEmptyTrimmed(values) == values
  {
    if values != [] {
      NonEmptyTrimmedOfTrimmed(values[..|values| - 1]);
    }
  }

  /** The columns of an entry are the fields its CSV line splits into. */
  lemma {:induction false} ColumnsSplit(e: TermPronunciation)
    requires TermWritable(e)
    ensures Split(TermLine(e), ',') == Columns(e)
  {
    var alts := if e.alternativeSpellings.Some? then e.alternativeSpellings.value else [];
    var parts := Columns(e);
    forall k | 0 <= k < |parts| ensures ',' !in parts[k] {
      if k >= 3 {
        assert parts[k] == alts[k - 3];
      }
    }
    JoinSplit(parts, ',');
  }

  /** A written entry reads back as itself. */
  lemma {:induction false} TermRowRoundTrip(e: TermPronunciation)
    requires TermWritable(e)
    ensures ParseTermRow(TermLine(e)) == Some(e)
  {
    ColumnsSplit(e);
    var alts := if e.alternativeSpellings.Some? then e.alternativeSpellings.value else [];
    assert Columns(e)[3..] == alts;
    NonEmptyTrimmedOfTrimmed(alts);
    assert Trim("") == "";
  }

  function TermLines(entries: seq<TermPronunciation>): (r: seq<string>)
    ensures |r| == |entries| && forall k :: 0 <= k < |entries| ==> r[k] == TermLine(entries[k])
  {
    if entries == [] then [] else TermLines(entries[..|entries| - 1]) + [TermLine(entries[|entries| - 1])]
  }

  /** The written fields of an entry, in column order. */
  function Columns(e: TermPronunciation): (r: seq<string>)
    ensures |r| >= 3 && TermLine(e) == Join(r, ",")
  {
    [e.term, e.reading, if e.ipa.Some? then e.ipa.value else ""]
      + (if e.alternativeSpellings.Some? then e.alternativeSpellings.value else [])
  }

  /** An entry a CSV file can hold: writable on one line, without line breaks. */
  predicate FileWritable(e: TermPronunciation) {
    TermWritable(e) && forall k :: 0 <= k < |Columns(e)| ==> '\n' !in Columns(e)[k]
  }

  lemma {:induction false} TermRowsOfTermLines(entries: seq<TermPronunciation>)
    requires forall k :: 0 <= k < |entries| ==> TermWritable(entries[k])
    ensures TermRows(TermLines(entries)) == entries
  {
    if entries != [] {
      var u := entries[..|entries| - 1];
      assert TermLines(entries)[..|entries| - 1] == TermLines(u);
      TermRowsOfTermLines(u);
      TermRowRoundTrip(entries[|entries| - 1]);
    }
  }

  /** The CSV line of an entry is one non-blank line. */
  lemma {:induction false} TermLineSingle(e: TermPronunciation)
    requires FileWritable(e)
    ensures NonBlankLine(TermLine(e)) && '\n' !in TermLine(e)
  {
    var c := Columns(e);
    var l := TermLine(e);
    assert l == c[0] + "," + Join(c[1..], ",");
    assert l[|c[0]|] == ',';
    assert !IsWhite(l[|c[0]|]);
    assert !AllWhite(l);
    TrimEmptyIffAllWhite(l);
    JoinAvoids(c, ",", '\n');
  }

  /**
   * Writing entries one per line under a header and reading the text back
   * gives the entries.
   */
  lemma {:induction false} ParseTermDictionaryRoundTrip(header: string, entries: seq<TermPronunciation>)
    requires NonBlankLine(header) && '\n' !in header
    requires forall k :: 0 <= k < |entries| ==> FileWritable(entries[k])
    ensures ParseTermDictionary(Join([header] + TermLines(entries), "\n")) == entries
  {
    var lines := [header] + TermLines(entries);
    forall k | 0 <= k < |lines| ensures '\n' !in lines[k] && NonBlankLine(lines[k]) {
      if k > 0 {
        assert lines[k] == TermLine(entries[k - 1]);
        TermLineSingle(entries[k - 1]);
      }
    }
    JoinSplit(lines, '\n');
    FilterAll(lines, NonBlankLine);
    assert lines[1..] == TermLines(entries);
    TermRowsOfTermLines(entries);
  }

  // ----- Lookups -----

  /** `item.term === termName || item.alternativeSpellings?.includes(termName)`. */
  predicate Names(e: TermPronunciation, termName: string) {
    e.term == termName || (e.alternativeSpellings.Some? && termName in e.alternativeSpellings.value)
  }

  /** `getStationPronunciation`: the first entry naming the term, if any. */
  function FindPronunciation(dict: seq<TermPronunciation>, termName: string): (r: Option<nat>)
    ensures r.Some? ==> (r.value < |dict| && Names(dict[r.value], termName)
      && forall k :: 0 <= k < r.value ==> !Names(dict[k], termName))
    ensures r.None? ==> forall k :: 0 <= k < |dict| ==> !Names(dict[k], termName)
  {
    if dict == [] then None
    else if Names(dict[0], termName) then Some(0)
    else match FindPronunciation(dict[1..], termName)
      case None => None
      case Some(k) => Some(k + 1)
  }

  // ----- Recognition phrases -----

  /** The one-character terms that get no 駅/えき variant. */
  predicate IsParticle(term: string) { term in ["発", "着", "行", "止"] }

  /** The phrases one entry contributes, in the order they are pushed. */
  function EntryPhrases(e: TermPronunciation): seq<string> {
    [e.term] + (if !IsParticle(e.term) then [e.term + "駅"] else [])
    + [e.reading] + (if !IsParticle(e.term) then [e.reading + "えき"] else [])
    + (if e.alternativeSpellings.Some? then e.alternativeSpellings.value else [])
  }

  function AllPhrases(dict: seq<TermPronunciation>): seq<string> {
    if dict == [] then [] else AllPhrases(dict[..|dict| - 1]) + EntryPhrases(dict[|dict| - 1])
  }

  lemma {:induction false} AllPhrasesSnoc(dict: seq<TermPronunciation>, i: nat)
    requires i < |dict|
    ensures AllPhrases(dict[..i + 1]) == AllPhrases(dict[..i]) + EntryPhrases(dict[i])
  {
    assert dict[..i + 1][..i] == dict[..i];
  }

  /** One turn of the `forEach` in `getRecognitionPhrases`: the pushes for one entry. */
  method PushEntryPhrases(phrases: seq<string>, item: TermPronunciation) returns (r: seq<string>)
    ensures r == phrases + EntryPhrases(item)
  {
    r := phrases + [item.term];
    if !(item.term in ["発", "着", "行", "止"]) {
      r := r + [item.term + "駅"];
    }
    r := r + [item.reading];
    if !(item.term in ["発", "着", "行", "止"]) {
      r := r + [item.reading + "えき"];
    }
    if item.alternativeSpellings.Some? {
      r := r + item.alternativeSpellings.value;
    }
  }

  /** `[...new Set(s)]`: each value once, at the place it first occurs. */
  function Dedup<T(==)>(s: seq<T>): seq<T> {
    if s == [] then []
    else
      var d := Dedup(s[..|s| - 1]);
      if s[|s| - 1] in d then d else d + [s[|s| - 1]]
  }

  predicate NoDuplicates<T(==)>(s: seq<T>) {
    forall i, j :: 0 <= i < j < |s| ==> s[i] != s[j]
  }

  /** The index of the first occurrence of `x`. */
  function FirstIndex<T(==)>(s: seq<T>, x: T): (r: nat)
    requires x in s
    ensures r < |s| && s[r] == x && x !in s[..r]
  {
    if s[0] == x then 0
    else
      var k := FirstIndex(s[1..], x);
      assert s[..k + 1] == [s[0]] + s[1..][..k];
      k + 1
  }

  lemma {:induction false} FirstIndexPrefix<T>(s: seq<T>, n: nat, x: T)
    requires n <= |s| && x in s[..n]
    ensures FirstIndex(s, x) == FirstIndex(s[..n], x)
  {
    var a, b := FirstIndex(s, x), FirstIndex(s[..n], x);
    assert s[..n][b] == s[b];
    assert s[..n][..b] == s[..b];
  }

  /**
   * The deduplicated list holds exactly the values of the input, each once,
   * in the order of their first occurrences.
   */
  lemma {:induction false} DedupProperties<T>(s: seq<T>)
    ensures forall x :: x in Dedup(s) <==> x in s
    ensures NoDuplicates(Dedup(s))
    ensures forall i, j :: 0 <= i < j < |Dedup(s)| ==> FirstIndex(s, Dedup(s)[i]) < FirstIndex(s, Dedup(s)[j])
  {
    if s != [] {
      var u := s[..|s| - 1];
      var x := s[|s| - 1];
      DedupProperties(u);
      var d := Dedup(u);
      assert s == u + [x];
      assert s[..|u|] == u;
      forall y | y in u ensures FirstIndex(s, y) == FirstIndex(u, y) {
        FirstIndexPrefix(s, |u|, y);
      }
      if x !in d {
        assert x !in u;
        assert FirstIndex(s, x) == |u|;
        var r := Dedup(s);
        forall i, j | 0 <= i < j < |r| ensures FirstIndex(s, r[i]) < FirstIndex(s, r[j]) {
          assert r[i] in d;
          if j < |d| {
            assert r[j] in d;
          }
        }
      }
    }
  }

  lemma {:induction false} AllPhrasesMembers(dict: seq<TermPronunciation>, x: string)
    ensures x in AllPhrases(dict) <==> exists k :: 0 <= k < |dict| && x in EntryPhrases(dict[k])
  {
    if dict != [] {
      var u := dict[..|dict| - 1];
      AllPhrasesMembers(u, x);
      if x in AllPhrases(u) {
        var k :| 0 <= k < |u| && x in EntryPhrases(u[k]);
        assert dict[k] == u[k];
      }
      if exists k :: 0 <= k < |dict| && x in EntryPhrases(dict[k]) {
        var k :| 0 <= k < |dict| && x in EntryPhrases(dict[k]);
        if k < |u| {
          assert u[k] == dict[k];
        }
      }
    }
  }

  /** Each entry's own phrases hold its term, reading and alternatives, and the 駅/えき forms of a non-particle. */
  lemma {:induction false} EntryPhrasesHold(e: TermPronunciation)
    ensures e.term in EntryPhrases(e) && e.reading in EntryPhrases(e)
    ensures !IsParticle(e.term) ==> e.term + "駅" in EntryPhrases(e) && e.reading + "えき" in EntryPhrases(e)
    ensures e.alternativeSpellings.Some? ==> forall a :: a in e.alternativeSpellings.value ==> a in EntryPhrases(e)
  {
    var p := EntryPhrases(e);
    assert p[0] == e.term;
    if IsParticle(e.term) {
      assert p[1] == e.reading;
    } else {
      assert p[1] == e.term + "駅" && p[2] == e.reading && p[3] == e.reading + "えき";
    }
  }

  /**
   * The recognition phrases are duplicate-free and hold exactly the phrases
   * of the entries.
   */
  lemma {:induction false} RecognitionPhrasesExact(dict: seq<TermPronunciation>)
    ensures NoDuplicates(Dedup(AllPhrases(dict)))
    ensures forall x :: x in Dedup(AllPhrases(dict)) <==> exists k :: 0 <= k < |dict| && x in EntryPhrases(dict[k])
  {
    DedupProperties(AllPhrases(dict));
    forall x ensures x in AllPhrases(dict) <==> exists k :: 0 <= k < |dict| && x in EntryPhrases(dict[k]) {
      AllPhrasesMembers(dict, x);
    }
  }

  /**
   * Every term, reading and alternative spelling is a recognition phrase,
   * and so are the term with 駅 and the reading with えき of a term that is
   * not a particle.
   */
  lemma {:induction false} RecognitionPhrasesCover(dict: seq<TermPronunciation>, k: nat)
    requires k < |dict|
    ensures dict[k].term in Dedup(AllPhrases(dict)) && dict[k].reading in Dedup(AllPhrases(dict))
    ensures !IsParticle(dict[k].term) ==>
      dict[k].term + "駅" in Dedup(AllPhrases(dict)) && dict[k].reading + "えき" in Dedup(AllPhrases(dict))
    ensures dict[k].alternativeSpellings.Some? ==>
      forall a :: a in dict[k].alternativeSpellings.value ==> a in Dedup(AllPhrases(dict))
  {
    RecognitionPhrasesExact(dict);
    EntryPhrasesHold(dict[k]);
  }

  // ----- The pronunciation lexicon -----

  /** `filter(item => item.ipa)`: an ipa that is present and non-empty. */
  predicate HasIpa(e: TermPronunciation) { e.ipa.Some? && e.ipa.value != [] }

  function Lexeme(e: TermPronunciation): string
    requires e.ipa.Some?
  {
    "\n    <lexeme>\n        <grapheme>" + e.term + "</grapheme>\n        <phoneme>" + e.ipa.value
    + "</phoneme>\n    </lexeme>"
  }

  function Lexemes(entries: seq<TermPronunciation>): string
    requires forall k :: 0 <= k < |entries| ==> HasIpa(entries[k])
  {
    if entries == [] then []
    else
      assert HasIpa(entries[|entries| - 1]);
      Lexemes(entries[..|entries| - 1]) + Lexeme(entries[|entries| - 1])
  }

  const LexiconHead := "<?xml version=\"1.0\" encoding=\"UTF-8\"?>\n<lexicon version=\"1.0\"\n"
    + "      xmlns=\"http://www.w3.org/2005/01/pronunciation-lexicon\"\n"
    + "      xmlns:xsi=\"http://www.w3.org/2001/XMLSchema-instance\"\n"
    + "      xsi:schemaLocation=\"http://www.w3.org/2005/01/pronunciation-lexicon\n"
    + "        http://www.w3.org/TR/2007/CR-pronunciation-lexicon-20071212/pls.xsd\"\n"
    + "      alphabet=\"ipa\" xml:lang=\"ja-JP\">"

  const LexiconTail := "\n</lexicon>"

  lemma {:induction false} FilterHasIpa(dict: seq<TermPronunciation>)
    ensures forall k :: 0 <= k < |Filter(dict, HasIpa)| ==> HasIpa(Filter(dict, HasIpa)[k])
  {
    forall k | 0 <= k < |Filter(dict, HasIpa)| ensures HasIpa(Filter(dict, HasIpa)[k]) {
      FilterMember(dict, HasIpa, Filter(dict, HasIpa)[k]);
    }
  }

  /** `generateSSMLLexicon`: one lexeme per entry with an ipa, in dictionary order. */
  function SsmlLexicon(dict: seq<TermPronunciation>): string {
    FilterHasIpa(dict);
    LexiconHead + Lexemes(Filter(dict, HasIpa)) + LexiconTail
  }

  lemma {:induction false} LexemesContain(entries: seq<TermPronunciation>, k: nat)
    requires forall i :: 0 <= i < |entries| ==> HasIpa(entries[i])
    requires k < |entries|
    ensures Contains(Lexemes(entries), Lexeme(entries[k]))
  {
    var u := entries[..|entries| - 1];
    var l := Lexeme(entries[|entries| - 1]);
    assert Lexemes(entries) == [] + Lexemes(u) + l;
    if k == |entries| - 1 {
      assert IsAt(l, l, 0) by { assert l[0..|l|] == l; }
      ContainsInside([] + Lexemes(u), l, [], l);
      assert [] + Lexemes(u) + l + [] == Lexemes(entries);
    } else {
      LexemesContain(u, k);
      assert entries[k] == u[k];
      ContainsInside([], Lexemes(u), l, Lexeme(u[k]));
    }
  }

  /** The lexicon is the fixed PLS header and footer around the lexemes. */
  lemma {:induction false} SsmlLexiconFrame(dict: seq<TermPronunciation>)
    ensures StartsWith(SsmlLexicon(dict), LexiconHead) && EndsWith(SsmlLexicon(dict), LexiconTail)
  {
    FilterHasIpa(dict);
    var r := SsmlLexicon(dict);
    assert r == LexiconHead + Lexemes(Filter(dict, HasIpa)) + LexiconTail;
    assert r[..|LexiconHead|] == LexiconHead;
    assert r[|r| - |LexiconTail|..] == LexiconTail;
  }

  /** The lexicon holds the lexeme of every entry that has an ipa. */
  lemma {:induction false} SsmlLexiconHasLexeme(dict: seq<TermPronunciation>, k: nat)
    requires k < |dict| && HasIpa(dict[k])
    ensures Contains(SsmlLexicon(dict), Lexeme(dict[k]))
  {
    FilterHasIpa(dict);
    var f := Filter(dict, HasIpa);
    FilterMember(dict, HasIpa, dict[k]);
    var i :| 0 <= i < |f| && f[i] == dict[k];
    LexemesContain(f, i);
    ContainsInside(LexiconHead, Lexemes(f), LexiconTail, Lexeme(dict[k]));
  }

  /** With no entry that has an ipa the lexicon is the header and footer alone. */
  lemma {:induction false} SsmlLexiconEmpty(dict: seq<TermPronunciation>)
    requires forall k :: 0 <= k < |dict| ==> !HasIpa(dict[k])
    ensures SsmlLexicon(dict) == LexiconHead + LexiconTail
  {
    FilterHasIpa(dict);
    var f := Filter(dict, HasIpa);
    if f != [] {
      FilterMember(dict, HasIpa, f[0]);
    }
    assert f == [];
  }

  /** The term dictionary, filled once from the CSV file. */
  class TermDictionary {
    var entries: seq<TermPronunciation>

    constructor()
      ensures entries == []
    {
      entries := [];
    }

    /**
     * `loadStationDictionary`: the rows of the CSV text, or the single
     * fallback entry when it could not be fetched.
     */
    method LoadStationDictionary(csvText: Option<string>)
      modifies this
      ensures entries == (if csvText.None? then Fallback() else ParseTermDictionary(csvText.value))
    {
      if csvText.None? {
        entries := Fallback();
        return;
      }
      var lines := CsvLines(csvText.value);
      var rows: seq<TermPronunciation> := [];
      if lines != [] {
        rows := ReadTermRows(lines);
      }
      entries := rows;
    }

    /** `getStationPronunciation`: `find`, so the first entry naming the term. */
    function GetStationPronunciation(termName: string): (r: Option<TermPronunciation>)
      reads this
      ensures r.Some? ==> exists k :: (0 <= k < |entries| && r.value == entries[k] && Names(entries[k], termName)
                                       && forall j :: 0 <= j < k ==> !Names(entries[j], termName))
      ensures r.None? <==> forall k :: 0 <= k < |entries| ==> !Names(entries[k], termName)
    {
      match FindPronunciation(entries, termName)
      case None => None
      case Some(k) => Some(entries[k])
    }

    /** `getRecognitionPhrases`: the `forEach` pushing each entry's phrases, then the dedup. */
    method GetRecognitionPhrases() returns (r: seq<string>)
      ensures r == Dedup(AllPhrases(entries))
    {
      var phrases: seq<string> := [];
      for i := 0 to |entries|
        invariant phrases == AllPhrases(entries[..i])
      {
        AllPhrasesSnoc(entries, i);
        phrases := PushEntryPhrases(phrases, entries[i]);
      }
      assert entries[..|entries|] == entries;
      r := Dedup(phrases);
    }

    /** `generateSSMLLexicon`. */
    function GenerateSsmlLexicon(): string
      reads this
    {
      SsmlLexicon(entries)
    }
  }
}
