/**
 * The station-name normaliser: a dictionary of station names and their
 * hiragana readings loaded once from a CSV text, and the lookup that turns
 * what the user said into a dictionary station. The dictionary text is what
 * the `fetch` of the CSV file returned, `None` when that failed.
 */
module StationNormalizer {
  import opened Wrappers
  import opened JsText
  import opened Sequences

  datatype StationEntry = StationEntry(name: string, reading: string)

  datatype NormalizeResult = NormalizeResult(
    originalInput: string,
    hiraganaReadingOnYomi: string,
    hiraganaReadingKunYomi: string,
    suggestedStation: Option<string>,
    suggestedStationKana: Option<string>,
    confidence: int)

  // ----- Katakana to hiragana -----

  /** The katakana block U+30A1 (ァ) to U+30F6 (ヶ) that the replacement matches. */
  predicate IsKatakana(c: char) { '\U{30A1}' <= c <= '\U{30F6}' }

  /** The replacement callback: the code point 0x60 lower, in the hiragana block. */
  function KanaToHiragana(c: char): char {
    if IsKatakana(c) then (c as int - 0x60) as char else c
  }

  /** `toHiragana`: every katakana replaced by its hiragana, then lower-cased. */
  function ToHiragana(s: string): (r: string)
    ensures |r| == |s|
  {
    ToLower(seq(|s|, k requires 0 <= k < |s| => KanaToHiragana(s[k])))
  }

  /**
   * Each character is shifted exactly when it is katakana and otherwise only
   * lower-cased; the result holds neither katakana nor ASCII capitals, so
   * converting twice is converting once.
   */
  lemma {:induction false} ToHiraganaShape(s: string)
    ensures forall k :: 0 <= k < |s| ==>
      ToHiragana(s)[k] == (if IsKatakana(s[k]) then (s[k] as int - 0x60) as char else LowerChar(s[k]))
    ensures forall k :: 0 <= k < |s| ==> !IsKatakana(ToHiragana(s)[k]) && !('A' <= ToHiragana(s)[k] <= 'Z')
    ensures ToHiragana(ToHiragana(s)) == ToHiragana(s)
  {
    var r := ToHiragana(s);
    assert forall k :: 0 <= k < |s| ==> !IsKatakana(r[k]) && !('A' <= r[k] <= 'Z');
    var rr := ToHiragana(r);
    assert forall k :: 0 <= k < |r| ==> rr[k] == r[k];
  }

  // ----- Edit distance -----

  function Min3(a: nat, b: nat, c: nat): nat {
    if a <= b && a <= c then a else if b <= c then b else c
  }

  /**
   * The edit distance between the first `i` characters of `s` and the first
   * `j` of `t`: a deletion, an insertion or a substitution (free for equal
   * characters) at the end.
   */
  function Dist(s: string, t: string, i: nat, j: nat): nat
    requires i <= |s| && j <= |t|
    decreases i + j
  {
    if i == 0 then j
    else if j == 0 then i
    else Min3(Dist(s, t, i - 1, j) + 1, Dist(s, t, i, j - 1) + 1,
      Dist(s, t, i - 1, j - 1) + (if s[i - 1] == t[j - 1] then 0 else 1))
  }

  function EditDistance(s: string, t: string): nat { Dist(s, t, |s|, |t|) }

  /** `levenshteinDistance`: the table filled row by row from the first row and column. */
  method LevenshteinDistance(str1: string, str2: string) returns (r: nat)
    ensures r == EditDistance(str1, str2)
  {
    var len1, len2 := |str1|, |str2|;
    var dp := new nat[len1 + 1, len2 + 1]((i, j) => 0);
    for i := 0 to len1 + 1
      invariant forall a :: 0 <= a < i ==> dp[a, 0] == a
    {
      dp[i, 0] := i;
    }
    for j := 0 to len2 + 1
      invariant forall a :: 0 <= a <= len1 ==> dp[a, 0] == a
      invariant forall b :: 0 <= b < j ==> dp[0, b] == b
    {
      dp[0, j] := j;
    }
    for i := 1 to len1 + 1
      invariant forall a :: 0 <= a <= len1 ==> dp[a, 0] == a
      invariant forall a, b {:trigger dp[a, b]} :: 0 <= a < i && 0 <= b <= len2 ==> dp[a, b] == Dist(str1, str2, a, b)
    {
      FillRow(str1, str2, dp, i, i - 1);
    }
    r := dp[len1, len2];
  }

  /** Row `i` of the table from row `p`, the one above it, and its first cell. */
  method FillRow(str1: string, str2: string, dp: array2<nat>, i: nat, p: nat)
    requires dp.Length0 == |str1| + 1 && dp.Length1 == |str2| + 1 && 1 <= i <= |str1| && p + 1 == i
    requires dp[i, 0] == i
    requires forall b {:trigger dp[p, b]} :: 0 <= b <= |str2| ==> dp[p, b] == Dist(str1, str2, p, b)
    modifies dp
    ensures forall a, b :: 0 <= a < dp.Length0 && 0 <= b < dp.Length1 && a != i ==> dp[a, b] == old(dp[a, b])
    ensures forall b {:trigger dp[i, b]} :: 0 <= b <= |str2| ==> dp[i, b] == Dist(str1, str2, i, b)
  {
    for j := 1 to |str2| + 1
      invariant forall a, b :: 0 <= a < dp.Length0 && 0 <= b < dp.Length1 && a != i ==> dp[a, b] == old(dp[a, b])
      invariant forall b {:trigger dp[i, b]} :: 0 <= b < j ==> dp[i, b] == Dist(str1, str2, i, b)
    {
      var cost := if str1[i - 1] == str2[j - 1] then 0 else 1;
      var up, left, diag := dp[p, j], dp[i, j - 1], dp[p, j - 1];
      DistCell(str1, str2, i, j);
      dp[i, j] := Min3(up + 1, left + 1, diag + cost);
    }
  }

  /** A cell of the table from its three neighbours. */
  lemma {:induction false} DistCell(s: string, t: string, i: nat, j: nat)
    requires 0 < i <= |s| && 0 < j <= |t|
    ensures Dist(s, t, i, j) == Min3(Dist(s, t, i - 1, j) + 1, Dist(s, t, i, j - 1) + 1,
      Dist(s, t, i - 1, j - 1) + (if s[i - 1] == t[j - 1] then 0 else 1))
  {
  }

  /** A string is at distance 0 from itself. */
  lemma {:induction false} DistSelf(s: string, i: nat)
    requires i <= |s|
    ensures Dist(s, s, i, i) == 0
  {
    if i > 0 {
      DistSelf(s, i - 1);
    }
  }

  /**
   * A cell of the table by name. Proofs that relate neighbouring cells state
   * their steps through it, so that the solver does not unfold `Dist` further.
   */
  function Cell(s: string, t: string, i: nat, j: nat): nat
    requires i <= |s| && j <= |t|
  {
    Dist(s, t, i, j)
  }

  lemma {:induction false} CellStep(s: string, t: string, i: nat, j: nat)
    requires 0 < i <= |s| && 0 < j <= |t|
    ensures Cell(s, t, i, j) == Min3(Cell(s, t, i - 1, j) + 1, Cell(s, t, i, j - 1) + 1,
      Cell(s, t, i - 1, j - 1) + (if s[i - 1] == t[j - 1] then 0 else 1))
  {
    DistCell(s, t, i, j);
  }

  lemma {:induction false} Min3Swap(a: nat, b: nat, c: nat)
    ensures Min3(a, b, c) == Min3(b, a, c)
  {
  }

  lemma {:induction false} CellSymmetric(s: string, t: string, i: nat, j: nat)
    requires i <= |s| && j <= |t|
    ensures Cell(s, t, i, j) == Cell(t, s, j, i)
    decreases i + j
  {
    if i > 0 && j > 0 {
      CellStep(s, t, i, j);
      CellStep(t, s, j, i);
      CellSymmetric(s, t, i - 1, j);
      CellSymmetric(s, t, i, j - 1);
      CellSymmetric(s, t, i - 1, j - 1);
      var cost := if s[i - 1] == t[j - 1] then 0 else 1;
      Min3Swap(Cell(s, t, i - 1, j) + 1, Cell(s, t, i, j - 1) + 1, Cell(s, t, i - 1, j - 1) + cost);
    }
  }

  /** Swapping the two strings does not change the distance. */
  lemma {:induction false} DistSymmetric(s: string, t: string, i: nat, j: nat)
    requires i <= |s| && j <= |t|
    ensures Dist(s, t, i, j) == Dist(t, s, j, i)
  {
    CellSymmetric(s, t, i, j);
  }

  /** A cell is at most one more than its diagonal neighbour. */
  lemma {:induction false} Min3Upper(d: nat, a: nat, b: nat, c: nat, cost: nat, i: int, j: int)
    requires d == Min3(a + 1, b + 1, c + cost) && cost <= 1
    requires c <= if i - 1 <= j - 1 then j - 1 else i - 1
    ensures d <= if i <= j then j else i
  {
  }

  lemma {:induction false} CellUpper(s: string, t: string, i: nat, j: nat)
    requires i <= |s| && j <= |t|
    ensures Cell(s, t, i, j) <= if i <= j then j else i
    decreases i + j
  {
    if i > 0 && j > 0 {
      CellStep(s, t, i, j);
      CellUpper(s, t, i - 1, j - 1);
      var cost := if s[i - 1] == t[j - 1] then 0 else 1;
      Min3Upper(Cell(s, t, i, j), Cell(s, t, i - 1, j), Cell(s, t, i, j - 1), Cell(s, t, i - 1, j - 1), cost, i, j);
    }
  }

  /** At most the longer length: the diagonal path is one edit per step. */
  lemma {:induction false} DistUpper(s: string, t: string, i: nat, j: nat)
    requires i <= |s| && j <= |t|
    ensures Dist(s, t, i, j) <= if i <= j then j else i
  {
    CellUpper(s, t, i, j);
  }

  /** A cell closes the gap between the lengths by one at most. */
  lemma {:induction false} Min3Lower(d: nat, a: nat, b: nat, c: nat, cost: nat, i: int, j: int)
    requires d == Min3(a + 1, b + 1, c + cost)
    requires a >= if i - 1 <= j then j - (i - 1) else i - 1 - j
    requires b >= if i <= j - 1 then j - 1 - i else i - (j - 1)
    requires c >= if i - 1 <= j - 1 then j - i else i - j
    ensures d >= if i <= j then j - i else i - j
  {
  }

  lemma {:induction false} CellLower(s: string, t: string, i: nat, j: nat)
    requires i <= |s| && j <= |t|
    ensures Cell(s, t, i, j) >= if i <= j then j - i else i - j
    decreases i + j
  {
    if i > 0 && j > 0 {
      CellStep(s, t, i, j);
      CellLower(s, t, i - 1, j);
      CellLower(s, t, i, j - 1);
      CellLower(s, t, i - 1, j - 1);
      var cost := if s[i - 1] == t[j - 1] then 0 else 1;
      Min3Lower(Cell(s, t, i, j), Cell(s, t, i - 1, j), Cell(s, t, i, j - 1), Cell(s, t, i - 1, j - 1), cost, i, j);
    }
  }

  /** At least the difference of the lengths: each step closes it by one at most. */
  lemma {:induction false} DistLower(s: string, t: string, i: nat, j: nat)
    requires i <= |s| && j <= |t|
    ensures Dist(s, t, i, j) >= if i <= j then j - i else i - j
  {
    CellLower(s, t, i, j);
  }

  /** The distance is at most the longer length and at least the difference of the lengths. */
  lemma {:induction false} DistBounds(s: string, t: string, i: nat, j: nat)
    requires i <= |s| && j <= |t|
    ensures Dist(s, t, i, j) <= if i <= j then j else i
    ensures Dist(s, t, i, j) >= if i <= j then j - i else i - j
  {
    DistUpper(s, t, i, j);
    DistLower(s, t, i, j);
  }

  /** A cell is 0 only through a free diagonal step from a 0 cell. */
  lemma {:induction false} Min3Zero(a: nat, b: nat, c: nat, cost: nat)
    requires Min3(a + 1, b + 1, c + cost) == 0
    ensures c == 0 && cost == 0
  {
  }

  lemma {:induction false} CellZero(s: string, t: string, i: nat, j: nat)
    requires i <= |s| && j <= |t|
    requires Cell(s, t, i, j) == 0
    ensures i == j && s[..i] == t[..j]
    decreases i + j
  {
    CellLower(s, t, i, j);
    if i > 0 {
      CellStep(s, t, i, j);
      var cost := if s[i - 1] == t[j - 1] then 0 else 1;
      Min3Zero(Cell(s, t, i - 1, j), Cell(s, t, i, j - 1), Cell(s, t, i - 1, j - 1), cost);
      CellZero(s, t, i - 1, j - 1);
      assert s[..i] == s[..i - 1] + [s[i - 1]];
      assert t[..j] == t[..j - 1] + [t[j - 1]];
    }
  }

  /** Distance 0 means the two prefixes are equal. */
  lemma {:induction false} DistZero(s: string, t: string, i: nat, j: nat)
    requires i <= |s| && j <= |t|
    requires Dist(s, t, i, j) == 0
    ensures i == j && s[..i] == t[..j]
  {
    CellZero(s, t, i, j);
  }

  /** The edit distance: 0 exactly for equal strings, the length against "", symmetric, bounded. */
  lemma {:induction false} EditDistanceProperties(s: string, t: string)
    ensures EditDistance(s, t) == 0 <==> s == t
    ensures EditDistance(s, "") == |s| && EditDistance("", t) == |t|
    ensures EditDistance(s, t) == EditDistance(t, s)
    ensures EditDistance(s, t) <= if |s| <= |t| then |t| else |s|
    ensures EditDistance(s, t) >= if |s| <= |t| then |t| - |s| else |s| - |t|
  {
    if s == t {
      DistSelf(s, |s|);
    }
    if EditDistance(s, t) == 0 {
      DistZero(s, t, |s|, |t|);
      assert s == s[..|s|] && t == t[..|t|];
    }
    DistSymmetric(s, t, |s|, |t|);
    DistBounds(s, t, |s|, |t|);
  }

  // ----- Reading the dictionary -----

  /** `lines.filter(line => line.trim())`. */
  predicate NonBlankLine(line: string) { Trim(line) != [] }

  /** One data row: the first two comma-separated values, trimmed; fewer than two values are skipped. */
  function ParseRow(line: string): Option<StationEntry> {
    var values := Split(line, ',');
    if |values| < 2 then None else Some(StationEntry(Trim(values[0]), Trim(values[1])))
  }

  function Rows(lines: seq<string>): seq<StationEntry> {
    if lines == [] then []
    else
      var row := ParseRow(lines[|lines| - 1]);
      Rows(lines[..|lines| - 1]) + (if row.Some? then [row.value] else [])
  }

  /** The loop of `loadDictionary` over the lines after the header. */
  method ReadRows(lines: seq<string>) returns (rows: seq<StationEntry>)
    requires lines != []
    ensures rows == Rows(lines[1..])
  {
    rows := [];
    var i := 1;
    while i < |lines|
      invariant 1 <= i <= |lines| && rows == Rows(lines[1..i])
    {
      var values := Split(lines[i], ',');
      assert lines[1..i + 1] == lines[1..i] + [lines[i]];
      RowsSnoc(lines[1..i], lines[i]);
      i := i + 1;
      if |values| < 2 {
        continue;
      }
      var name := Trim(values[0]);
      var reading := Trim(values[1]);
      rows := rows + [StationEntry(name, reading)];
    }
    assert lines[1..i] == lines[1..];
  }

  lemma {:induction false} RowsSnoc(u: seq<string>, line: string)
    ensures Rows(u + [line]) == Rows(u) + (if ParseRow(line).Some? then [ParseRow(line).value] else [])
  {
    assert (u + [line])[..|u|] == u;
  }

  /** The non-blank lines of the CSV text; the first is the header. */
  function CsvLines(csvText: string): seq<string> { Filter(Split(csvText, '\n'), NonBlankLine) }

  /** The dictionary a CSV text gives: a row per non-blank line after the header. */
  function ParseDictionary(csvText: string): seq<StationEntry> {
    var lines := CsvLines(csvText);
    if lines == [] then [] else Rows(lines[1..])
  }

  /** A CSV line for an entry. */
  function EntryLine(e: StationEntry): string { e.name + "," + e.reading }

  function EntryLines(entries: seq<StationEntry>): (r: seq<string>)
    ensures |r| == |entries| && forall k :: 0 <= k < |entries| ==> r[k] == EntryLine(entries[k])
  {
    if entries == [] then [] else EntryLines(entries[..|entries| - 1]) + [EntryLine(entries[|entries| - 1])]
  }

  /** An entry a CSV file can hold: trimmed values without commas or line breaks. */
  predicate Writable(e: StationEntry) {
    Trim(e.name) == e.name && Trim(e.reading) == e.reading
    && ',' !in e.name && ',' !in e.reading && '\n' !in e.name && '\n' !in e.reading
  }

  lemma {:induction false} RowsOfEntryLines(entries: seq<StationEntry>)
    requires forall k :: 0 <= k < |entries| ==> Writable(entries[k])
    ensures Rows(EntryLines(entries)) == entries
  {
    if entries != [] {
      var u := entries[..|entries| - 1];
      var e := entries[|entries| - 1];
      assert EntryLines(entries) == EntryLines(u) + [EntryLine(e)];
      RowsOfEntryLines(u);
      RowsSnoc(EntryLines(u), EntryLine(e));
      ParseEntryLine(e);
      assert Rows(EntryLines(entries)) == u + [e];
      assert u + [e] == entries;
    }
  }

  /** The CSV line of a writable entry parses back to the entry. */
  lemma {:induction false} ParseEntryLine(e: StationEntry)
    requires Writable(e)
    ensures ParseRow(EntryLine(e)) == Some(e)
  {
    var parts := [e.name, e.reading];
    assert forall k :: 0 <= k < |parts| ==> ',' !in parts[k];
    JoinSplit(parts, ',');
    assert Join(parts, [',']) == EntryLine(e) by {
      assert parts[1..] == [e.reading];
    }
  }

  /** A CSV line for an entry is never blank: it holds a comma. */
  lemma {:induction false} EntryLineNonBlank(e: StationEntry)
    ensures NonBlankLine(EntryLine(e))
  {
    var l := EntryLine(e);
    assert l[|e.name|] == ',';
    assert !IsWhite(l[|e.name|]);
    assert !AllWhite(l);
    TrimEmptyIffAllWhite(l);
  }

  /** The lines of a written dictionary hold no line break and none is blank. */
  lemma {:induction false} WrittenLinesClean(header: string, entries: seq<StationEntry>)
    requires NonBlankLine(header) && '\n' !in header
    requires forall k :: 0 <= k < |entries| ==> Writable(entries[k])
    ensures var lines := [header] + EntryLines(entries);
      (forall k :: 0 <= k < |lines| ==> '\n' !in lines[k]) && Filter(lines, NonBlankLine) == lines
  {
    var lines := [header] + EntryLines(entries);
    forall k | 0 <= k < |lines| ensures '\n' !in lines[k] && NonBlankLine(lines[k]) {
      if k > 0 {
        var e := entries[k - 1];
        assert lines[k] == EntryLine(e);
        EntryLineNonBlank(e);
        assert '\n' !in EntryLine(e) by {
          assert EntryLine(e) == e.name + [','] + e.reading;
        }
      }
    }
    FilterAll(lines, NonBlankLine);
  }

  /** The non-blank lines of a written dictionary are the header and the entry lines. */
  lemma {:induction false} WrittenCsvLines(header: string, entries: seq<StationEntry>)
    requires NonBlankLine(header) && '\n' !in header
    requires forall k :: 0 <= k < |entries| ==> Writable(entries[k])
    ensures CsvLines(Join([header] + EntryLines(entries), "\n")) == [header] + EntryLines(entries)
  {
    var lines := [header] + EntryLines(entries);
    WrittenLinesClean(header, entries);
    JoinSplit(lines, '\n');
  }

  /**
   * Writing entries one per line under a header and reading the text back
   * gives the entries.
   */
  lemma {:induction false} ParseDictionaryRoundTrip(header: string, entries: seq<StationEntry>)
    requires NonBlankLine(header) && '\n' !in header
    requires forall k :: 0 <= k < |entries| ==> Writable(entries[k])
    ensures ParseDictionary(Join([header] + EntryLines(entries), "\n")) == entries
  {
    WrittenCsvLines(header, entries);
    assert ([header] + EntryLines(entries))[1..] == EntryLines(entries);
    RowsOfEntryLines(entries);
  }

  /** Every value read from the file is trimmed. */
  lemma {:induction false} RowsTrimmed(lines: seq<string>)
    ensures forall k :: 0 <= k < |Rows(lines)| ==>
      Trim(Rows(lines)[k].name) == Rows(lines)[k].name && Trim(Rows(lines)[k].reading) == Rows(lines)[k].reading
    ensures |Rows(lines)| <= |lines|
  {
    if lines != [] {
      RowsTrimmed(lines[..|lines| - 1]);
      var row := ParseRow(lines[|lines| - 1]);
      if row.Some? {
        var values := Split(lines[|lines| - 1], ',');
        TrimTwice(values[0]);
        TrimTwice(values[1]);
      }
    }
  }

  lemma {:induction false} TrimTwice(s: string)
    ensures Trim(Trim(s)) == Trim(s)
  {
    TrimHasNoWhiteEdges(s);
    TrimNoEdges(Trim(s));
  }

  // ----- Normalising -----

  /** `.replace(/^ー+/, '')`. */
  function StripLeadingBars(s: string): (r: string)
    ensures |r| <= |s| && r == s[|s| - |r|..] && (r == [] || r[0] != 'ー')
  {
    if s != [] && s[0] == 'ー' then StripLeadingBars(s[1..]) else s
  }

  /** `.replace(/ー+$/, '')`. */
  function StripTrailingBars(s: string): (r: string)
    ensures |r| <= |s| && r == s[..|r|] && (r == [] || r[|r| - 1] != 'ー')
  {
    if s != [] && s[|s| - 1] == 'ー' then StripTrailingBars(s[..|s| - 1]) else s
  }

  /** The input trimmed, then without its leading and trailing runs of the long-vowel mark. */
  function CleanInput(input: string): string {
    StripTrailingBars(StripLeadingBars(Trim(input)))
  }

  /** The cleaned input is a piece of the trimmed input with no long-vowel mark at either end. */
  lemma {:induction false} CleanInputShape(input: string)
    ensures var c := CleanInput(input); c == [] || (c[0] != 'ー' && c[|c| - 1] != 'ー')
    ensures Contains(Trim(input), CleanInput(input))
  {
    var t := Trim(input);
    var l := StripLeadingBars(t);
    var c := StripTrailingBars(l);
    var i := |t| - |l|;
    assert c == t[i..i + |c|];
    assert IsAt(t, c, i);
  }

  /** `find`: the first entry whose name is the cleaned input or whose reading is its hiragana. */
  function FindExact(dict: seq<StationEntry>, cleaned: string, hiragana: string): (r: Option<nat>)
    ensures r.Some? ==> r.value < |dict| && (dict[r.value].name == cleaned || dict[r.value].reading == hiragana)
    ensures r.Some? ==> forall k :: 0 <= k < r.value ==> dict[k].name != cleaned && dict[k].reading != hiragana
    ensures r.None? ==> forall k :: 0 <= k < |dict| ==> dict[k].name != cleaned && dict[k].reading != hiragana
  {
    if dict == [] then None
    else if dict[0].name == cleaned || dict[0].reading == hiragana then Some(0)
    else match FindExact(dict[1..], cleaned, hiragana)
      case None => None
      case Some(k) => Some(k + 1)
  }

  /** Entry `k` is the first whose name is `c` or whose reading is `h`. */
  predicate FirstMatch(dict: seq<StationEntry>, c: string, h: string, k: int) {
    0 <= k < |dict| && (dict[k].name == c || dict[k].reading == h)
    && forall k' :: 0 <= k' < k ==> dict[k'].name != c && dict[k'].reading != h
  }

  /** What `normalize` returns for an input against a dictionary. */
  function NormalizeOf(dict: seq<StationEntry>, input: string): NormalizeResult {
    if Blank(input) then NormalizeResult(input, "", "", None, None, 0)
    else
      var cleaned := CleanInput(input);
      var hiragana := ToHiragana(cleaned);
      match FindExact(dict, cleaned, hiragana)
      case Some(k) => NormalizeResult(input, hiragana, hiragana, Some(dict[k].name), Some(dict[k].reading), 1)
      case None => NormalizeResult(input, hiragana, hiragana, None, None, 0)
  }

  /**
   * A blank input suggests nothing; otherwise the suggestion is the first
   * entry matching the cleaned input by name or by reading, with confidence
   * 1, and without such an entry nothing is suggested and the confidence is 0.
   */
  lemma {:induction false} NormalizeOutcome(dict: seq<StationEntry>, input: string)
    ensures var r := NormalizeOf(dict, input);
      && r.originalInput == input
      && (r.confidence == 1 <==> r.suggestedStation.Some?)
      && (r.confidence == 0 <==> r.suggestedStation.None?)
      && (r.suggestedStation.Some? <==> r.suggestedStationKana.Some?)
    ensures Blank(input) ==> NormalizeOf(dict, input) == NormalizeResult(input, "", "", None, None, 0)
    ensures !Blank(input) ==>
      var c := CleanInput(input);
      var h := ToHiragana(c);
      var r := NormalizeOf(dict, input);
      && r.hiraganaReadingOnYomi == h && r.hiraganaReadingKunYomi == h
      && ((forall k :: 0 <= k < |dict| ==> dict[k].name != c && dict[k].reading != h) <==> r.suggestedStation.None?)
      && forall k :: FirstMatch(dict, c, h, k) ==>
        r.suggestedStation == Some(dict[k].name) && r.suggestedStationKana == Some(dict[k].reading)
  {
  }

  /** The closest entry so far, by either distance; the first of equally close ones. */
  datatype BestMatch = BestMatch(station: StationEntry, distance: nat)

  /**
   * The loop of `normalize` over the dictionary that keeps the closest
   * entry, comparing the hiragana with each reading and the cleaned input
   * with each name. Its result is not used.
   */
  method FindBestMatch(dict: seq<StationEntry>, cleaned: string, hiragana: string) returns (best: Option<BestMatch>)
    ensures best.None? <==> dict == []
    ensures best.Some? ==> forall k :: 0 <= k < |dict| ==>
      best.value.distance <= EditDistance(hiragana, dict[k].reading)
      && best.value.distance <= EditDistance(cleaned, dict[k].name)
    ensures best.Some? ==> exists k :: (0 <= k < |dict| && best.value.station == dict[k]
      && (best.value.distance == EditDistance(hiragana, dict[k].reading)
        || best.value.distance == EditDistance(cleaned, dict[k].name)))
  {
    best := None;
    ghost var w := 0;
    for i := 0 to |dict|
      invariant best.None? <==> i == 0
      invariant best.Some? ==> forall k :: 0 <= k < i ==>
        best.value.distance <= EditDistance(hiragana, dict[k].reading)
        && best.value.distance <= EditDistance(cleaned, dict[k].name)
      invariant best.Some? ==> (w < i && best.value.station == dict[w]
        && (best.value.distance == EditDistance(hiragana, dict[w].reading)
          || best.value.distance == EditDistance(cleaned, dict[w].name)))
    {
      var station := dict[i];
      var distance := LevenshteinDistance(hiragana, station.reading);
      if best.None? || distance < best.value.distance {
        best := Some(BestMatch(station, distance));
        w := i;
      }
      var nameDistance := LevenshteinDistance(cleaned, station.name);
      if nameDistance < best.value.distance {
        best := Some(BestMatch(station, nameDistance));
        w := i;
      }
    }
  }

  /** The normaliser with its dictionary, loaded on first use. */
  class StationNameNormalizer {
    var stationDictionary: seq<StationEntry>
    var isLoaded: bool

    constructor()
      ensures stationDictionary == [] && !isLoaded
    {
      stationDictionary := [];
      isLoaded := false;
    }

    /**
     * `loadDictionary`: nothing once loaded; otherwise the rows of the CSV
     * text, or an empty dictionary when it could not be fetched.
     */
    method LoadDictionary(csvText: Option<string>)
      modifies this
      ensures isLoaded
      ensures old(isLoaded) ==> stationDictionary == old(stationDictionary)
      ensures !old(isLoaded) ==> stationDictionary == (if csvText.None? then [] else ParseDictionary(csvText.value))
    {
      if isLoaded {
        return;
      }
      if csvText.None? {
        stationDictionary := [];
        isLoaded := true;
        return;
      }
      var lines := CsvLines(csvText.value);
      var rows: seq<StationEntry> := [];
      if lines != [] {
        rows := ReadRows(lines);
      }
      stationDictionary := rows;
      isLoaded := true;
    }

    /** `normalize`: loads the dictionary when needed, then looks the input up. */
    method Normalize(input: string, csvText: Option<string>) returns (r: NormalizeResult)
      modifies this
      ensures isLoaded
      ensures old(isLoaded) ==> stationDictionary == old(stationDictionary)
      ensures !old(isLoaded) ==> stationDictionary == (if csvText.None? then [] else ParseDictionary(csvText.value))
      ensures r == NormalizeOf(stationDictionary, input)
    {
      if !isLoaded {
        LoadDictionary(csvText);
      }
      if input == [] || Trim(input) == [] {
        return NormalizeResult(input, "", "", None, None, 0);
      }
      var cleanedInput := CleanInput(input);
      var inputHiragana := ToHiragana(cleanedInput);
      var exactMatch := FindExact(stationDictionary, cleanedInput, inputHiragana);
      if exactMatch.Some? {
        var e := stationDictionary[exactMatch.value];
        return NormalizeResult(input, inputHiragana, inputHiragana, Some(e.name), Some(e.reading), 1);
      }
      var bestMatch := FindBestMatch(stationDictionary, cleanedInput, inputHiragana);
      r := NormalizeResult(input, inputHiragana, inputHiragana, None, None, 0);
    }
  }
}
