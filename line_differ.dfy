/** Paul Heckel's line diff as `LineDiffer.ComputeDiff` runs it (LineDiffer.cs:43-198): a table of
    occurrence counters keyed by line, two arrays of slots that start out pointing at table entries
    and are overwritten with line numbers as lines get paired, five passes over them, and a final
    pass that marks every new line `None` (paired) or `Modified`. Lines are identified by their
    text; the source identifies them by their xxHash32 code. */
module LineDiffer {
  import opened Operators

  /** `int.MaxValue`, the value an occurrence counter saturates at. */
  const IntMax: int := 0x7fff_ffff

  /** `LineModificationType`, restricted to the two values the differ produces. */
  datatype LineModificationType = None | Modified

  /** A `DiffEntry`: how often its line occurs in each text, and where it last occurs in the old one. */
  datatype DiffEntry = DiffEntry(inNew: int, inOld: int, oldLine: nat)

  /** A cell of the temporary `object[]` arrays: the table entry of `key` (entries are shared, so
      two `Ref`s are the same object exactly when their keys agree), or a boxed line number. */
  datatype Slot = Ref(key: string) | Line(n: nat)

  // ---------------------------------------------------------------------------------------------
  // Lines

  /** The segments of `s` between separators, empty ones included (`Tokenize(separator)`). */
  function Split(s: string, separator: char): (r: seq<string>)
    ensures |r| == Count(s, separator) + 1
    ensures forall k :: 0 <= k < |r| ==> separator !in r[k]
  {
    if s == [] then [[]]
    else
      var rest := Split(s[1..], separator);
      if s[0] == separator then [[]] + rest
      else [[s[0]] + rest[0]] + rest[1..]
  }

  /** The segments glued back together with the separator between them. */
  function Join(lines: seq<string>, separator: char): string {
    if lines == [] then []
    else if |lines| == 1 then lines[0]
    else lines[0] + [separator] + Join(lines[1..], separator)
  }

  /** Splitting loses nothing: joining the lines again gives the text back. */
  lemma {:induction false} JoinSplit(s: string, separator: char)
    ensures Join(Split(s, separator), separator) == s
  {
    if s != [] {
      JoinSplit(s[1..], separator);
      var rest := Split(s[1..], separator);
      if s[0] == separator {
        assert ([[]] + rest)[1..] == rest;
      } else {
        assert ([[s[0]] + rest[0]] + rest[1..])[1..] == rest[1..];
        if |rest| > 1 {
          assert rest == [rest[0]] + rest[1..];
          assert Join(rest, separator) == rest[0] + [separator] + Join(rest[1..], separator);
        }
      }
    }
  }

  // ---------------------------------------------------------------------------------------------
  // Passes 1 and 2: the occurrence table

  /** Lines 69-89: one more occurrence in the new text. */
  function AddNew(t: map<string, DiffEntry>, line: string): (r: map<string, DiffEntry>)
    ensures r.Keys == t.Keys + {line}
    ensures forall l :: l in t && l != line ==> r[l] == t[l]
    ensures r[line].inNew in {1, 2, IntMax}
    ensures line !in t ==> r[line] == DiffEntry(1, 0, 0)
    ensures line in t ==> r[line].inOld == t[line].inOld && r[line].oldLine == t[line].oldLine
  {
    if line !in t then t[line := DiffEntry(1, 0, 0)]
    else t[line := t[line].(inNew := if t[line].inNew == 1 then 2 else IntMax)]
  }

  /** Lines 97-119: one more occurrence in the old text, at line `j`. */
  function AddOld(t: map<string, DiffEntry>, line: string, j: nat): (r: map<string, DiffEntry>)
    ensures r.Keys == t.Keys + {line}
    ensures forall l :: l in t && l != line ==> r[l] == t[l]
    ensures r[line].oldLine == j && r[line].inOld in {1, 2, IntMax}
    ensures r[line].inNew == if line in t then t[line].inNew else 0
  {
    var e := if line !in t then DiffEntry(0, 1, 0)
             else t[line].(inOld := if t[line].inOld == 0 then 1 else if t[line].inOld == 1 then 2 else IntMax);
    t[line := e.(oldLine := j)]
  }

  /** The table after the first pass over `lines`. */
  function NewTable(lines: seq<string>): map<string, DiffEntry> {
    if lines == [] then map[] else AddNew(NewTable(lines[..|lines| - 1]), lines[|lines| - 1])
  }

  /** The table `t` after the second pass over `lines`. */
  function OldTable(t: map<string, DiffEntry>, lines: seq<string>): map<string, DiffEntry> {
    if lines == [] then t else AddOld(OldTable(t, lines[..|lines| - 1]), lines[|lines| - 1], |lines| - 1)
  }

  function Table(newLines: seq<string>, oldLines: seq<string>): map<string, DiffEntry> {
    OldTable(NewTable(newLines), oldLines)
  }

  /** A counter after `n` occurrences: exact up to 2, then `int.MaxValue`. */
  function Saturated(n: nat): int {
    if n <= 2 then n else IntMax
  }

  /** What the table holds for two texts: an entry per distinct line, its saturated counts, and
      for a line of the old text the index of its last occurrence there (0 for the others). */
  ghost predicate Counts(t: map<string, DiffEntry>, newLines: seq<string>, oldLines: seq<string>) {
    && (forall x :: x in t <==> x in newLines || x in oldLines)
    && (forall x :: x in t ==> && t[x].inNew == Saturated(multiset(newLines)[x])
                               && t[x].inOld == Saturated(multiset(oldLines)[x]))
    && (forall x :: x in t && x !in oldLines ==> t[x].oldLine == 0)
    && (forall x :: x in t && x in oldLines ==>
          && t[x].oldLine < |oldLines| && oldLines[t[x].oldLine] == x
          && forall j :: t[x].oldLine < j < |oldLines| ==> oldLines[j] != x)
  }

  lemma {:induction false} NewTableCounts(lines: seq<string>)
    ensures Counts(NewTable(lines), lines, [])
  {
    if lines != [] {
      var init := lines[..|lines| - 1];
      var last := lines[|lines| - 1];
      NewTableCounts(init);
      assert lines == init + [last];
      AddNewCounts(NewTable(init), init, last);
    }
  }

  /** One new line added to a table that counts `init`. */
  lemma AddNewCounts(t: map<string, DiffEntry>, init: seq<string>, last: string)
    requires Counts(t, init, [])
    ensures Counts(AddNew(t, last), init + [last], [])
  {
    var lines := init + [last];
    var t' := AddNew(t, last);
    assert multiset(lines) == multiset(init) + multiset{last};
    forall x
      ensures x in t' <==> x in lines
    {
      assert x in lines <==> x in init || x == last;
    }
    forall x | x in t'
      ensures t'[x].inNew == Saturated(multiset(lines)[x]) && t'[x].inOld == 0
    {
      if x == last && last !in t {
        assert last !in init;
      }
    }
  }

  /** One old line added to a table that counts `init`. */
  lemma AddOldCounts(t: map<string, DiffEntry>, newLines: seq<string>, init: seq<string>, last: string, lines: seq<string>)
    requires Counts(t, newLines, init) && lines == init + [last]
    ensures Counts(AddOld(t, last, |init|), newLines, lines)
  {
    var t' := AddOld(t, last, |init|);
    assert multiset(lines) == multiset(init) + multiset{last};
    forall x
      ensures x in t' <==> x in newLines || x in lines
    {
      assert x in lines <==> x in init || x == last;
    }
    forall x | x in t'
      ensures t'[x].inNew == Saturated(multiset(newLines)[x]) && t'[x].inOld == Saturated(multiset(lines)[x])
    {
      if x == last && last !in t {
        assert last !in init;
      }
    }
    forall x | x in t' && x !in lines
      ensures t'[x].oldLine == 0
    {
      assert x !in init;
    }
    forall x | x in t' && x in lines
      ensures t'[x].oldLine < |lines| && lines[t'[x].oldLine] == x
      ensures forall j :: t'[x].oldLine < j < |lines| ==> lines[j] != x
    {
      if x != last {
        assert x in init;
        assert forall j :: 0 <= j < |init| ==> lines[j] == init[j];
      }
    }
  }

  lemma {:induction false} OldTableCounts(newLines: seq<string>, lines: seq<string>)
    ensures Counts(OldTable(NewTable(newLines), lines), newLines, lines)
  {
    if lines == [] {
      NewTableCounts(newLines);
    } else {
      OldTableCounts(newLines, lines[..|lines| - 1]);
      OldTableStep(NewTable(newLines), newLines, lines);
    }
  }

  /** The second pass over one more line keeps the counts. */
  lemma OldTableStep(t: map<string, DiffEntry>, newLines: seq<string>, lines: seq<string>)
    requires lines != [] && Counts(OldTable(t, lines[..|lines| - 1]), newLines, lines[..|lines| - 1])
    ensures Counts(OldTable(t, lines), newLines, lines)
  {
    SplitLast(lines);
    AddOldCounts(OldTable(t, lines[..|lines| - 1]), newLines, lines[..|lines| - 1], lines[|lines| - 1], lines);
  }

  lemma SplitLast<T>(s: seq<T>)
    requires s != []
    ensures s == s[..|s| - 1] + [s[|s| - 1]]
  {
  }

  /** Lines 83-84 and 111-116: the counters saturate through 0, 1, 2 and `int.MaxValue`, and the
      old line number is that of the last occurrence. */
  lemma TableCounts(newLines: seq<string>, oldLines: seq<string>)
    ensures Counts(Table(newLines, oldLines), newLines, oldLines)
  {
    OldTableCounts(newLines, oldLines);
  }

  // ---------------------------------------------------------------------------------------------
  // Passes 3 to 5: pairing lines

  /** Every text line's first slot: its table entry. */
  function Refs(lines: seq<string>): (r: seq<Slot>)
    ensures |r| == |lines| && forall k :: 0 <= k < |lines| ==> r[k] == Ref(lines[k])
  {
    seq(|lines|, k requires 0 <= k < |lines| => Ref(lines[k]))
  }

  /** Every entry a slot refers to is in the table. */
  ghost predicate Keyed(slots: seq<Slot>, t: map<string, DiffEntry>) {
    forall k :: 0 <= k < |slots| && slots[k].Ref? ==> slots[k].key in t
  }

  /** A line seen once in each text has its old line number in range. */
  ghost predicate Fits(t: map<string, DiffEntry>, oldCount: nat) {
    forall x :: x in t && t[x].inOld == 1 ==> t[x].oldLine < oldCount
  }

  /** Every line number in the new slots is a line of the old text. */
  ghost predicate Bounded(newSlots: seq<Slot>, oldCount: nat) {
    forall k :: 0 <= k < |newSlots| && newSlots[k].Line? ==> newSlots[k].n < oldCount
  }

  /** Slots that are paired stay paired. */
  ghost predicate StaysPaired(before: seq<Slot>, after: seq<Slot>) {
    |after| == |before| && forall k :: 0 <= k < |before| && before[k].Line? ==> after[k].Line?
  }

  /** Lines 131-132: the line occurs exactly once in each text. */
  predicate Unique(e: DiffEntry) {
    e.inOld == 1 && e.inNew == 1
  }

  /** The third pass from new line `i` on (lines 127-138). */
  function Pass3(t: map<string, DiffEntry>, newSlots: seq<Slot>, oldSlots: seq<Slot>, i: nat): (r: (seq<Slot>, seq<Slot>))
    requires i <= |newSlots| && Keyed(newSlots, t) && Fits(t, |oldSlots|) && Bounded(newSlots, |oldSlots|)
    ensures StaysPaired(newSlots, r.0) && |r.1| == |oldSlots| && Bounded(r.0, |r.1|)
    ensures forall k :: i <= k < |newSlots| && newSlots[k].Ref? && Unique(t[newSlots[k].key]) ==> r.0[k].Line?
    decreases |newSlots| - i
  {
    if i == |newSlots| then (newSlots, oldSlots)
    else match newSlots[i]
      case Line(_) => Pass3(t, newSlots, oldSlots, i + 1)
      case Ref(key) =>
        var e := t[key];
        if Unique(e) then
          Pass3(t, newSlots[i := Line(e.oldLine)], oldSlots[e.oldLine := Line(i)], i + 1)
        else Pass3(t, newSlots, oldSlots, i + 1)
  }

  /** The element comparison of lines 151 and 166. `Equals` as written (`strict` false) also
      holds between two boxed ints of the same value; `strict` admits table entries only. */
  predicate Same(strict: bool, a: Slot, b: Slot) {
    a == b && (!strict || a.Ref?)
  }

  /** The fourth pass from new line `i` on (lines 147-156). */
  function Pass4(strict: bool, newSlots: seq<Slot>, oldSlots: seq<Slot>, i: nat): (r: (seq<Slot>, seq<Slot>))
    requires Bounded(newSlots, |oldSlots|)
    ensures StaysPaired(newSlots, r.0) && |r.1| == |oldSlots| && Bounded(r.0, |r.1|)
    decreases |newSlots| - i
  {
    if i + 1 >= |newSlots| then (newSlots, oldSlots)
    else match newSlots[i]
      case Ref(_) => Pass4(strict, newSlots, oldSlots, i + 1)
      case Line(k) =>
        if k + 1 < |oldSlots| && Same(strict, newSlots[i + 1], oldSlots[k + 1]) then
          Pass4(strict, newSlots[i + 1 := Line(k + 1)], oldSlots[k + 1 := Line(i + 1)], i + 1)
        else Pass4(strict, newSlots, oldSlots, i + 1)
  }

  /** The fifth pass from new line `i` down to line 1 (lines 162-171). */
  function Pass5(strict: bool, newSlots: seq<Slot>, oldSlots: seq<Slot>, i: nat): (r: (seq<Slot>, seq<Slot>))
    requires i < |newSlots| && Bounded(newSlots, |oldSlots|)
    ensures StaysPaired(newSlots, r.0) && |r.1| == |oldSlots| && Bounded(r.0, |r.1|)
    decreases i
  {
    if i == 0 then (newSlots, oldSlots)
    else match newSlots[i]
      case Ref(_) => Pass5(strict, newSlots, oldSlots, i - 1)
      case Line(k) =>
        if k >= 1 && Same(strict, newSlots[i - 1], oldSlots[k - 1]) then
          Pass5(strict, newSlots[i - 1 := Line(k - 1)], oldSlots[k - 1 := Line(i - 1)], i - 1)
        else Pass5(strict, newSlots, oldSlots, i - 1)
  }

  /** The two slot arrays after the five passes. */
  function Pairing(strict: bool, newLines: seq<string>, oldLines: seq<string>): (r: (seq<Slot>, seq<Slot>))
    requires |newLines| > 0
    ensures |r.0| == |newLines| && |r.1| == |oldLines|
  {
    var t := Table(newLines, oldLines);
    TableCounts(newLines, oldLines);
    var p3 := Pass3(t, Refs(newLines), Refs(oldLines), 0);
    var p4 := Pass4(strict, p3.0, p3.1, 0);
    Pass5(strict, p4.0, p4.1, |p4.0| - 1)
  }

  /** The final pass (lines 185-189). */
  function Marks(newSlots: seq<Slot>): (r: seq<LineModificationType>)
    ensures |r| == |newSlots|
  {
    seq(|newSlots|, k requires 0 <= k < |newSlots| => if newSlots[k].Line? then None else Modified)
  }

  function DiffLines(strict: bool, newLines: seq<string>, oldLines: seq<string>): seq<LineModificationType>
    requires |newLines| > 0
  {
    Marks(Pairing(strict, newLines, oldLines).0)
  }

  /** What `ComputeDiff(oldText, newText, separator)` returns. */
  function Diff(oldText: string, newText: string, separator: char): (r: seq<LineModificationType>)
    ensures |r| == if newText == [] then 0 else Count(newText, separator) + 1
  {
    if newText == [] then [] else DiffLines(false, Split(newText, separator), Split(oldText, separator))
  }

  /** The same with the boxed-int comparison of passes 4 and 5 ruled out. */
  function CorrectedDiff(oldText: string, newText: string, separator: char): (r: seq<LineModificationType>)
    ensures |r| == if newText == [] then 0 else Count(newText, separator) + 1
  {
    if newText == [] then [] else DiffLines(true, Split(newText, separator), Split(oldText, separator))
  }

  /** Line-by-line: `None` for every line of `newText` found unchanged in `oldText`, `Modified`
      for the others; nothing for an empty `newText`. */
  method ComputeDiff(oldText: string, newText: string, separator: char) returns (r: seq<LineModificationType>)
    ensures r == Diff(oldText, newText, separator)
    ensures newText == [] ==> r == []
    ensures newText != [] ==> |r| == Count(newText, separator) + 1
  {
    if newText == [] {
      return [];
    }
    var newLines, oldLines := Split(newText, separator), Split(oldText, separator);
    var oldTemp := new Slot[Count(oldText, separator) + 1];
    var newTemp := new Slot[Count(newText, separator) + 1];
    var table := FirstPass(newLines, newTemp);
    table := SecondPass(table, oldLines, oldTemp);
    StartFits(newLines, oldLines);
    ThirdPass(table, newTemp, oldTemp);
    FourthPass(newTemp, oldTemp);
    FifthPass(newTemp, oldTemp);
    r := FinalPass(newTemp);
  }

  /** Lines 68-89: counts the new lines into an empty table and points every new slot at its
      line's entry. */
  method FirstPass(newLines: seq<string>, newTemp: array<Slot>) returns (table: map<string, DiffEntry>)
    requires newTemp.Length == |newLines|
    modifies newTemp
    ensures table == NewTable(newLines) && newTemp[..] == Refs(newLines)
  {
    table := map[];
    var i := 0;
    while i < newTemp.Length
      invariant 0 <= i <= newTemp.Length && table == NewTable(newLines[..i])
      invariant forall k :: 0 <= k < i ==> newTemp[k] == Ref(newLines[k])
    {
      var line := newLines[i];
      if line !in table {
        table := table[line := DiffEntry(1, 0, 0)];
      } else if table[line].inNew == 1 {
        table := table[line := table[line].(inNew := 2)];
      } else {
        table := table[line := table[line].(inNew := IntMax)];
      }
      newTemp[i] := Ref(line);
      assert newLines[..i + 1][..i] == newLines[..i];
      i := i + 1;
    }
    assert newLines[..i] == newLines;
  }

  /** Lines 96-119: counts the old lines into the table, records where each last occurs, and
      points every old slot at its line's entry. */
  method SecondPass(table0: map<string, DiffEntry>, oldLines: seq<string>, oldTemp: array<Slot>)
      returns (table: map<string, DiffEntry>)
    requires oldTemp.Length == |oldLines|
    modifies oldTemp
    ensures table == OldTable(table0, oldLines) && oldTemp[..] == Refs(oldLines)
  {
    table := table0;
    var j := 0;
    while j < oldTemp.Length
      invariant 0 <= j <= oldTemp.Length && table == OldTable(table0, oldLines[..j])
      invariant forall k :: 0 <= k < j ==> oldTemp[k] == Ref(oldLines[k])
    {
      var line := oldLines[j];
      var entry;
      if line !in table {
        entry := DiffEntry(0, 1, 0);
      } else if table[line].inOld == 0 {
        entry := table[line].(inOld := 1);
      } else if table[line].inOld == 1 {
        entry := table[line].(inOld := 2);
      } else {
        entry := table[line].(inOld := IntMax);
      }
      table := table[line := entry.(oldLine := j)];
      oldTemp[j] := Ref(line);
      assert oldLines[..j + 1][..j] == oldLines[..j];
      j := j + 1;
    }
    assert oldLines[..j] == oldLines;
  }

  /** Lines 127-138. */
  method ThirdPass(table: map<string, DiffEntry>, newTemp: array<Slot>, oldTemp: array<Slot>)
    requires newTemp != oldTemp
    requires Keyed(newTemp[..], table) && Fits(table, oldTemp.Length) && Bounded(newTemp[..], oldTemp.Length)
    modifies newTemp, oldTemp
    ensures (newTemp[..], oldTemp[..]) == Pass3(table, old(newTemp[..]), old(oldTemp[..]), 0)
    ensures Bounded(newTemp[..], oldTemp.Length)
  {
    var i := 0;
    while i < newTemp.Length
      invariant 0 <= i <= newTemp.Length && Keyed(newTemp[..], table) && Bounded(newTemp[..], oldTemp.Length)
      invariant Pass3(table, newTemp[..], oldTemp[..], i) == Pass3(table, old(newTemp[..]), old(oldTemp[..]), 0)
    {
      if newTemp[i].Ref? && table[newTemp[i].key].inOld == 1 && table[newTemp[i].key].inNew == 1 {
        var olno := table[newTemp[i].key].oldLine;
        newTemp[i] := Line(olno);
        oldTemp[olno] := Line(i);
      }
      i := i + 1;
    }
  }

  /** Lines 147-156, comparing with `Equals` as written. */
  method FourthPass(newTemp: array<Slot>, oldTemp: array<Slot>)
    requires newTemp != oldTemp && Bounded(newTemp[..], oldTemp.Length)
    modifies newTemp, oldTemp
    ensures (newTemp[..], oldTemp[..]) == Pass4(false, old(newTemp[..]), old(oldTemp[..]), 0)
    ensures Bounded(newTemp[..], oldTemp.Length)
  {
    for i := 0 to if newTemp.Length == 0 then 0 else newTemp.Length - 1
      invariant Bounded(newTemp[..], oldTemp.Length)
      invariant Pass4(false, newTemp[..], oldTemp[..], i) == Pass4(false, old(newTemp[..]), old(oldTemp[..]), 0)
    {
      if newTemp[i].Line? && newTemp[i].n + 1 < oldTemp.Length && newTemp[i + 1] == oldTemp[newTemp[i].n + 1] {
        var k := newTemp[i].n;
        newTemp[i + 1] := Line(k + 1);
        oldTemp[k + 1] := Line(i + 1);
      }
    }
  }

  /** Lines 162-171, comparing with `Equals` as written. */
  method FifthPass(newTemp: array<Slot>, oldTemp: array<Slot>)
    requires newTemp != oldTemp && newTemp.Length > 0 && Bounded(newTemp[..], oldTemp.Length)
    modifies newTemp, oldTemp
    ensures (newTemp[..], oldTemp[..]) == Pass5(false, old(newTemp[..]), old(oldTemp[..]), newTemp.Length - 1)
  {
    var i := newTemp.Length - 1;
    while i > 0
      invariant 0 <= i < newTemp.Length && Bounded(newTemp[..], oldTemp.Length)
      invariant Pass5(false, newTemp[..], oldTemp[..], i) == Pass5(false, old(newTemp[..]), old(oldTemp[..]), newTemp.Length - 1)
    {
      if newTemp[i].Line? && newTemp[i].n >= 1 && newTemp[i - 1] == oldTemp[newTemp[i].n - 1] {
        var k := newTemp[i].n;
        newTemp[i - 1] := Line(k - 1);
        oldTemp[k - 1] := Line(i - 1);
      }
      i := i - 1;
    }
  }

  /** Lines 174-189: `None` where the new slot holds a line number, `Modified` where it still
      holds a table entry. */
  method FinalPass(newTemp: array<Slot>) returns (r: seq<LineModificationType>)
    ensures |r| == newTemp.Length
    ensures forall k :: 0 <= k < |r| ==> (r[k] == None <==> newTemp[k].Line?)
    ensures r == Marks(newTemp[..])
  {
    var result := new LineModificationType[newTemp.Length];
    for i := 0 to newTemp.Length
      invariant forall k :: 0 <= k < i ==> result[k] == (if newTemp[k].Line? then None else Modified)
    {
      if newTemp[i].Line? {
        result[i] := None;
      } else {
        result[i] := Modified;
      }
    }
    r := result[..];
  }

  // ---------------------------------------------------------------------------------------------
  // What the passes keep

  /** New slot `k` is either unpaired and refers to its own line's entry, or paired with a line
      number of the old text at which its own text occurs somewhere. */
  ghost predicate NewSlotOk(newSlots: seq<Slot>, oldSlots: seq<Slot>, newLines: seq<string>, oldLines: seq<string>, k: int) {
    && 0 <= k < |newSlots| && k < |newLines|
    && match newSlots[k]
       case Ref(x) => x == newLines[k]
       case Line(n) => n < |oldSlots| && newLines[k] in oldLines
  }

  /** Old slot `k` is either unpaired and refers to its own line's entry, or paired with a line
      number of the new text. */
  ghost predicate OldSlotOk(newSlots: seq<Slot>, oldSlots: seq<Slot>, oldLines: seq<string>, k: int) {
    && 0 <= k < |oldSlots| && k < |oldLines|
    && match oldSlots[k]
       case Ref(x) => x == oldLines[k]
       case Line(n) => n < |newSlots|
  }

  /** Every slot of either text is as `NewSlotOk` and `OldSlotOk` say. */
  ghost predicate Consistent(newSlots: seq<Slot>, oldSlots: seq<Slot>, newLines: seq<string>, oldLines: seq<string>) {
    && |newSlots| == |newLines| && |oldSlots| == |oldLines|
    && (forall k :: 0 <= k < |newSlots| ==> NewSlotOk(newSlots, oldSlots, newLines, oldLines, k))
    && (forall k :: 0 <= k < |oldSlots| ==> OldSlotOk(newSlots, oldSlots, oldLines, k))
  }

  /** If new line `k` is paired with old line `n`, then old line `n` is paired back with `k` and
      the two lines have the same text. */
  ghost predicate NewPaired(newSlots: seq<Slot>, oldSlots: seq<Slot>, newLines: seq<string>, oldLines: seq<string>, k: int) {
    && 0 <= k < |newSlots|
    && (newSlots[k].Line? ==>
          && newSlots[k].n < |oldSlots| && oldSlots[newSlots[k].n] == Line(k)
          && k < |newLines| && newSlots[k].n < |oldLines| && newLines[k] == oldLines[newSlots[k].n])
  }

  /** If old line `k` is paired with new line `n`, then new line `n` is paired back with `k`. */
  ghost predicate OldPaired(newSlots: seq<Slot>, oldSlots: seq<Slot>, k: int) {
    && 0 <= k < |oldSlots|
    && (oldSlots[k].Line? ==> oldSlots[k].n < |newSlots| && newSlots[oldSlots[k].n] == Line(k))
  }

  /** On top of `Consistent`: pairs are symmetric and join two equal lines. */
  ghost predicate Matched(newSlots: seq<Slot>, oldSlots: seq<Slot>, newLines: seq<string>, oldLines: seq<string>) {
    && Consistent(newSlots, oldSlots, newLines, oldLines)
    && (forall k :: 0 <= k < |newSlots| ==> NewPaired(newSlots, oldSlots, newLines, oldLines, k))
    && (forall k :: 0 <= k < |oldSlots| ==> OldPaired(newSlots, oldSlots, k))
  }

  /** A value counted once occurs at one index only. */
  lemma OnceAtOneIndex(s: seq<string>, a: nat)
    requires a < |s| && multiset(s)[s[a]] == 1
    ensures forall b :: 0 <= b < |s| && s[b] == s[a] ==> b == a
  {
    var x := s[a];
    assert s == s[..a] + [x] + s[a + 1..];
    assert multiset(s) == multiset(s[..a]) + multiset{x} + multiset(s[a + 1..]);
    assert x !in s[..a] && x !in s[a + 1..];
    forall b | 0 <= b < |s| && b != a
      ensures s[b] != x
    {
      if b < a {
        assert s[b] == s[..a][b];
      } else {
        assert s[b] == s[a + 1..][b - a - 1];
      }
    }
  }

  /** Pairing new line `a` with old line `b` keeps `Consistent` when line `a`'s text occurs in
      the old text. */
  lemma PairStepConsistent(newSlots: seq<Slot>, oldSlots: seq<Slot>, a: nat, b: nat, newLines: seq<string>, oldLines: seq<string>)
    requires Consistent(newSlots, oldSlots, newLines, oldLines)
    requires a < |newSlots| && b < |oldSlots| && newLines[a] in oldLines
    ensures Consistent(newSlots[a := Line(b)], oldSlots[b := Line(a)], newLines, oldLines)
  {
    var newSlots', oldSlots' := newSlots[a := Line(b)], oldSlots[b := Line(a)];
    forall k | 0 <= k < |newSlots'|
      ensures NewSlotOk(newSlots', oldSlots', newLines, oldLines, k)
    {
      assert NewSlotOk(newSlots, oldSlots, newLines, oldLines, k);
    }
    forall k | 0 <= k < |oldSlots'|
      ensures OldSlotOk(newSlots', oldSlots', oldLines, k)
    {
      assert OldSlotOk(newSlots, oldSlots, oldLines, k);
    }
  }

  /** Two slots that compare equal under `Same` leave the new line's text in the old text. */
  lemma SameInOld(strict: bool, newSlots: seq<Slot>, oldSlots: seq<Slot>, a: nat, b: nat,
                  newLines: seq<string>, oldLines: seq<string>)
    requires a < |newSlots| && b < |oldSlots| && Same(strict, newSlots[a], oldSlots[b])
    requires Consistent(newSlots, oldSlots, newLines, oldLines)
    ensures newLines[a] in oldLines
  {
    assert NewSlotOk(newSlots, oldSlots, newLines, oldLines, a);
    assert OldSlotOk(newSlots, oldSlots, oldLines, b);
  }

  /** Pass 3 pairs new line `i` with an old line of the same text, within the old text. */
  lemma Pass3StepConsistent(t: map<string, DiffEntry>, newSlots: seq<Slot>, oldSlots: seq<Slot>, i: nat,
                            newLines: seq<string>, oldLines: seq<string>)
    requires i < |newSlots| && newSlots[i].Ref? && newSlots[i].key in t && Unique(t[newSlots[i].key])
    requires Keyed(newSlots, t) && Fits(t, |oldSlots|) && Bounded(newSlots, |oldSlots|)
    requires Counts(t, newLines, oldLines) && Consistent(newSlots, oldSlots, newLines, oldLines)
    ensures var ol := t[newSlots[i].key].oldLine;
            && ol < |oldSlots| && Consistent(newSlots[i := Line(ol)], oldSlots[ol := Line(i)], newLines, oldLines)
            && Keyed(newSlots[i := Line(ol)], t) && Bounded(newSlots[i := Line(ol)], |oldSlots|)
  {
    var ol := t[newSlots[i].key].oldLine;
    assert NewSlotOk(newSlots, oldSlots, newLines, oldLines, i);
    assert newSlots[i].key in oldLines;
    PairStepConsistent(newSlots, oldSlots, i, ol, newLines, oldLines);
  }

  lemma {:induction false} Pass3Consistent(t: map<string, DiffEntry>, newSlots: seq<Slot>, oldSlots: seq<Slot>, i: nat,
                                           newLines: seq<string>, oldLines: seq<string>)
    requires i <= |newSlots| && Keyed(newSlots, t) && Fits(t, |oldSlots|) && Bounded(newSlots, |oldSlots|)
    requires Counts(t, newLines, oldLines) && Consistent(newSlots, oldSlots, newLines, oldLines)
    ensures var r := Pass3(t, newSlots, oldSlots, i); Consistent(r.0, r.1, newLines, oldLines)
    decreases |newSlots| - i
  {
    if i < |newSlots| {
      if newSlots[i].Ref? && Unique(t[newSlots[i].key]) {
        var e := t[newSlots[i].key];
        Pass3StepConsistent(t, newSlots, oldSlots, i, newLines, oldLines);
        var newSlots', oldSlots' := newSlots[i := Line(e.oldLine)], oldSlots[e.oldLine := Line(i)];
        assert Pass3(t, newSlots, oldSlots, i) == Pass3(t, newSlots', oldSlots', i + 1);
        Pass3Consistent(t, newSlots', oldSlots', i + 1, newLines, oldLines);
      } else {
        assert Pass3(t, newSlots, oldSlots, i) == Pass3(t, newSlots, oldSlots, i + 1);
        Pass3Consistent(t, newSlots, oldSlots, i + 1, newLines, oldLines);
      }
    }
  }

  lemma {:induction false} Pass4Consistent(strict: bool, newSlots: seq<Slot>, oldSlots: seq<Slot>, i: nat,
                                           newLines: seq<string>, oldLines: seq<string>)
    requires Bounded(newSlots, |oldSlots|) && Consistent(newSlots, oldSlots, newLines, oldLines)
    ensures var r := Pass4(strict, newSlots, oldSlots, i); Consistent(r.0, r.1, newLines, oldLines)
    decreases |newSlots| - i
  {
    if i + 1 < |newSlots| {
      match newSlots[i]
      case Ref(_) => Pass4Consistent(strict, newSlots, oldSlots, i + 1, newLines, oldLines);
      case Line(k) =>
        if k + 1 < |oldSlots| && Same(strict, newSlots[i + 1], oldSlots[k + 1]) {
          SameInOld(strict, newSlots, oldSlots, i + 1, k + 1, newLines, oldLines);
          PairStepConsistent(newSlots, oldSlots, i + 1, k + 1, newLines, oldLines);
          Pass4Consistent(strict, newSlots[i + 1 := Line(k + 1)], oldSlots[k + 1 := Line(i + 1)], i + 1, newLines, oldLines);
        } else {
          Pass4Consistent(strict, newSlots, oldSlots, i + 1, newLines, oldLines);
        }
    }
  }

  lemma {:induction false} Pass5Consistent(strict: bool, newSlots: seq<Slot>, oldSlots: seq<Slot>, i: nat,
                                           newLines: seq<string>, oldLines: seq<string>)
    requires i < |newSlots| && Bounded(newSlots, |oldSlots|) && Consistent(newSlots, oldSlots, newLines, oldLines)
    ensures var r := Pass5(strict, newSlots, oldSlots, i); Consistent(r.0, r.1, newLines, oldLines)
    decreases i
  {
    if i > 0 {
      match newSlots[i]
      case Ref(_) => Pass5Consistent(strict, newSlots, oldSlots, i - 1, newLines, oldLines);
      case Line(k) =>
        if k >= 1 && Same(strict, newSlots[i - 1], oldSlots[k - 1]) {
          SameInOld(strict, newSlots, oldSlots, i - 1, k - 1, newLines, oldLines);
          PairStepConsistent(newSlots, oldSlots, i - 1, k - 1, newLines, oldLines);
          Pass5Consistent(strict, newSlots[i - 1 := Line(k - 1)], oldSlots[k - 1 := Line(i - 1)], i - 1, newLines, oldLines);
        } else {
          Pass5Consistent(strict, newSlots, oldSlots, i - 1, newLines, oldLines);
        }
    }
  }

  /** Pairing an unpaired new line with an unpaired old line of the same text keeps `Matched`. */
  lemma PairStepMatched(newSlots: seq<Slot>, oldSlots: seq<Slot>, a: nat, b: nat, newLines: seq<string>, oldLines: seq<string>)
    requires a < |newSlots| && b < |oldSlots| && newSlots[a].Ref? && newSlots[a] == oldSlots[b]
    requires Matched(newSlots, oldSlots, newLines, oldLines)
    ensures Matched(newSlots[a := Line(b)], oldSlots[b := Line(a)], newLines, oldLines)
    ensures Bounded(newSlots[a := Line(b)], |oldSlots|)
  {
    var newSlots', oldSlots' := newSlots[a := Line(b)], oldSlots[b := Line(a)];
    SameInOld(true, newSlots, oldSlots, a, b, newLines, oldLines);
    PairStepConsistent(newSlots, oldSlots, a, b, newLines, oldLines);
    assert newLines[a] == oldLines[b] by {
      assert NewSlotOk(newSlots, oldSlots, newLines, oldLines, a);
      assert OldSlotOk(newSlots, oldSlots, oldLines, b);
    }
    forall k | 0 <= k < |newSlots'|
      ensures NewPaired(newSlots', oldSlots', newLines, oldLines, k)
    {
      assert NewPaired(newSlots, oldSlots, newLines, oldLines, k);
    }
    forall k | 0 <= k < |oldSlots'|
      ensures OldPaired(newSlots', oldSlots', k)
    {
      assert OldPaired(newSlots, oldSlots, k);
    }
    forall k | 0 <= k < |newSlots'| && newSlots'[k].Line?
      ensures newSlots'[k].n < |oldSlots|
    {
      assert NewSlotOk(newSlots', oldSlots', newLines, oldLines, k);
    }
  }

  /** Pass 3 pairs new line `i` with the one old line of the same text, which is still unpaired:
      whatever it were paired with would be a new line of that text, and that is line `i` only. */
  lemma Pass3StepMatched(t: map<string, DiffEntry>, newSlots: seq<Slot>, oldSlots: seq<Slot>, i: nat,
                         newLines: seq<string>, oldLines: seq<string>)
    requires i < |newSlots| && newSlots[i].Ref? && newSlots[i].key in t && Unique(t[newSlots[i].key])
    requires Fits(t, |oldSlots|) && Counts(t, newLines, oldLines) && Matched(newSlots, oldSlots, newLines, oldLines)
    ensures var ol := t[newSlots[i].key].oldLine;
            ol < |oldSlots| && Matched(newSlots[i := Line(ol)], oldSlots[ol := Line(i)], newLines, oldLines)
    ensures Keyed(newSlots, t) ==> Keyed(newSlots[i := Line(t[newSlots[i].key].oldLine)], t)
    ensures Bounded(newSlots[i := Line(t[newSlots[i].key].oldLine)], |oldSlots|)
  {
    var key := newSlots[i].key;
    var ol := t[key].oldLine;
    assert NewSlotOk(newSlots, oldSlots, newLines, oldLines, i);
    assert key in oldLines && oldLines[ol] == key && newLines[i] == key;
    assert OldSlotOk(newSlots, oldSlots, oldLines, ol);
    assert OldPaired(newSlots, oldSlots, ol);
    var m := if oldSlots[ol].Line? then oldSlots[ol].n else i;
    assert NewPaired(newSlots, oldSlots, newLines, oldLines, m);
    OnceAtOneIndex(newLines, i);
    assert oldSlots[ol] == newSlots[i];
    PairStepMatched(newSlots, oldSlots, i, ol, newLines, oldLines);
  }

  lemma {:induction false} Pass3Matched(t: map<string, DiffEntry>, newSlots: seq<Slot>, oldSlots: seq<Slot>, i: nat,
                                        newLines: seq<string>, oldLines: seq<string>)
    requires i <= |newSlots| && Keyed(newSlots, t) && Fits(t, |oldSlots|) && Bounded(newSlots, |oldSlots|)
    requires Counts(t, newLines, oldLines) && Matched(newSlots, oldSlots, newLines, oldLines)
    ensures var r := Pass3(t, newSlots, oldSlots, i); Matched(r.0, r.1, newLines, oldLines)
    decreases |newSlots| - i
  {
    if i < |newSlots| {
      if newSlots[i].Ref? && Unique(t[newSlots[i].key]) {
        var e := t[newSlots[i].key];
        Pass3StepMatched(t, newSlots, oldSlots, i, newLines, oldLines);
        var newSlots', oldSlots' := newSlots[i := Line(e.oldLine)], oldSlots[e.oldLine := Line(i)];
        assert Pass3(t, newSlots, oldSlots, i) == Pass3(t, newSlots', oldSlots', i + 1);
        Pass3Matched(t, newSlots', oldSlots', i + 1, newLines, oldLines);
      } else {
        assert Pass3(t, newSlots, oldSlots, i) == Pass3(t, newSlots, oldSlots, i + 1);
        Pass3Matched(t, newSlots, oldSlots, i + 1, newLines, oldLines);
      }
    }
  }

  lemma {:induction false} Pass4Matched(newSlots: seq<Slot>, oldSlots: seq<Slot>, i: nat,
                                        newLines: seq<string>, oldLines: seq<string>)
    requires Bounded(newSlots, |oldSlots|) && Matched(newSlots, oldSlots, newLines, oldLines)
    ensures var r := Pass4(true, newSlots, oldSlots, i); Matched(r.0, r.1, newLines, oldLines)
    decreases |newSlots| - i
  {
    if i + 1 < |newSlots| {
      match newSlots[i]
      case Ref(_) => Pass4Matched(newSlots, oldSlots, i + 1, newLines, oldLines);
      case Line(k) =>
        if k + 1 < |oldSlots| && Same(true, newSlots[i + 1], oldSlots[k + 1]) {
          PairStepMatched(newSlots, oldSlots, i + 1, k + 1, newLines, oldLines);
          Pass4Matched(newSlots[i + 1 := Line(k + 1)], oldSlots[k + 1 := Line(i + 1)], i + 1, newLines, oldLines);
        } else {
          Pass4Matched(newSlots, oldSlots, i + 1, newLines, oldLines);
        }
    }
  }

  lemma {:induction false} Pass5Matched(newSlots: seq<Slot>, oldSlots: seq<Slot>, i: nat,
                                        newLines: seq<string>, oldLines: seq<string>)
    requires i < |newSlots| && Bounded(newSlots, |oldSlots|) && Matched(newSlots, oldSlots, newLines, oldLines)
    ensures var r := Pass5(true, newSlots, oldSlots, i); Matched(r.0, r.1, newLines, oldLines)
    decreases i
  {
    if i > 0 {
      match newSlots[i]
      case Ref(_) => Pass5Matched(newSlots, oldSlots, i - 1, newLines, oldLines);
      case Line(k) =>
        if k >= 1 && Same(true, newSlots[i - 1], oldSlots[k - 1]) {
          PairStepMatched(newSlots, oldSlots, i - 1, k - 1, newLines, oldLines);
          Pass5Matched(newSlots[i - 1 := Line(k - 1)], oldSlots[k - 1 := Line(i - 1)], i - 1, newLines, oldLines);
        } else {
          Pass5Matched(newSlots, oldSlots, i - 1, newLines, oldLines);
        }
    }
  }

  // ---------------------------------------------------------------------------------------------
  // Properties of the diff

  /** What pass 3 demands of the table and the slots it starts from. */
  lemma StartFits(newLines: seq<string>, oldLines: seq<string>)
    ensures var t := Table(newLines, oldLines);
            && Counts(t, newLines, oldLines) && Keyed(Refs(newLines), t) && Fits(t, |oldLines|)
            && Bounded(Refs(newLines), |oldLines|)
  {
    TableCounts(newLines, oldLines);
  }

  /** Before pass 3 every slot refers to its own line's entry, so nothing is paired. */
  lemma RefsMatched(newLines: seq<string>, oldLines: seq<string>)
    ensures Matched(Refs(newLines), Refs(oldLines), newLines, oldLines)
  {
    var newSlots, oldSlots := Refs(newLines), Refs(oldLines);
    forall k | 0 <= k < |newSlots|
      ensures NewSlotOk(newSlots, oldSlots, newLines, oldLines, k) && NewPaired(newSlots, oldSlots, newLines, oldLines, k)
    {
      assert newSlots[k] == Ref(newLines[k]);
    }
    forall k | 0 <= k < |oldSlots|
      ensures OldSlotOk(newSlots, oldSlots, oldLines, k) && OldPaired(newSlots, oldSlots, k)
    {
      assert oldSlots[k] == Ref(oldLines[k]);
    }
  }

  /** Lines 134-136, 150-154 and 165-169, under either comparison: a paired new line is paired
      with a line number of the old text at which its own text occurs somewhere, a paired old line
      with a line number of the new text, and an unpaired slot still refers to its own line. */
  lemma PairingConsistent(strict: bool, newLines: seq<string>, oldLines: seq<string>)
    requires |newLines| > 0
    ensures var r := Pairing(strict, newLines, oldLines); Consistent(r.0, r.1, newLines, oldLines)
  {
    var t := Table(newLines, oldLines);
    StartFits(newLines, oldLines);
    RefsMatched(newLines, oldLines);
    Pass3Consistent(t, Refs(newLines), Refs(oldLines), 0, newLines, oldLines);
    Pass45Consistent(strict, Pass3(t, Refs(newLines), Refs(oldLines), 0), newLines, oldLines);
  }

  lemma Pass45Consistent(strict: bool, p3: (seq<Slot>, seq<Slot>), newLines: seq<string>, oldLines: seq<string>)
    requires |p3.0| > 0 && Bounded(p3.0, |p3.1|) && Consistent(p3.0, p3.1, newLines, oldLines)
    ensures var p4 := Pass4(strict, p3.0, p3.1, 0);
            var r := Pass5(strict, p4.0, p4.1, |p4.0| - 1);
            Consistent(r.0, r.1, newLines, oldLines)
  {
    Pass4Consistent(strict, p3.0, p3.1, 0, newLines, oldLines);
    var p4 := Pass4(strict, p3.0, p3.1, 0);
    Pass5Consistent(strict, p4.0, p4.1, |p4.0| - 1, newLines, oldLines);
  }

  /** With entries-only comparison the pairing is a partial matching between equal lines: new
      line `i` paired with old line `k` means old line `k` is paired back with `i`, and the two
      lines have the same text. */
  lemma CorrectedPairingMatched(newLines: seq<string>, oldLines: seq<string>)
    requires |newLines| > 0
    ensures var r := Pairing(true, newLines, oldLines); Matched(r.0, r.1, newLines, oldLines)
  {
    var t := Table(newLines, oldLines);
    StartFits(newLines, oldLines);
    RefsMatched(newLines, oldLines);
    Pass3Matched(t, Refs(newLines), Refs(oldLines), 0, newLines, oldLines);
    Pass45Matched(Pass3(t, Refs(newLines), Refs(oldLines), 0), newLines, oldLines);
  }

  lemma Pass45Matched(p3: (seq<Slot>, seq<Slot>), newLines: seq<string>, oldLines: seq<string>)
    requires |p3.0| > 0 && Bounded(p3.0, |p3.1|) && Matched(p3.0, p3.1, newLines, oldLines)
    ensures var p4 := Pass4(true, p3.0, p3.1, 0);
            var r := Pass5(true, p4.0, p4.1, |p4.0| - 1);
            Matched(r.0, r.1, newLines, oldLines)
  {
    Pass4Matched(p3.0, p3.1, 0, newLines, oldLines);
    var p4 := Pass4(true, p3.0, p3.1, 0);
    Pass5Matched(p4.0, p4.1, |p4.0| - 1, newLines, oldLines);
  }

  /** Lines 128-138: a line occurring exactly once in each text is reported `None`, wherever it
      moved. */
  lemma UniqueLineUnchanged(strict: bool, newLines: seq<string>, oldLines: seq<string>, i: nat)
    requires i < |newLines| && multiset(newLines)[newLines[i]] == 1 && multiset(oldLines)[newLines[i]] == 1
    ensures DiffLines(strict, newLines, oldLines)[i] == None
  {
    var t := Table(newLines, oldLines);
    TableCounts(newLines, oldLines);
    assert newLines[i] in t && Unique(t[newLines[i]]);
  }

  /** Lines 102-108, 130-132, 151 and 166: a new line that does not occur in the old text is
      never paired, so it is reported `Modified`. */
  lemma NewLineModified(strict: bool, newLines: seq<string>, oldLines: seq<string>, i: nat)
    requires i < |newLines| && newLines[i] !in oldLines
    ensures DiffLines(strict, newLines, oldLines)[i] == Modified
  {
    PairingConsistent(strict, newLines, oldLines);
    var r := Pairing(strict, newLines, oldLines);
    assert NewSlotOk(r.0, r.1, newLines, oldLines, i);
  }

  /** Lines 185-189 with the corrected comparison: a new line is reported `None` exactly when it
      is matched with an old line of the same text that is matched back with it. */
  lemma CorrectedUnchangedIff(newLines: seq<string>, oldLines: seq<string>, i: nat)
    requires i < |newLines|
    ensures var r := Pairing(true, newLines, oldLines);
            DiffLines(true, newLines, oldLines)[i] == None <==>
              exists k :: 0 <= k < |oldLines| && r.0[i] == Line(k) && r.1[k] == Line(i) && oldLines[k] == newLines[i]
  {
    CorrectedPairingMatched(newLines, oldLines);
    var r := Pairing(true, newLines, oldLines);
    assert NewPaired(r.0, r.1, newLines, oldLines, i);
    if r.0[i].Line? {
      var k := r.0[i].n;
      assert 0 <= k < |oldLines| && r.0[i] == Line(k) && r.1[k] == Line(i) && oldLines[k] == newLines[i];
    }
  }
}
