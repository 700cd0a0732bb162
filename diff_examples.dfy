/** The texts `A B C` (new) and `A C B` (old), one line each, worked through the five passes: the
    boxed line numbers that passes 4 and 5 compare with `Equals` pair new line 1 (`B`) with old
    line 1 (`C`). */
module DiffExamples {
  import opened LineDiffer

  /** Each line occurs once in each text; `B` is old line 2 and `C` old line 1. */
  lemma TableABC(newLines: seq<string>, oldLines: seq<string>)
    requires newLines == ["A", "B", "C"] && oldLines == ["A", "C", "B"]
    ensures Table(newLines, oldLines) == map["A" := DiffEntry(1, 1, 0), "B" := DiffEntry(1, 1, 2), "C" := DiffEntry(1, 1, 1)]
  {
    assert newLines[..2][..1] == ["A"] && newLines[..2] == ["A", "B"] && newLines[..1][..0] == [];
    var n1 := map["A" := DiffEntry(1, 0, 0)];
    var n2 := n1["B" := DiffEntry(1, 0, 0)];
    var n3 := n2["C" := DiffEntry(1, 0, 0)];
    assert NewTable(newLines[..1]) == n1;
    assert NewTable(newLines[..2]) == n2;
    assert NewTable(newLines) == n3;
    assert oldLines[..2][..1] == ["A"] && oldLines[..2] == ["A", "C"] && oldLines[..1][..0] == [];
    var o1 := n3["A" := DiffEntry(1, 1, 0)];
    var o2 := o1["C" := DiffEntry(1, 1, 1)];
    var o3 := o2["B" := DiffEntry(1, 1, 2)];
    assert OldTable(n3, oldLines[..1]) == o1;
    assert OldTable(n3, oldLines[..2]) == o2;
    assert OldTable(n3, oldLines) == o3;
  }

  /** Pass 3 pairs every line with its moved counterpart. */
  lemma ThirdPassABC(newLines: seq<string>, oldLines: seq<string>)
    requires newLines == ["A", "B", "C"] && oldLines == ["A", "C", "B"]
    ensures Table(newLines, oldLines) == map["A" := DiffEntry(1, 1, 0), "B" := DiffEntry(1, 1, 2), "C" := DiffEntry(1, 1, 1)]
    ensures Pass3(Table(newLines, oldLines), Refs(newLines), Refs(oldLines), 0)
              == ([Line(0), Line(2), Line(1)], [Line(0), Line(2), Line(1)])
  {
    TableABC(newLines, oldLines);
    var t := Table(newLines, oldLines);
    var s0, o0 := [Ref("A"), Ref("B"), Ref("C")], [Ref("A"), Ref("C"), Ref("B")];
    assert Refs(newLines) == s0 && Refs(oldLines) == o0;
    var s1, o1 := [Line(0), Ref("B"), Ref("C")], [Line(0), Ref("C"), Ref("B")];
    var s2, o2 := [Line(0), Line(2), Ref("C")], [Line(0), Ref("C"), Line(1)];
    var s3, o3 := [Line(0), Line(2), Line(1)], [Line(0), Line(2), Line(1)];
    assert s0[0 := Line(0)] == s1 && o0[0 := Line(0)] == o1;
    assert s1[1 := Line(2)] == s2 && o1[2 := Line(1)] == o2;
    assert s2[2 := Line(1)] == s3 && o2[1 := Line(2)] == o3;
    assert Pass3(t, s3, o3, 3) == (s3, o3);
    assert Pass3(t, s2, o2, 2) == (s3, o3);
    assert Pass3(t, s1, o1, 1) == (s3, o3);
  }

  /** Pass 4 as written: new slot 1 and old slot 1 both hold the line number 2, so `Equals`
      holds and new line 1 is re-paired with old line 1; then the same happens at slot 2. */
  lemma AsWrittenLaterPassesABC(s3: seq<Slot>, o3: seq<Slot>)
    requires s3 == [Line(0), Line(2), Line(1)] && o3 == s3
    ensures var p4 := Pass4(false, s3, o3, 0);
            Pass5(false, p4.0, p4.1, 2) == ([Line(0), Line(1), Line(2)], [Line(0), Line(1), Line(2)])
  {
    var s4, o4 := [Line(0), Line(1), Line(1)], [Line(0), Line(1), Line(1)];
    var s5, o5 := [Line(0), Line(1), Line(2)], [Line(0), Line(1), Line(2)];
    assert s3[1 := Line(1)] == s4 && o3[1 := Line(1)] == o4;
    assert s4[2 := Line(2)] == s5 && o4[2 := Line(2)] == o5;
    assert Pass4(false, s5, o5, 2) == (s5, o5);
    assert Pass4(false, s4, o4, 1) == (s5, o5);
    assert s5[1 := Line(1)] == s5 && o5[1 := Line(1)] == o5;
    assert s5[0 := Line(0)] == s5 && o5[0 := Line(0)] == o5;
    assert Pass5(false, s5, o5, 0) == (s5, o5);
    assert Pass5(false, s5, o5, 1) == (s5, o5);
  }

  /** With entries-only comparison passes 4 and 5 change nothing here. */
  lemma CorrectedLaterPassesABC(s3: seq<Slot>, o3: seq<Slot>)
    requires s3 == [Line(0), Line(2), Line(1)] && o3 == s3
    ensures var p4 := Pass4(true, s3, o3, 0);
            Pass5(true, p4.0, p4.1, 2) == (s3, o3)
  {
    assert Pass4(true, s3, o3, 1) == (s3, o3);
    assert Pass5(true, s3, o3, 1) == (s3, o3);
  }

  /** As written, the pairing joins two lines of different text, so it is not a matching. */
  lemma AsWrittenPairsUnequal(newLines: seq<string>, oldLines: seq<string>)
    requires newLines == ["A", "B", "C"] && oldLines == ["A", "C", "B"]
    ensures var r := Pairing(false, newLines, oldLines);
            r.0[1] == Line(1) && newLines[1] != oldLines[1] && !Matched(r.0, r.1, newLines, oldLines)
  {
    ThirdPassABC(newLines, oldLines);
    AsWrittenLaterPassesABC([Line(0), Line(2), Line(1)], [Line(0), Line(2), Line(1)]);
    var r := Pairing(false, newLines, oldLines);
    assert !NewPaired(r.0, r.1, newLines, oldLines, 1);
  }

  /** Corrected, `B` and `C` stay paired with their own old lines. */
  lemma CorrectedPairsEqual(newLines: seq<string>, oldLines: seq<string>)
    requires newLines == ["A", "B", "C"] && oldLines == ["A", "C", "B"]
    ensures Pairing(true, newLines, oldLines).0 == [Line(0), Line(2), Line(1)]
  {
    ThirdPassABC(newLines, oldLines);
    CorrectedLaterPassesABC([Line(0), Line(2), Line(1)], [Line(0), Line(2), Line(1)]);
  }
}
