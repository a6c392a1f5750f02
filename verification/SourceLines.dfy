/**
 * Two ways to count lines: the rows of the parser end at newlines, while `str.splitlines` ends a
 * line at eight other characters too. A carriage return is gone before either is used.
 */
module SourceLines {
  import opened Common
  import opened Packing

  predicate IsNewline(c: char) {
    c == '\n'
  }

  /** VT, FF, FS, GS, RS, NEL, LS and PS. */
  predicate IsOtherBreak(c: char) {
    var n := c as int;
    n == 0x0B || n == 0x0C || 0x1C <= n <= 0x1E || n == 0x85 || n == 0x2028 || n == 0x2029
  }

  predicate IsBreak(c: char) {
    IsNewline(c) || IsOtherBreak(c)
  }

  /** What stands between the breaks. */
  function Pieces(text: string, isBreak: char -> bool): (r: seq<string>)
    ensures r != []
  {
    if text == "" then [""]
    else
      var before, c := Pieces(text[..|text| - 1], isBreak), text[|text| - 1];
      if isBreak(c) then before + [""] else before[..|before| - 1] + [before[|before| - 1] + [c]]
  }

  /** The rows that the parser counts. */
  function Rows(text: string): seq<string> {
    Pieces(text, IsNewline)
  }

  /** `text.splitlines()`: a break at the end starts no line. */
  function LinesOf(text: string): seq<string> {
    var pieces := Pieces(text, IsBreak);
    if pieces[|pieces| - 1] == "" then pieces[..|pieces| - 1] else pieces
  }

  /** The line with this number; a slice past the end is empty. */
  function LineAt(lines: seq<string>, line: nat): string
    requires 1 <= line
  {
    if line <= |lines| then lines[line - 1] else ""
  }

  predicate Plain(row: string) {
    forall i :: 0 <= i < |row| ==> !IsOtherBreak(row[i])
  }

  /** None of the other breaks stands in the first `n` rows. */
  predicate PlainThrough(text: string, n: nat) {
    forall r :: 0 <= r < n && r < |Rows(text)| ==> Plain(Rows(text)[r])
  }

  predicate AgreeThrough(text: string, n: nat) {
    forall line :: 1 <= line <= n && line <= |Rows(text)| ==> LineAt(LinesOf(text), line) == Rows(text)[line - 1]
  }

  /** The first `m` rows are pieces as they are, and the next one is cut. */
  predicate CutAt(text: string, m: nat) {
    var rows, pieces := Rows(text), Pieces(text, IsBreak);
    && m < |rows| && !Plain(rows[m]) && m + 1 < |pieces| && pieces[..m] == rows[..m] && |pieces[m]| < |rows[m]|
  }

  /** All rows are pieces as they are. */
  predicate Uncut(text: string) {
    Pieces(text, IsBreak) == Rows(text) && forall r :: 0 <= r < |Rows(text)| ==> Plain(Rows(text)[r])
  }

  predicate FirstCutAt(text: string, m: nat) {
    CutAt(text, m) && forall r :: 0 <= r < m ==> Plain(Rows(text)[r])
  }

  lemma RowAppended(text: string, c: char)
    requires !IsNewline(c)
    ensures var rows := Rows(text); Rows(text + [c]) == rows[..|rows| - 1] + [rows[|rows| - 1] + [c]]
  {
    assert (text + [c])[..|text|] == text;
  }

  lemma PieceAppended(text: string, c: char)
    ensures var pieces := Pieces(text, IsBreak);
            Pieces(text + [c], IsBreak) == if IsBreak(c) then pieces + [""] else pieces[..|pieces| - 1] + [pieces[|pieces| - 1] + [c]]
  {
    assert (text + [c])[..|text|] == text;
  }

  lemma NewRow(text: string)
    ensures Rows(text + "\n") == Rows(text) + [""]
  {
    assert (text + "\n")[..|text|] == text;
  }

  lemma PlainAppended(row: string, c: char)
    ensures Plain(row + [c]) <==> Plain(row) && !IsOtherBreak(c)
  {
    assert (row + [c])[|row|] == c;
    assert forall i :: 0 <= i < |row| ==> (row + [c])[i] == row[i];
  }

  lemma RowsKept(text: string, c: char, m: nat)
    requires m < |Rows(text)|
    ensures m < |Rows(text + [c])| && |Rows(text)[m]| <= |Rows(text + [c])[m]|
    ensures Plain(Rows(text + [c])[m]) ==> Plain(Rows(text)[m])
    ensures Rows(text + [c])[..m] == Rows(text)[..m]
  {
    var rows := Rows(text);
    if IsNewline(c) {
      NewRow(text);
    } else {
      RowAppended(text, c);
      PlainAppended(rows[|rows| - 1], c);
    }
    hide Rows, Plain;
    assert Rows(text + [c])[..m] == rows[..m];
  }

  lemma PiecesKept(text: string, c: char, m: nat)
    requires m + 1 < |Pieces(text, IsBreak)|
    ensures m + 1 < |Pieces(text + [c], IsBreak)| && Pieces(text + [c], IsBreak)[..m + 1] == Pieces(text, IsBreak)[..m + 1]
  {
    PieceAppended(text, c);
    hide Pieces;
  }

  lemma CutStays(text: string, c: char, m: nat)
    requires FirstCutAt(text, m)
    ensures FirstCutAt(text + [c], m)
  {
    RowsKept(text, c, m);
    PiecesKept(text, c, m);
    hide Rows, Pieces, Plain;
    var rows, rows' := Rows(text), Rows(text + [c]);
    var pieces, pieces' := Pieces(text, IsBreak), Pieces(text + [c], IsBreak);
    assert pieces'[..m] == pieces'[..m + 1][..m] && pieces[..m] == pieces[..m + 1][..m];
    assert pieces'[m] == pieces'[..m + 1][m] == pieces[..m + 1][m];
    forall r | 0 <= r < m ensures Plain(rows'[r]) { assert rows'[r] == rows'[..m][r] == rows[..m][r]; }
  }

  lemma NothingIsPlain()
    ensures Plain("")
  {
  }

  lemma NewlineAfterUncut(text: string)
    requires Uncut(text)
    ensures Uncut(text + "\n")
  {
    PieceAppended(text, '\n');
    NewRow(text);
    NothingIsPlain();
    hide Rows, Pieces, Plain;
    assert Rows(text + "\n") == Rows(text) + [""] == Pieces(text + "\n", IsBreak);
  }

  lemma PlainAfterUncut(text: string, c: char)
    requires Uncut(text) && !IsBreak(c)
    ensures Uncut(text + [c])
  {
    var rows, m := Rows(text), |Rows(text)| - 1;
    PieceAppended(text, c);
    RowAppended(text, c);
    PlainAppended(rows[m], c);
    hide Rows, Pieces, Plain;
    assert Rows(text + [c]) == rows[..m] + [rows[m] + [c]] == Pieces(text + [c], IsBreak);
  }

  lemma BreakAfterUncut(text: string, c: char)
    requires Uncut(text) && IsOtherBreak(c)
    ensures FirstCutAt(text + [c], |Rows(text)| - 1)
  {
    var rows, m := Rows(text), |Rows(text)| - 1;
    PieceAppended(text, c);
    RowAppended(text, c);
    PlainAppended(rows[m], c);
    hide Rows, Pieces, Plain;
    assert Rows(text + [c]) == rows[..m] + [rows[m] + [c]];
    assert Pieces(text + [c], IsBreak) == rows + [""];
    assert forall r :: 0 <= r < m ==> Rows(text + [c])[r] == rows[r];
  }

  lemma NothingIsUncut()
    ensures Uncut("")
  {
  }

  /** Either the pieces are the rows, or there is a first row that is cut. */
  lemma {:induction false} FirstCut(text: string) returns (cut: Option<nat>)
    ensures if cut.None? then Uncut(text) else FirstCutAt(text, cut.value)
  {
    if text == "" {
      cut := None;
      NothingIsUncut();
    } else {
      var before, c := text[..|text| - 1], text[|text| - 1];
      assert text == before + [c];
      cut := FirstCut(before);
      hide Uncut, CutAt;
      if cut.Some? {
        CutStays(before, c, cut.value);
      } else {
        if IsNewline(c) {
          NewlineAfterUncut(before);
        } else if IsOtherBreak(c) {
          BreakAfterUncut(before, c);
          cut := Some(|Rows(before)| - 1);
        } else {
          PlainAfterUncut(before, c);
        }
      }
    }
  }

  /** The lines of the chunker are the rows of the parser, up to a row, exactly if no other break stands before its end. */
  lemma LinesAreRowsIff(text: string, n: nat)
    ensures AgreeThrough(text, n) <==> PlainThrough(text, n)
  {
    var cut := FirstCut(text);
    hide Pieces, Plain;
    var rows := Rows(text);
    if cut.Some? {
      var m := cut.value;
      assert LineAt(LinesOf(text), m + 1) != rows[m];
      forall line | 1 <= line <= m ensures LineAt(LinesOf(text), line) == rows[line - 1] {
        assert Pieces(text, IsBreak)[..m][line - 1] == rows[..m][line - 1];
      }
    }
  }

  lemma LinesReach(text: string, last: nat)
    requires 1 <= last <= |Rows(text)| && PlainThrough(text, last) && (last == |Rows(text)| ==> Rows(text)[last - 1] != "")
    ensures last <= |LinesOf(text)|
  {
    var cut := FirstCut(text);
    hide Rows, Pieces, Plain;
  }

  /** Then the slices are the same too. */
  lemma SliceIsExact(text: string, first: nat, last: nat)
    requires 1 <= first <= last <= |Rows(text)| && PlainThrough(text, last)
    requires last == |Rows(text)| ==> Rows(text)[last - 1] != ""
    ensures LineSlice(LinesOf(text), first, last) == LineSlice(Rows(text), first, last)
  {
    LinesAreRowsIff(text, last);
    LinesReach(text, last);
    hide LinesOf, Rows, PlainThrough, Joined;
    var lines, rows := LinesOf(text), Rows(text);
    forall k | first - 1 <= k < last ensures lines[k] == rows[k] { assert LineAt(lines, k + 1) == rows[k]; }
    assert lines[first - 1..last] == rows[first - 1..last];
  }

  // ---------------------------------------------------------------- a shifted line

  predicate Unbroken(row: string) {
    forall i :: 0 <= i < |row| ==> !IsBreak(row[i])
  }

  /** The pieces so far, the last of which nothing has been written to. */
  predicate Written(text: string, done: seq<string>, isBreak: char -> bool) {
    Pieces(text, isBreak) == done + [""]
  }

  lemma {:induction false} RowWritten(text: string, done: seq<string>, row: string, isBreak: char -> bool)
    requires Written(text, done, isBreak) && forall i :: 0 <= i < |row| ==> !isBreak(row[i])
    ensures Pieces(text + row, isBreak) == done + [row]
  {
    if row == "" {
      assert text + row == text;
    } else {
      var before, c := row[..|row| - 1], row[|row| - 1];
      RowWritten(text, done, before, isBreak);
      assert (text + row)[..|text + row| - 1] == text + before && (text + row)[|text + row| - 1] == c;
      assert (done + [before])[..|done|] == done && before + [c] == row;
    }
  }

  lemma LineWritten(text: string, done: seq<string>, row: string, end: string, isBreak: char -> bool)
    requires Written(text, done, isBreak) && |end| == 1 && isBreak(end[0])
    requires forall i :: 0 <= i < |row| ==> !isBreak(row[i])
    ensures Written(text + row + end, done + [row], isBreak)
  {
    RowWritten(text, done, row, isBreak);
    assert (text + row + end)[..|text + row|] == text + row && (text + row + end)[|text + row|] == end[0];
  }

  /** Five rows, of which the third holds nothing but another break. */
  function Shifted(h: string, a: string, c: char, b: string, d: string): string {
    h + "\n" + a + "\n" + [c] + "\n" + b + "\n" + d + "\n"
  }

  lemma NothingWritten(isBreak: char -> bool)
    ensures Written("", [], isBreak)
  {
  }

  lemma ShiftedRows(h: string, a: string, c: char, b: string, d: string)
    requires Unbroken(h) && Unbroken(a) && Unbroken(b) && Unbroken(d) && IsOtherBreak(c)
    ensures Rows(Shifted(h, a, c, b, d)) == [h, a, [c], b, d, ""]
  {
    var t1 := "" + h + "\n";
    var t2 := t1 + a + "\n";
    var t3 := t2 + [c] + "\n";
    var t4 := t3 + b + "\n";
    var t5 := t4 + d + "\n";
    assert t5 == Shifted(h, a, c, b, d) by { assert "" + h == h; }
    assert Written(t5, [] + [h] + [a] + [[c]] + [b] + [d], IsNewline) by {
      hide Written;
      NothingWritten(IsNewline);
      LineWritten("", [], h, "\n", IsNewline);
      LineWritten(t1, [] + [h], a, "\n", IsNewline);
      LineWritten(t2, [] + [h] + [a], [c], "\n", IsNewline);
      LineWritten(t3, [] + [h] + [a] + [[c]], b, "\n", IsNewline);
      LineWritten(t4, [] + [h] + [a] + [[c]] + [b], d, "\n", IsNewline);
    }
    hide Pieces;
    assert [] + [h] + [a] + [[c]] + [b] + [d] + [""] == [h, a, [c], b, d, ""];
  }

  lemma ShiftedLines(h: string, a: string, c: char, b: string, d: string)
    requires Unbroken(h) && Unbroken(a) && Unbroken(b) && Unbroken(d) && IsOtherBreak(c)
    ensures LinesOf(Shifted(h, a, c, b, d)) == [h, a, "", "", b, d]
  {
    var t1 := "" + h + "\n";
    var t2 := t1 + a + "\n";
    var t3 := t2 + "" + [c];
    var t4 := t3 + "" + "\n";
    var t5 := t4 + b + "\n";
    var t6 := t5 + d + "\n";
    assert t6 == Shifted(h, a, c, b, d) by { assert "" + h == h && t2 + "" == t2 && t3 + "" == t3; }
    assert Written(t6, [] + [h] + [a] + [""] + [""] + [b] + [d], IsBreak) by {
      hide Written;
      NothingWritten(IsBreak);
      LineWritten("", [], h, "\n", IsBreak);
      LineWritten(t1, [] + [h], a, "\n", IsBreak);
      LineWritten(t2, [] + [h] + [a], "", [c], IsBreak);
      LineWritten(t3, [] + [h] + [a] + [""], "", "\n", IsBreak);
      LineWritten(t4, [] + [h] + [a] + [""] + [""], b, "\n", IsBreak);
      LineWritten(t5, [] + [h] + [a] + [""] + [""] + [b], d, "\n", IsBreak);
    }
    hide Pieces;
    assert [] + [h] + [a] + [""] + [""] + [b] + [d] == [h, a, "", "", b, d];
  }

  lemma OneCharacter(c: char, isBreak: char -> bool)
    ensures Pieces([c], isBreak) == if isBreak(c) then ["", ""] else [[c]]
  {
    assert [c][..0] == "";
    assert Pieces("", isBreak) == [""];
    assert [""][..0] == [] && "" + [c] == [c];
    assert [] + [[c]] == [[c]];
  }

  /** The characters that end a line: those of `str.splitlines`, after carriage returns were normalized. */
  lemma LineEnds(c: char)
    ensures LinesOf([c]) == if c in {'\n', '\U{0B}', '\U{0C}', '\U{1C}', '\U{1D}', '\U{1E}', '\U{85}', '\U{2028}', '\U{2029}'} then [""] else [[c]]
    ensures Rows([c]) == if c == '\n' then ["", ""] else [[c]]
  {
    OneCharacter(c, IsBreak);
    OneCharacter(c, IsNewline);
  }
}
