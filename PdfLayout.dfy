/**
 * The vertical cursor of `exportToPDF`. The document library is seen only
 * through what it reports: `lines(text, width)` is the number of lines its
 * word wrap gives a text, `tableEnd(startY, row)` the cursor position where
 * the table service finished drawing a row. The export emits instructions in
 * order; a `NewPage` is `doc.addPage()`. Page sizes and cursor positions are
 * real numbers, as the library's measurements are not whole in general.
 */
module PdfLayout {
  import opened Labels
  import opened CourseModel
  import opened ModuleTable

  const LineHeight := 5.0
  const SloGap := 2.0
  const TopMargin := 20.0
  const Margin := 14.0
  const SloIndent := 20.0
  const DescriptionWidth := 260.0
  /** A module starts on a new page once the cursor is past this point, whatever the page height. */
  const ModuleBreakY := 180.0

  const Title := "Course Map"
  const DescriptionHeading := "Description:"
  const OutcomesHeading := "Student Learning Outcomes:"
  const OutcomesIntro := "At the end of this course, the learner will be able to:"
  const FileName := "course_map.pdf"

  datatype Instr =
    | Centered(y: real, text: string)
    | Text(x: real, y: real, text: string)
    | Lines(x: real, y: real, text: string, count: nat)
    | NewPage
    | Table(startY: real, row: seq<string>)
    | Save(fileName: string)

  /** Instructions emitted so far and where the cursor stands. */
  datatype Pass = Pass(out: seq<Instr>, y: real)

  // ---------------------------------------------------------------------------
  // Reading back what was drawn, in order.

  /** The texts of the wrapped blocks. */
  function Blocks(s: seq<Instr>): seq<string>
  {
    if |s| == 0 then []
    else Blocks(s[..|s| - 1]) + (if s[|s| - 1].Lines? then [s[|s| - 1].text] else [])
  }

  /** The body rows handed to the table service. */
  function Tables(s: seq<Instr>): seq<seq<string>>
  {
    if |s| == 0 then []
    else Tables(s[..|s| - 1]) + (if s[|s| - 1].Table? then [s[|s| - 1].row] else [])
  }

  /** The texts of the single lines. */
  function Captions(s: seq<Instr>): seq<string>
  {
    if |s| == 0 then []
    else Captions(s[..|s| - 1]) + (if s[|s| - 1].Text? then [s[|s| - 1].text] else [])
  }

  /** The line counts of the wrapped blocks. */
  function Counts(s: seq<Instr>): seq<nat>
  {
    if |s| == 0 then []
    else Counts(s[..|s| - 1]) + (if s[|s| - 1].Lines? then [s[|s| - 1].count] else [])
  }

  /** What appending one instruction adds to each reading. */
  lemma Snoc(s: seq<Instr>, i: Instr)
    ensures Blocks(s + [i]) == Blocks(s) + (if i.Lines? then [i.text] else [])
    ensures Tables(s + [i]) == Tables(s) + (if i.Table? then [i.row] else [])
    ensures Captions(s + [i]) == Captions(s) + (if i.Text? then [i.text] else [])
  {
    assert (s + [i])[..|s|] == s;
  }

  /** Each reading of a concatenation is the concatenation of the readings. */
  lemma {:induction false} ReadsAppend(a: seq<Instr>, b: seq<Instr>)
    ensures Blocks(a + b) == Blocks(a) + Blocks(b)
    ensures Tables(a + b) == Tables(a) + Tables(b)
    ensures Captions(a + b) == Captions(a) + Captions(b)
  {
    if |b| == 0 {
      assert a + b == a;
    } else {
      var b' := b[..|b| - 1];
      assert a + b == (a + b') + [b[|b| - 1]];
      assert b == b' + [b[|b| - 1]];
      ReadsAppend(a, b');
      Snoc(a + b', b[|b| - 1]);
      Snoc(b', b[|b| - 1]);
    }
  }

  // ---------------------------------------------------------------------------
  // Title, course line, description and the outcome list's heading.

  /**
   * The title centred at 15, the course line at 25 and the description's
   * heading at 35; the description is one block of `descLines` lines at 40;
   * the cursor then stands below it, and when that is lower than 40 above the
   * page's bottom one new page is started and the cursor returns to the top
   * margin; the outcome list's heading and its intro line 10 apart follow.
   */
  function Preamble(c: Course, H: real, descLines: nat): (p: Pass)
    ensures var overflow := 40.0 + LineHeight * descLines as real > H - 40.0;
      var top := if overflow then TopMargin else 40.0 + LineHeight * descLines as real;
      && |p.out| == (if overflow then 7 else 6)
      && p.out[3] == Lines(Margin, 40.0, c.description, descLines)
      && (forall j :: 0 <= j < |p.out| ==> (p.out[j].NewPage? <==> overflow && j == 4))
      && (forall j :: 0 <= j < |p.out| ==> (p.out[j].Lines? <==> j == 3))
      && p.out[..3] == [Centered(15.0, Title),
                        Text(Margin, 25.0, "Course: " + c.courseNumber + " - " + c.courseName),
                        Text(Margin, 35.0, DescriptionHeading)]
      && p.out[|p.out| - 2] == Text(Margin, top, OutcomesHeading)
      && p.out[|p.out| - 1] == Text(Margin, top + 10.0, OutcomesIntro)
      && p.y == top + 15.0
  {
    var y := 40.0 + LineHeight * descLines as real;
    var top := if y > H - 40.0 then TopMargin else y;
    Pass([Centered(15.0, Title),
          Text(Margin, 25.0, "Course: " + c.courseNumber + " - " + c.courseName),
          Text(Margin, 35.0, DescriptionHeading),
          Lines(Margin, 40.0, c.description, descLines)]
         + (if y > H - 40.0 then [NewPage] else [])
         + [Text(Margin, top, OutcomesHeading),
            Text(Margin, top + 10.0, OutcomesIntro)],
         top + 15.0)
  }

  // ---------------------------------------------------------------------------
  // The outcome list.

  /** "{letter}. {outcome}", with "undefined" for a position past the letter table. */
  function SloText(i: int, slo: string): string
  {
    Shown(SloLetter(i)) + ". " + slo
  }

  /** One outcome of `n` lines: a new page first when it would pass 20 above the page's bottom. */
  function SloStep(p: Pass, text: string, n: nat, H: real): Pass
  {
    if p.y + LineHeight * n as real > H - 20.0 then
      Pass(p.out + [NewPage, Lines(SloIndent, TopMargin, text, n)], TopMargin + LineHeight * n as real + SloGap)
    else
      Pass(p.out + [Lines(SloIndent, p.y, text, n)], p.y + LineHeight * n as real + SloGap)
  }

  /** The text of every outcome, in order. */
  function SloTexts(los: seq<string>): (r: seq<string>)
    ensures |r| == |los|
  {
    if |los| == 0 then [] else SloTexts(los[..|los| - 1]) + [SloText(|los| - 1, los[|los| - 1])]
  }

  lemma {:induction false} SloTextsAt(los: seq<string>, i: int)
    requires 0 <= i < |los|
    ensures SloTexts(los)[i] == SloText(i, los[i])
  {
    if i < |los| - 1 {
      SloTextsAt(los[..|los| - 1], i);
    }
  }

  /** The first `k` outcome texts, wrapped to `width`, starting with the cursor at `y0`. */
  function SloPass(texts: seq<string>, k: nat, y0: real, H: real, width: real, lines: (string, real) -> nat): Pass
    requires k <= |texts|
  {
    if k == 0 then Pass([], y0)
    else SloStep(SloPass(texts, k - 1, y0, H, width, lines), texts[k - 1], lines(texts[k - 1], width), H)
  }

  /** Replays the outcome list's cursor rule over emitted instructions. */
  function SloCursor(y0: real, s: seq<Instr>): real
  {
    if |s| == 0 then y0
    else match s[|s| - 1]
      case NewPage => TopMargin
      case Lines(_, y, _, n) => y + LineHeight * n as real + SloGap
      case _ => SloCursor(y0, s[..|s| - 1])
  }

  /**
   * The outcome list as a reader of the instructions checks it: every block is
   * drawn where the replayed cursor stands; a new page is started only right
   * before a block that would pass 20 above the bottom from there; and every
   * block not preceded by a new page fits.
   */
  predicate PagedOutcomes(y0: real, H: real, out: seq<Instr>)
  {
    forall j :: 0 <= j < |out| ==> PagedOutcomeAt(y0, H, out, j)
  }

  predicate PagedOutcomeAt(y0: real, H: real, out: seq<Instr>, j: int)
    requires 0 <= j < |out|
  {
      && (out[j].Lines? || out[j].NewPage?)
      && (out[j].NewPage? ==>
            j + 1 < |out| && out[j + 1].Lines? && SloCursor(y0, out[..j]) + LineHeight * out[j + 1].count as real > H - 20.0)
      && (out[j].Lines? ==>
            && out[j].x == SloIndent
            && out[j].y == SloCursor(y0, out[..j])
            && ((j == 0 || !out[j - 1].NewPage?) ==> out[j].y + LineHeight * out[j].count as real <= H - 20.0))
  }

  /** One outcome step keeps the cursor rule. */
  lemma SloStepPaged(y0: real, H: real, p: Pass, text: string, n: nat)
    requires PagedOutcomes(y0, H, p.out) && SloCursor(y0, p.out) == p.y
    ensures var q := SloStep(p, text, n, H); PagedOutcomes(y0, H, q.out) && SloCursor(y0, q.out) == q.y
  {
    var out := SloStep(p, text, n, H).out;
    var m := |p.out|;
    assert out[..m] == p.out;
    var overflow := p.y + LineHeight * n as real > H - 20.0;
    if overflow {
      assert out == p.out + [NewPage, Lines(SloIndent, TopMargin, text, n)];
      assert out[..m + 1] == p.out + [NewPage];
    } else {
      assert out == p.out + [Lines(SloIndent, p.y, text, n)];
    }
    forall j | 0 <= j < |out| ensures PagedOutcomeAt(y0, H, out, j) {
      if j < m {
        assert PagedOutcomeAt(y0, H, p.out, j);
        assert out[..j] == p.out[..j];
      }
    }
  }

  /** The outcome pass keeps the cursor rule at every step. */
  lemma {:induction false} SloPassPaged(texts: seq<string>, k: nat, y0: real, H: real, width: real, lines: (string, real) -> nat)
    requires k <= |texts|
    ensures var p := SloPass(texts, k, y0, H, width, lines); PagedOutcomes(y0, H, p.out) && SloCursor(y0, p.out) == p.y
  {
    if k > 0 {
      var prev := SloPass(texts, k - 1, y0, H, width, lines);
      var n := lines(texts[k - 1], width);
      assert SloPass(texts, k, y0, H, width, lines) == SloStep(prev, texts[k - 1], n, H);
      SloPassPaged(texts, k - 1, y0, H, width, lines);
      SloStepPaged(y0, H, prev, texts[k - 1], n);
    }
  }

  lemma SloStepDraws(p: Pass, text: string, n: nat, H: real)
    ensures var out := SloStep(p, text, n, H).out;
      Blocks(out) == Blocks(p.out) + [text] && Tables(out) == Tables(p.out) && Captions(out) == Captions(p.out)
  {
    if p.y + LineHeight * n as real > H - 20.0 {
      Snoc(p.out, NewPage);
      Snoc(p.out + [NewPage], Lines(SloIndent, TopMargin, text, n));
      assert p.out + [NewPage] + [Lines(SloIndent, TopMargin, text, n)] == SloStep(p, text, n, H).out;
    } else {
      Snoc(p.out, Lines(SloIndent, p.y, text, n));
    }
  }

  /** Every outcome text is drawn once, in order, and nothing else is drawn or handed to the table service. */
  lemma {:induction false} SloPassDrawsOutcomes(texts: seq<string>, k: nat, y0: real, H: real, width: real, lines: (string, real) -> nat)
    requires k <= |texts|
    ensures var out := SloPass(texts, k, y0, H, width, lines).out;
      Blocks(out) == texts[..k] && Tables(out) == [] && Captions(out) == []
  {
    if k > 0 {
      var prev := SloPass(texts, k - 1, y0, H, width, lines);
      var n := lines(texts[k - 1], width);
      assert SloPass(texts, k, y0, H, width, lines) == SloStep(prev, texts[k - 1], n, H);
      SloPassDrawsOutcomes(texts, k - 1, y0, H, width, lines);
      SloStepDraws(prev, texts[k - 1], n, H);
      assert texts[..k] == texts[..k - 1] + [texts[k - 1]];
    }
  }

  lemma SloStepCounts(p: Pass, text: string, n: nat, H: real)
    ensures Counts(SloStep(p, text, n, H).out) == Counts(p.out) + [n]
  {
    if p.y + LineHeight * n as real > H - 20.0 {
      var q := p.out + [NewPage];
      assert q[..|p.out|] == p.out;
      assert (q + [Lines(SloIndent, TopMargin, text, n)])[..|q|] == q;
      assert q + [Lines(SloIndent, TopMargin, text, n)] == SloStep(p, text, n, H).out;
    } else {
      assert (p.out + [Lines(SloIndent, p.y, text, n)])[..|p.out|] == p.out;
    }
  }

  /** Outcome block `j` is as many lines long as the word wrap makes outcome text `j`. */
  lemma {:induction false} SloPassCounts(texts: seq<string>, k: nat, y0: real, H: real, width: real, lines: (string, real) -> nat)
    requires k <= |texts|
    ensures var out := SloPass(texts, k, y0, H, width, lines).out;
      |Counts(out)| == k && forall j :: 0 <= j < k ==> Counts(out)[j] == lines(texts[j], width)
  {
    if k > 0 {
      var prev := SloPass(texts, k - 1, y0, H, width, lines);
      var n := lines(texts[k - 1], width);
      assert SloPass(texts, k, y0, H, width, lines) == SloStep(prev, texts[k - 1], n, H);
      SloPassCounts(texts, k - 1, y0, H, width, lines);
      SloStepCounts(prev, texts[k - 1], n, H);
    }
  }

  // ---------------------------------------------------------------------------
  // The modules.

  function ModuleHeading(mi: int, title: string): string
  {
    "Module " + IntToString(mi + 1) + ": " + title
  }

  /**
   * One module: a new page first when the cursor is past `ModuleBreakY`; the
   * heading; the table 10 below it; the cursor then 15 below the table's end.
   */
  function ModuleStep(p: Pass, heading: string, row: seq<string>, tableEnd: (real, seq<string>) -> real): Pass
  {
    var y := if p.y > ModuleBreakY then TopMargin else p.y;
    Pass(p.out + (if p.y > ModuleBreakY then [NewPage] else []) + [Text(Margin, y, heading), Table(y + 10.0, row)],
         tableEnd(y + 10.0, row) + 15.0)
  }

  /** The heading of every module, in order. */
  function Headings(mods: seq<Module>): (r: seq<string>)
    ensures |r| == |mods|
  {
    if |mods| == 0 then [] else Headings(mods[..|mods| - 1]) + [ModuleHeading(|mods| - 1, mods[|mods| - 1].title)]
  }

  lemma {:induction false} HeadingsAt(mods: seq<Module>, mi: int)
    requires 0 <= mi < |mods|
    ensures Headings(mods)[mi] == ModuleHeading(mi, mods[mi].title)
  {
    if mi < |mods| - 1 {
      HeadingsAt(mods[..|mods| - 1], mi);
    }
  }

  /** The table body row of every module, in order. */
  function Rows(mods: seq<Module>): (r: seq<seq<string>>)
    ensures |r| == |mods|
  {
    if |mods| == 0 then [] else Rows(mods[..|mods| - 1]) + [TableRow(|mods| - 1, mods[|mods| - 1])]
  }

  lemma {:induction false} RowsAt(mods: seq<Module>, mi: int)
    requires 0 <= mi < |mods|
    ensures Rows(mods)[mi] == TableRow(mi, mods[mi])
  {
    if mi < |mods| - 1 {
      RowsAt(mods[..|mods| - 1], mi);
    }
  }

  /** The first `k` modules, given their headings and rows, starting with the cursor at `y0`. */
  function ModulePass(headings: seq<string>, rows: seq<seq<string>>, k: nat, y0: real, tableEnd: (real, seq<string>) -> real): Pass
    requires k <= |headings| && k <= |rows|
  {
    if k == 0 then Pass([], y0)
    else ModuleStep(ModulePass(headings, rows, k - 1, y0, tableEnd), headings[k - 1], rows[k - 1], tableEnd)
  }

  /** Replays the module section's cursor rule over emitted instructions. */
  function ModuleCursor(y0: real, tableEnd: (real, seq<string>) -> real, s: seq<Instr>): real
  {
    if |s| == 0 then y0
    else match s[|s| - 1]
      case NewPage => TopMargin
      case Text(_, y, _) => y + 10.0
      case Table(start, row) => tableEnd(start, row) + 15.0
      case _ => ModuleCursor(y0, tableEnd, s[..|s| - 1])
  }

  /**
   * The module section as a reader of the instructions checks it: a new page
   * only right before a heading, and only when the cursor is past
   * `ModuleBreakY`; every heading at the cursor, at or above `ModuleBreakY`
   * unless a new page precedes it, and followed by its table; every table
   * starting at the cursor, 10 below its heading.
   */
  predicate PagedModules(y0: real, tableEnd: (real, seq<string>) -> real, out: seq<Instr>)
  {
    forall j :: 0 <= j < |out| ==> PagedModuleAt(y0, tableEnd, out, j)
  }

  predicate PagedModuleAt(y0: real, tableEnd: (real, seq<string>) -> real, out: seq<Instr>, j: int)
    requires 0 <= j < |out|
  {
      && (out[j].NewPage? || out[j].Text? || out[j].Table?)
      && (out[j].NewPage? ==>
            j + 1 < |out| && out[j + 1].Text? && ModuleCursor(y0, tableEnd, out[..j]) > ModuleBreakY)
      && (out[j].Text? ==>
            && out[j].x == Margin
            && out[j].y == ModuleCursor(y0, tableEnd, out[..j])
            && ((j == 0 || !out[j - 1].NewPage?) ==> out[j].y <= ModuleBreakY)
            && j + 1 < |out| && out[j + 1].Table?)
      && (out[j].Table? ==>
            && out[j].startY == ModuleCursor(y0, tableEnd, out[..j])
            && j > 0 && out[j - 1].Text? && out[j].startY == out[j - 1].y + 10.0)
  }

  /** One module step keeps the cursor rule. */
  lemma ModuleStepPaged(y0: real, tableEnd: (real, seq<string>) -> real, p: Pass, heading: string, row: seq<string>)
    requires PagedModules(y0, tableEnd, p.out) && ModuleCursor(y0, tableEnd, p.out) == p.y
    ensures var q := ModuleStep(p, heading, row, tableEnd);
      PagedModules(y0, tableEnd, q.out) && ModuleCursor(y0, tableEnd, q.out) == q.y
  {
    var out := ModuleStep(p, heading, row, tableEnd).out;
    var k := |p.out|;
    assert out[..k] == p.out;
    if p.y > ModuleBreakY {
      assert out == p.out + [NewPage, Text(Margin, TopMargin, heading), Table(TopMargin + 10.0, row)];
      assert out[..k + 1] == p.out + [NewPage];
      assert out[..k + 2] == p.out + [NewPage, Text(Margin, TopMargin, heading)];
    } else {
      assert out == p.out + [Text(Margin, p.y, heading), Table(p.y + 10.0, row)];
      assert out[..k + 1] == p.out + [Text(Margin, p.y, heading)];
    }
    forall j | 0 <= j < |out| ensures PagedModuleAt(y0, tableEnd, out, j) {
      if j < k {
        assert PagedModuleAt(y0, tableEnd, p.out, j);
        assert out[..j] == p.out[..j];
      }
    }
  }

  /** The module pass keeps the cursor rule at every step. */
  lemma {:induction false} ModulePassPaged(headings: seq<string>, rows: seq<seq<string>>, k: nat, y0: real, tableEnd: (real, seq<string>) -> real)
    requires k <= |headings| && k <= |rows|
    ensures var p := ModulePass(headings, rows, k, y0, tableEnd);
      PagedModules(y0, tableEnd, p.out) && ModuleCursor(y0, tableEnd, p.out) == p.y
  {
    if k > 0 {
      var prev := ModulePass(headings, rows, k - 1, y0, tableEnd);
      assert ModulePass(headings, rows, k, y0, tableEnd) == ModuleStep(prev, headings[k - 1], rows[k - 1], tableEnd);
      ModulePassPaged(headings, rows, k - 1, y0, tableEnd);
      ModuleStepPaged(y0, tableEnd, prev, headings[k - 1], rows[k - 1]);
    }
  }

  lemma ModuleStepDraws(p: Pass, heading: string, row: seq<string>, tableEnd: (real, seq<string>) -> real)
    ensures var out := ModuleStep(p, heading, row, tableEnd).out;
      && Tables(out) == Tables(p.out) + [row]
      && Captions(out) == Captions(p.out) + [heading]
      && Blocks(out) == Blocks(p.out)
  {
    var y := if p.y > ModuleBreakY then TopMargin else p.y;
    var start := if p.y > ModuleBreakY then p.out + [NewPage] else p.out;
    if p.y > ModuleBreakY {
      Snoc(p.out, NewPage);
    }
    Snoc(start, Text(Margin, y, heading));
    Snoc(start + [Text(Margin, y, heading)], Table(y + 10.0, row));
    assert ModuleStep(p, heading, row, tableEnd).out == start + [Text(Margin, y, heading)] + [Table(y + 10.0, row)];
  }

  /** Every module gets its heading and its table row, once each and in order, and no wrapped block. */
  lemma {:induction false} ModulePassDrawsModules(headings: seq<string>, rows: seq<seq<string>>, k: nat, y0: real, tableEnd: (real, seq<string>) -> real)
    requires k <= |headings| && k <= |rows|
    ensures var out := ModulePass(headings, rows, k, y0, tableEnd).out;
      && Tables(out) == rows[..k]
      && Captions(out) == headings[..k]
      && Blocks(out) == []
  {
    if k > 0 {
      var prev := ModulePass(headings, rows, k - 1, y0, tableEnd);
      assert ModulePass(headings, rows, k, y0, tableEnd) == ModuleStep(prev, headings[k - 1], rows[k - 1], tableEnd);
      ModulePassDrawsModules(headings, rows, k - 1, y0, tableEnd);
      ModuleStepDraws(prev, headings[k - 1], rows[k - 1], tableEnd);
      assert rows[..k] == rows[..k - 1] + [rows[k - 1]];
      assert headings[..k] == headings[..k - 1] + [headings[k - 1]];
    }
  }

  // ---------------------------------------------------------------------------
  // The whole export.

  /** The whole document: its first part, the outcome list, the module section, then the save. */
  function Document(pre: Pass, slos: Pass, mods: Pass): seq<Instr>
  {
    pre.out + slos.out + mods.out + [Save(FileName)]
  }

  /**
   * The document laid out from its first part `pre`, the outcome texts, and
   * the modules' headings and rows: the outcome list at `pre`'s cursor and
   * the module section 10 below the list.
   */
  function Compose(pre: Pass, texts: seq<string>, headings: seq<string>, rows: seq<seq<string>>,
                   H: real, width: real, lines: (string, real) -> nat, tableEnd: (real, seq<string>) -> real): seq<Instr>
    requires |headings| == |rows|
  {
    var slos := SloPass(texts, |texts|, pre.y, H, width, lines);
    Document(pre, slos, ModulePass(headings, rows, |rows|, slos.y + 10.0, tableEnd))
  }

  /** The instructions `exportToPDF` emits for course `c` on pages `W` wide and `H` high. */
  function Export(c: Course, W: real, H: real, lines: (string, real) -> nat, tableEnd: (real, seq<string>) -> real): seq<Instr>
  {
    Compose(Preamble(c, H, lines(c.description, DescriptionWidth)), SloTexts(c.learningOutcomes),
            Headings(c.modules), Rows(c.modules), H, W - 2.0 * Margin, lines, tableEnd)
  }

  /** Each reading of the document is the three parts' readings in order; the last instruction saves. */
  lemma DocumentReads(pre: Pass, slos: Pass, mods: Pass)
    ensures var doc := Document(pre, slos, mods);
      && Blocks(doc) == Blocks(pre.out) + Blocks(slos.out) + Blocks(mods.out)
      && Tables(doc) == Tables(pre.out) + Tables(slos.out) + Tables(mods.out)
      && Captions(doc) == Captions(pre.out) + Captions(slos.out) + Captions(mods.out)
      && doc[|doc| - 1] == Save(FileName)
  {
    ReadsAppend(pre.out, slos.out);
    ReadsAppend(pre.out + slos.out, mods.out);
    Snoc(pre.out + slos.out + mods.out, Save(FileName));
  }

  /**
   * After its first part the document draws the outcome texts as blocks, each
   * once and in order, hands the table service every row and draws every
   * heading, each once and in order, and ends by saving.
   */
  lemma ComposeDraws(pre: Pass, texts: seq<string>, headings: seq<string>, rows: seq<seq<string>>,
                     H: real, width: real, lines: (string, real) -> nat, tableEnd: (real, seq<string>) -> real)
    requires |headings| == |rows|
    ensures var doc := Compose(pre, texts, headings, rows, H, width, lines, tableEnd);
      && Blocks(doc) == Blocks(pre.out) + texts
      && Tables(doc) == Tables(pre.out) + rows
      && Captions(doc) == Captions(pre.out) + headings
      && doc[|doc| - 1] == Save(FileName)
  {
    var slos := SloPass(texts, |texts|, pre.y, H, width, lines);
    var mods := ModulePass(headings, rows, |rows|, slos.y + 10.0, tableEnd);
    assert Compose(pre, texts, headings, rows, H, width, lines, tableEnd) == Document(pre, slos, mods);
    DocumentReads(pre, slos, mods);
    assert Blocks(slos.out) == texts && Tables(slos.out) == [] && Captions(slos.out) == [] by {
      SloPassDrawsOutcomes(texts, |texts|, pre.y, H, width, lines);
      assert texts[..|texts|] == texts;
    }
    assert Blocks(mods.out) == [] && Tables(mods.out) == rows && Captions(mods.out) == headings by {
      ModulePassDrawsModules(headings, rows, |rows|, slos.y + 10.0, tableEnd);
      assert rows[..|rows|] == rows;
      assert headings[..|headings|] == headings;
    }
  }

  /**
   * The export draws the description and then every outcome, each once and
   * in order, hands the table service every module's row, draws the course
   * line with the course's number and name, the two headings and the intro,
   * then every module's heading, once each and in order, and ends by saving.
   */
  lemma ExportContents(c: Course, W: real, H: real, lines: (string, real) -> nat, tableEnd: (real, seq<string>) -> real)
    ensures var doc := Export(c, W, H, lines, tableEnd);
      && Blocks(doc) == [c.description] + SloTexts(c.learningOutcomes)
      && Tables(doc) == Rows(c.modules)
      && Captions(doc) == ["Course: " + c.courseNumber + " - " + c.courseName, DescriptionHeading, OutcomesHeading, OutcomesIntro]
                          + Headings(c.modules)
      && doc[|doc| - 1] == Save(FileName)
  {
    var pre := Preamble(c, H, lines(c.description, DescriptionWidth));
    PreambleDraws(c, H, lines(c.description, DescriptionWidth));
    PreambleCaptions(c, H, lines(c.description, DescriptionWidth));
    ComposeDraws(pre, SloTexts(c.learningOutcomes), Headings(c.modules), Rows(c.modules), H, W - 2.0 * Margin, lines, tableEnd);
  }

  /**
   * The document laid out from `pre` is `pre`, the outcome list from the
   * cursor `pre` leaves, the module section from 10 below the list's final
   * cursor, and the save; both loops keep their page-break rule at every
   * instruction and end at the cursor their rule replays.
   */
  lemma {:induction false} ComposePaged(pre: Pass, texts: seq<string>, headings: seq<string>, rows: seq<seq<string>>,
                     H: real, width: real, lines: (string, real) -> nat, tableEnd: (real, seq<string>) -> real)
    requires |headings| == |rows|
    ensures var slos := SloPass(texts, |texts|, pre.y, H, width, lines);
      var mods := ModulePass(headings, rows, |rows|, slos.y + 10.0, tableEnd);
      && Compose(pre, texts, headings, rows, H, width, lines, tableEnd) == pre.out + slos.out + mods.out + [Save(FileName)]
      && PagedOutcomes(pre.y, H, slos.out) && SloCursor(pre.y, slos.out) == slos.y
      && PagedModules(slos.y + 10.0, tableEnd, mods.out) && ModuleCursor(slos.y + 10.0, tableEnd, mods.out) == mods.y
  {
    var slos := SloPass(texts, |texts|, pre.y, H, width, lines);
    SloPassPaged(texts, |texts|, pre.y, H, width, lines);
    ModulePassPaged(headings, rows, |rows|, slos.y + 10.0, tableEnd);
  }

  /** Headings, single lines and page breaks draw no block and no table. */
  lemma {:induction false} LinesOnly(s: seq<Instr>)
    requires forall j :: 0 <= j < |s| ==> s[j].Centered? || s[j].Text? || s[j].NewPage?
    ensures Blocks(s) == [] && Tables(s) == []
  {
    if |s| > 0 {
      LinesOnly(s[..|s| - 1]);
    }
  }

  /** A run whose only wrapped block is at `k`, the rest being lines and page breaks, draws that block alone and no table. */
  lemma {:induction false} OneBlock(s: seq<Instr>, k: nat)
    requires k < |s| && s[k].Lines?
    requires forall j :: 0 <= j < |s| && j != k ==> s[j].Centered? || s[j].Text? || s[j].NewPage?
    ensures Blocks(s) == [s[k].text] && Tables(s) == []
  {
    var head, tail := s[..k], s[k + 1..];
    assert s == head + [s[k]] + tail;
    LinesOnly(head);
    LinesOnly(tail);
    Snoc(head, s[k]);
    ReadsAppend(head + [s[k]], tail);
  }

  /** The first part of the document draws the description as its only wrapped block and no table. */
  lemma PreambleDraws(c: Course, H: real, descLines: nat)
    ensures Blocks(Preamble(c, H, descLines).out) == [c.description]
    ensures Tables(Preamble(c, H, descLines).out) == []
  {
    var out := Preamble(c, H, descLines).out;
    var n := |out|;
    forall j | 0 <= j < n && j != 3 ensures out[j].Centered? || out[j].Text? || out[j].NewPage? {
      if j < 3 {
        assert out[j] == out[..3][j];
      } else if j < n - 2 {
        assert out[j].NewPage?;
      }
    }
    OneBlock(out, 3);
  }

  /** The single lines of the opening: the course line, the description's heading, the outcome heading and its intro. */
  lemma PreambleCaptions(c: Course, H: real, descLines: nat)
    ensures Captions(Preamble(c, H, descLines).out) ==
      ["Course: " + c.courseNumber + " - " + c.courseName, DescriptionHeading, OutcomesHeading, OutcomesIntro]
  {
    var out := Preamble(c, H, descLines).out;
    var n := |out|;
    assert out[0] == out[..3][0] && out[1] == out[..3][1] && out[2] == out[..3][2];
    forall j | 3 <= j < n - 2 ensures out[j].Lines? || out[j].NewPage? {
      if j > 3 {
        assert out[j].NewPage?;
      }
    }
    FramedCaptions(out);
  }

  /**
   * A run that opens with a centred line and two single lines, closes with
   * two single lines, and has only blocks and page breaks between them has
   * those four single lines as its captions.
   */
  lemma {:induction false} FramedCaptions(s: seq<Instr>)
    requires |s| >= 5 && s[0].Centered? && s[1].Text? && s[2].Text? && s[|s| - 2].Text? && s[|s| - 1].Text?
    requires forall j :: 3 <= j < |s| - 2 ==> s[j].Lines? || s[j].NewPage?
    ensures Captions(s) == [s[1].text, s[2].text, s[|s| - 2].text, s[|s| - 1].text]
  {
    var n := |s|;
    var head, mid := s[..3], s[3..n - 2];
    assert Captions(head) == [s[1].text, s[2].text] by {
      assert head[..2][..1] == [head[0]];
      assert Captions([head[0]]) == [] by {
        assert [head[0]][..0] == [];
      }
    }
    assert Captions(mid) == [] by {
      LinesOnlyOrBlock(mid);
    }
    assert s[..n - 2] == head + mid;
    ReadsAppend(head, mid);
    assert s[..n - 1][..n - 2] == s[..n - 2];
    assert Captions(s[..n - 1]) == Captions(s[..n - 2]) + [s[n - 2].text];
  }

  /** A run of blocks and page breaks draws no single line. */
  lemma {:induction false} LinesOnlyOrBlock(s: seq<Instr>)
    requires forall j :: 0 <= j < |s| ==> s[j].Lines? || s[j].NewPage?
    ensures Captions(s) == []
  {
    if |s| > 0 {
      LinesOnlyOrBlock(s[..|s| - 1]);
    }
  }

  /** The outcome loop of `exportToPDF`, from the cursor at `y0`. */
  method DrawOutcomes(los: seq<string>, y0: real, H: real, maxWidth: real, lines: (string, real) -> nat)
    returns (out: seq<Instr>, y: real)
    ensures Pass(out, y) == SloPass(SloTexts(los), |los|, y0, H, maxWidth, lines)
  {
    ghost var texts := SloTexts(los);
    out, y := [], y0;
    var i := 0;
    while i < |los|
      invariant 0 <= i <= |los|
      invariant Pass(out, y) == SloPass(texts, i, y0, H, maxWidth, lines)
    {
      var sloText := SloText(i, los[i]);
      SloTextsAt(los, i);
      var sloLines := lines(sloText, maxWidth);
      if y + sloLines as real * LineHeight > H - 20.0 {
        out := out + [NewPage];
        y := TopMargin;
      }
      out := out + [Lines(SloIndent, y, sloText, sloLines)];
      y := y + sloLines as real * LineHeight + SloGap;
      i := i + 1;
    }
  }

  /** The module loop of `exportToPDF`, from the cursor at `y0`, given each module's heading and row. */
  method DrawModules(headings: seq<string>, rows: seq<seq<string>>, y0: real, tableEnd: (real, seq<string>) -> real)
    returns (out: seq<Instr>, y: real)
    requires |headings| == |rows|
    ensures Pass(out, y) == ModulePass(headings, rows, |rows|, y0, tableEnd)
  {
    out, y := [], y0;
    var mi := 0;
    while mi < |rows|
      invariant 0 <= mi <= |rows|
      invariant Pass(out, y) == ModulePass(headings, rows, mi, y0, tableEnd)
    {
      if y > ModuleBreakY {
        out := out + [NewPage];
        y := TopMargin;
      }
      out := out + [Text(Margin, y, headings[mi])];
      y := y + 10.0;
      out := out + [Table(y, rows[mi])];
      y := tableEnd(y, rows[mi]) + 15.0;
      mi := mi + 1;
    }
  }

  /** The opening of `exportToPDF`: title, course line, description and the outcome list's heading. */
  method DrawPreamble(c: Course, H: real, lines: (string, real) -> nat) returns (out: seq<Instr>, y: real)
    ensures Pass(out, y) == Preamble(c, H, lines(c.description, DescriptionWidth))
  {
    out := [Centered(15.0, Title),
            Text(Margin, 25.0, "Course: " + c.courseNumber + " - " + c.courseName),
            Text(Margin, 35.0, DescriptionHeading)];
    var descriptionLines := lines(c.description, DescriptionWidth);
    out := out + [Lines(Margin, 40.0, c.description, descriptionLines)];
    y := 40.0 + descriptionLines as real * LineHeight;
    if y > H - 40.0 {
      out := out + [NewPage];
      y := TopMargin;
    }
    out := out + [Text(Margin, y, OutcomesHeading)];
    y := y + 10.0;
    out := out + [Text(Margin, y, OutcomesIntro)];
    y := y + 5.0;
  }

  /** `exportToPDF`: the opening, the outcome loop 5 below it, the module loop 10 below that, then the save. */
  method ExportToPdf(c: Course, W: real, H: real, lines: (string, real) -> nat, tableEnd: (real, seq<string>) -> real)
    returns (doc: seq<Instr>)
    ensures doc == Export(c, W, H, lines, tableEnd)
  {
    var opening, y := DrawPreamble(c, H, lines);
    ghost var texts := SloTexts(c.learningOutcomes);
    var outcomes, y1 := DrawOutcomes(c.learningOutcomes, y, H, W - 2.0 * Margin, lines);
    var headings, rows := Headings(c.modules), Rows(c.modules);
    var modules, y2 := DrawModules(headings, rows, y1 + 10.0, tableEnd);
    doc := Document(Pass(opening, y), Pass(outcomes, y1), Pass(modules, y2));
    assert doc == Compose(Pass(opening, y), texts, headings, rows, H, W - 2.0 * Margin, lines, tableEnd);
    assert Export(c, W, H, lines, tableEnd) == Compose(Pass(opening, y), texts, headings, rows, H, W - 2.0 * Margin, lines, tableEnd);
  }
}
