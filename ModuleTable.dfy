/**
 * The five cells of a module's row in the exported course map: Objectives,
 * Mapped SLOs, Resources, Activities and Assessments. Every list is rendered
 * in stored order; references are rendered whether or not they still name
 * an existing position.
 */
module ModuleTable {
  import opened Wrappers
  import opened Strings
  import opened Labels
  import opened CourseModel

  const TableHead: seq<string> := ["Objectives", "Mapped SLOs", "Resources", "Activities", "Assessments"]

  /** "{label} {text}" for each objective, in order. */
  function ObjectiveLines(mi: int, objectives: seq<string>): (lines: seq<string>)
    ensures |lines| == |objectives|
  {
    seq(|objectives|, j requires 0 <= j < |objectives| => ObjectiveLabel(mi, j) + " " + objectives[j])
  }

  function ObjectivesCell(mi: int, objectives: seq<string>): string
  {
    Join("\n", ObjectiveLines(mi, objectives))
  }

  /** What `${SLOLetter[x]}` shows for each reference, in stored order. */
  function SloEntries(refs: seq<int>): (entries: seq<string>)
    ensures |entries| == |refs|
  {
    seq(|refs|, k requires 0 <= k < |refs| => Shown(SloLetter(refs[k])))
  }

  function SlosCell(refs: seq<int>): string
  {
    Join(", ", SloEntries(refs))
  }

  /** The labels of an item's objective references, in stored order. */
  function RefLabels(mi: int, refs: seq<int>): (labels: seq<string>)
    ensures |labels| == |refs|
  {
    seq(|refs|, k requires 0 <= k < |refs| => ObjectiveLabel(mi, refs[k]))
  }

  function ItemLine(mi: int, it: Item): string
  {
    it.content + " (Obj: " + Join(", ", RefLabels(mi, it.relatedObjectives)) + ")"
  }

  function ItemLines(mi: int, items: seq<Item>): (lines: seq<string>)
    ensures |lines| == |items|
  {
    seq(|items|, k requires 0 <= k < |items| => ItemLine(mi, items[k]))
  }

  function ItemsCell(mi: int, items: seq<Item>): string
  {
    Join("\n", ItemLines(mi, items))
  }

  /** The body row handed to the table service for module `mi`. */
  function TableRow(mi: int, m: Module): (row: seq<string>)
    ensures |row| == |TableHead|
  {
    [ObjectivesCell(mi, m.objectives), SlosCell(m.relatedSlos),
     ItemsCell(mi, m.resources), ItemsCell(mi, m.activities), ItemsCell(mi, m.assessments)]
  }

  predicate NoLineBreak(s: string)
  {
    '\n' !in s
  }

  /**
   * The Objectives cell holds one line per objective, in order: line `j` is the
   * label of position `j` in module `mi`, a blank, and the objective's text.
   */
  lemma ObjectivesCellLines(mi: int, objectives: seq<string>)
    requires |objectives| >= 1
    requires forall j :: 0 <= j < |objectives| ==> NoLineBreak(objectives[j])
    ensures var lines := Split(ObjectivesCell(mi, objectives), '\n');
      && |lines| == |objectives|
      && forall j :: 0 <= j < |objectives| ==> lines[j] == ObjectiveLabel(mi, j) + " " + objectives[j]
  {
    var lines := ObjectiveLines(mi, objectives);
    forall j | 0 <= j < |lines| ensures '\n' !in lines[j] {
      LabelCharacters(mi, j);
    }
    SplitJoin(lines, '\n');
  }

  /**
   * The Mapped SLOs cell has one comma-separated entry per stored reference,
   * in stored order, duplicates kept: the outcome's letter when the position
   * is below 13, the text "undefined" otherwise.
   */
  lemma SlosCellEntries(refs: seq<int>)
    requires |refs| >= 1
    ensures var e := Split(SlosCell(refs), ',');
      && |e| == |refs|
      && forall k :: 0 <= k < |refs| ==>
        e[k] == (if k == 0 then "" else " ") + (if 0 <= refs[k] < 13 then [('A' as int + refs[k]) as char] else "undefined")
  {
    var entries := SloEntries(refs);
    forall k | 0 <= k < |entries| ensures ',' !in entries[k] {
      assert entries[k] == Shown(SloLetter(refs[k]));
    }
    SplitCommaJoin(entries);
  }

  /**
   * The list after "(Obj: " in an item line has one entry per stored
   * objective reference, in stored order, and each entry reads back as
   * exactly that reference in module `mi`, in range or not.
   */
  lemma RefLabelsEntries(mi: int, refs: seq<int>)
    requires |refs| >= 1
    ensures var e := Split(Join(", ", RefLabels(mi, refs)), ',');
      && |e| == |refs|
      && forall k :: 0 <= k < |refs| ==>
        && e[k] == (if k == 0 then "" else " ") + ObjectiveLabel(mi, refs[k])
        && ParseLabel(if k == 0 then e[k] else e[k][1..]) == Some((mi, refs[k]))
  {
    var labels := RefLabels(mi, refs);
    forall k | 0 <= k < |labels| ensures ',' !in labels[k] {
      LabelCharacters(mi, refs[k]);
    }
    SplitCommaJoin(labels);
    var e := Split(Join(", ", labels), ',');
    forall k | 0 <= k < |refs|
      ensures ParseLabel(if k == 0 then e[k] else e[k][1..]) == Some((mi, refs[k]))
    {
      LabelRoundTrip(mi, refs[k]);
      if k > 0 {
        assert e[k][1..] == labels[k];
      }
    }
  }

  /**
   * An item cell holds one line per item, in order: the item's content
   * followed by its objective labels.
   */
  lemma ItemsCellLines(mi: int, items: seq<Item>)
    requires |items| >= 1
    requires forall k :: 0 <= k < |items| ==> NoLineBreak(items[k].content)
    ensures var lines := Split(ItemsCell(mi, items), '\n');
      && |lines| == |items|
      && forall k :: 0 <= k < |items| ==>
        lines[k] == items[k].content + " (Obj: " + Join(", ", RefLabels(mi, items[k].relatedObjectives)) + ")"
  {
    var lines := ItemLines(mi, items);
    forall k | 0 <= k < |lines| ensures '\n' !in lines[k] {
      var refs := items[k].relatedObjectives;
      NoBreakInLabelList(mi, refs);
    }
    SplitJoin(lines, '\n');
  }

  lemma {:induction false} NoBreakInLabelList(mi: int, refs: seq<int>)
    ensures '\n' !in Join(", ", RefLabels(mi, refs))
  {
    if |refs| >= 1 {
      LabelCharacters(mi, refs[0]);
    }
    if |refs| >= 2 {
      NoBreakInLabelList(mi, refs[1..]);
      assert RefLabels(mi, refs)[1..] == RefLabels(mi, refs[1..]);
    }
  }

  /** What the Objectives column shows: nothing for no objectives, else one "label text" line per objective. */
  predicate ShowsObjectives(cell: string, mi: int, objectives: seq<string>)
  {
    if |objectives| == 0 then cell == ""
    else
      var lines := Split(cell, '\n');
      && |lines| == |objectives|
      && forall j :: 0 <= j < |objectives| ==> lines[j] == ObjectiveLabel(mi, j) + " " + objectives[j]
  }

  /** What the Mapped SLOs column shows: nothing for no references, else one entry per stored reference. */
  predicate ShowsSlos(cell: string, refs: seq<int>)
  {
    if |refs| == 0 then cell == ""
    else
      var e := Split(cell, ',');
      && |e| == |refs|
      && forall k :: 0 <= k < |refs| ==> e[k] == (if k == 0 then "" else " ") + Shown(SloLetter(refs[k]))
  }

  /** What an item column shows: nothing for no items, else one "content (Obj: labels)" line per item. */
  predicate ShowsItems(cell: string, mi: int, items: seq<Item>)
  {
    if |items| == 0 then cell == ""
    else
      var lines := Split(cell, '\n');
      && |lines| == |items|
      && forall k :: 0 <= k < |items| ==>
        lines[k] == items[k].content + " (Obj: " + Join(", ", RefLabels(mi, items[k].relatedObjectives)) + ")"
  }

  /**
   * Each cell of a module's row sits under its heading: the objectives under
   * "Objectives", the outcome letters under "Mapped SLOs", then the resources,
   * activities and assessments, each column empty when its list is.
   */
  lemma TableRowColumns(mi: int, m: Module)
    requires forall j :: 0 <= j < |m.objectives| ==> NoLineBreak(m.objectives[j])
    requires forall f, k :: 0 <= k < |Items(m, f)| ==> NoLineBreak(Items(m, f)[k].content)
    ensures var row := TableRow(mi, m);
      && TableHead[0] == "Objectives" && ShowsObjectives(row[0], mi, m.objectives)
      && TableHead[1] == "Mapped SLOs" && ShowsSlos(row[1], m.relatedSlos)
      && TableHead[2] == "Resources" && ShowsItems(row[2], mi, m.resources)
      && TableHead[3] == "Activities" && ShowsItems(row[3], mi, m.activities)
      && TableHead[4] == "Assessments" && ShowsItems(row[4], mi, m.assessments)
  {
    var row := TableRow(mi, m);
    assert row == [ObjectivesCell(mi, m.objectives), SlosCell(m.relatedSlos),
                   ItemsCell(mi, m.resources), ItemsCell(mi, m.activities), ItemsCell(mi, m.assessments)];
    ObjectivesColumn(mi, m.objectives);
    SlosColumn(m.relatedSlos);
    ItemColumn(mi, m, Resources);
    ItemColumn(mi, m, Activities);
    ItemColumn(mi, m, Assessments);
  }

  lemma ObjectivesColumn(mi: int, objectives: seq<string>)
    requires forall j :: 0 <= j < |objectives| ==> NoLineBreak(objectives[j])
    ensures ShowsObjectives(ObjectivesCell(mi, objectives), mi, objectives)
  {
    if |objectives| >= 1 {
      ObjectivesCellLines(mi, objectives);
    }
  }

  lemma SlosColumn(refs: seq<int>)
    ensures ShowsSlos(SlosCell(refs), refs)
  {
    if |refs| >= 1 {
      SlosCellEntries(refs);
      var e := Split(SlosCell(refs), ',');
      forall k | 0 <= k < |refs|
        ensures e[k] == (if k == 0 then "" else " ") + Shown(SloLetter(refs[k]))
      {
      }
    }
  }

  lemma ItemColumn(mi: int, m: Module, f: ItemField)
    requires forall k :: 0 <= k < |Items(m, f)| ==> NoLineBreak(Items(m, f)[k].content)
    ensures ShowsItems(ItemsCell(mi, Items(m, f)), mi, Items(m, f))
  {
    if |Items(m, f)| >= 1 {
      ItemsCellLines(mi, Items(m, f));
    }
  }

  /** A module fresh from `addModule` renders as a row of five empty cells. */
  lemma NewModuleRow(mi: int)
    ensures TableRow(mi, NewModule()) == ["", "", "", "", ""]
  {
  }

  /** A course with outcomes "Explain X" and "Apply Y" and one module "Intro" mapping to the first. */
  function IntroModule(): Module
  {
    Module("Intro", [0], ["Define X"], [Item("Textbook ch.1", [0])], [], [])
  }

  lemma IntroModuleRow()
    ensures TableRow(0, IntroModule()) == ["1.1 Define X", "A", "Textbook ch.1 (Obj: 1.1)", "", ""]
  {
    assert ObjectiveLabel(0, 0) == "1.1";
    assert ObjectiveLines(0, ["Define X"])[0] == "1.1" + " " + "Define X";
    assert "1.1" + " " + "Define X" == "1.1 Define X";
    assert ObjectiveLines(0, ["Define X"]) == ["1.1 Define X"];
    assert SloEntries([0]) == ["A"];
    assert RefLabels(0, [0]) == ["1.1"];
    assert ItemLine(0, Item("Textbook ch.1", [0])) == "Textbook ch.1" + " (Obj: " + "1.1" + ")";
    assert "Textbook ch.1" + " (Obj: " + "1.1" + ")" == "Textbook ch.1 (Obj: 1.1)";
    assert ItemLines(0, [Item("Textbook ch.1", [0])]) == ["Textbook ch.1 (Obj: 1.1)"];
  }

  /** A reference past the letter table renders as "undefined" rather than being skipped. */
  lemma LetterOverflowShown()
    ensures SlosCell([0, 13, 2]) == "A, undefined, C"
  {
    assert SloEntries([0, 13, 2]) == ["A", "undefined", "C"];
  }
}
