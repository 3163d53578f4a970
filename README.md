# Course map builder — a Dafny model of the course form's core

The course form (`src/CourseForm.js`) edits one course and exports it as a
course map. A course has a number, a name, a description, an ordered list of
student learning outcomes (SLOs) and an ordered list of modules. A module has
a title, the positions of the outcomes it maps to, its objectives, and three
item lists: resources, activities and assessments. Each item has text and the
positions of the module's objectives it refers to.

This project models three things:

- **Edit operations.** `CourseModel` holds the course value and every edit the
  form performs. `CourseProperties` proves what the edits promise across calls:
  - which edit undoes which;
  - which edits keep every reference pointing at an existing position;
  - what a removal does to the references it leaves behind. References are
    positions and are never renumbered.
- **Labels and table cells.** `Labels` models the objective label
  `renderObjectiveNumber` and the thirteen-entry letter table `SLOLetter`.
  The label has a parser as its partner; the letter is stated in closed form
  and shown to differ for distinct positions. `ModuleTable` builds the five
  cells of a module's table row. `Strings` supplies `join` and a `Split` used
  to read a joined cell back.
- **PDF export.** `PdfLayout` models `exportToPDF` as methods with loops that
  emit drawing instructions while a vertical cursor moves down the page. They
  are proved equal to specification functions. Lemmas about those functions
  state the page-break rule at every step and that every outcome and every
  module row is drawn once, in order.

The PDF library is reached only through three parameters:

- `lines(text, width)`: how many lines the library's word wrap gives a text;
- `tableEnd(startY, row)`: where the table service ends a row;
- the page size `W` and `H`.

Page sizes and cursor positions are real numbers: the table service's end
position and the page height are not whole numbers in general.

The model follows the code as written:

- **No reference repair.** Removing an outcome or an objective does not
  renumber or drop references to later positions. `RemoveSloLeavesReferences`,
  `RemoveObjectiveLeavesReferences` and `RemoveSloCanDangle` state this hazard.
- **Stored order.** The Mapped SLOs cell and the "(Obj: …)" lists follow the
  order the references are stored in. They are not sorted ascending, and
  duplicates are kept.
- **Out-of-range references are shown, not skipped.**
  - An outcome position of 13 or more shows the text `undefined`.
  - An objective reference shows its label whether or not the objective
    exists.
- **Fixed module break.** A module starts a new page when the cursor is past
  180, whatever the page height.

## Model

| member | source | states |
|---|---|---|
| CourseModel.EmptyCourse | src/CourseForm.js:7-13 | The initial course has empty scalar fields and no outcomes or modules. |
| CourseModel.NewModule | src/CourseForm.js:33-40 | The module `addModule` appends has an empty title and every list empty. |
| CourseModel.AddSlo | src/CourseForm.js:17-22 | One more outcome, `""` at the end; earlier outcomes, modules and scalar fields unchanged. |
| CourseModel.UpdateSlo | src/CourseForm.js:24-28 | Position `i` becomes `v` (appended when `i` is the length); every other outcome, the modules and the scalar fields unchanged. |
| CourseModel.RemoveAt | src/CourseForm.js:93 | Filtering out position `i`: in range, the length drops by one, elements before `i` stay put and later ones shift down by one; out of range, nothing changes. |
| CourseModel.RemoveAtMultiset | src/CourseForm.js:93 | The removed element is the only one lost: the result plus that element is the original multiset. |
| CourseModel.RemoveSlo | src/CourseForm.js:90-95 | The outcomes lose exactly position `i`; the modules, and with them every outcome reference, are untouched. |
| CourseModel.AddModule | src/CourseForm.js:30-42 | An empty module is appended; the other modules, the outcomes and the scalar fields are unchanged. |
| CourseModel.RemoveModule | src/CourseForm.js:97-102 | The modules lose exactly position `i`, order kept; the rest of the course is unchanged. |
| CourseModel.SetCourseField | src/CourseForm.js:44-49 | The named field takes the new value; the other two fields, the outcomes and the modules are unchanged. |
| CourseModel.Items | src/CourseForm.js:65 | Reads the item list a field name selects. No contract; `WithItems` states how it relates to the write. |
| CourseModel.WithItems | src/CourseForm.js:62-68 | A computed-key spread on an item list replaces that list only; the other lists and the module's own fields are kept. |
| CourseModel.ApplyEdit | src/CourseForm.js:53-56 | The computed-key spread of one module field. No contract; `HandleModuleChange` states its effect. |
| CourseModel.HandleModuleChange | src/CourseForm.js:51-58 | Only the edited field of module `mi` changes; its item lists, the other modules and the course fields are kept. |
| CourseModel.AddObjective | src/CourseForm.js:331 | Module `mi` gets an empty objective after its others. Its title, outcome references and item lists, the other modules, the outcomes and the course fields are unchanged. |
| CourseModel.UpdateObjective | src/CourseForm.js:320-324 | Objective `j` of module `mi` becomes `v`. Its other objectives, title, outcome references and item lists, the other modules, the outcomes and the course fields are unchanged. |
| CourseModel.AddModuleItem | src/CourseForm.js:60-70 | Fails exactly when the module does not exist. Otherwise an empty item with no references is appended to list `f` of module `mi`, and everything else is kept. |
| CourseModel.UpdateModuleItem | src/CourseForm.js:72-84 | Fails exactly when the module does not exist. Otherwise item `k` gets the content. Its references become the given ones (an empty list counts as given), else the item's old ones, else none for a new item. Other items, lists, modules and fields are kept. |
| CourseModel.RemoveModuleItem | src/CourseForm.js:104-111 | Fails exactly when the module does not exist. Otherwise entry `k` is filtered out of the chosen list (objectives or an item list) of module `mi`, and everything else is kept. |
| CourseProperties.AddSloThenRemove | src/CourseForm.js:90-95 | `removeSLO` at the position `addSLO` filled gives back the original course. |
| CourseProperties.AddModuleThenRemove | src/CourseForm.js:97-102 | `removeModule` at the position `addModule` filled gives back the original course. |
| CourseProperties.AddModuleItemThenRemove | src/CourseForm.js:104-111 | `removeModuleItem` on the item `addModuleItem` appended gives back the original course. |
| CourseProperties.UpdateSloSameText | src/CourseForm.js:24-28 | Writing an outcome's own text back leaves the course unchanged. |
| CourseProperties.UpdateItemTextKeepsRefs | src/CourseForm.js:77 | Updating an item without references keeps the objectives it referred to. |
| CourseProperties.AppendsKeepRefsValid | src/CourseForm.js:17-70 | `addSLO`, `addModule`, adding an objective and `addModuleItem` keep every reference pointing at an existing position. |
| CourseProperties.RewritesKeepRefsValid | src/CourseForm.js:24-84 | `updateSLO`, a title change, and `updateModuleItem` with in-range references keep every reference valid. |
| CourseProperties.RemovalsKeepRefsValid | src/CourseForm.js:97-111 | `removeModule` and removing an item keep every reference valid. |
| CourseProperties.RemoveSloLeavesReferences | src/CourseForm.js:90-95 | After `removeSLO(i)` a module reference `x >= i` keeps its value. It now names the next outcome, or nothing when it named the last. |
| CourseProperties.RemoveSloValidIff | src/CourseForm.js:90-95 | A valid course stays valid after `removeSLO` if and only if no module refers to the last outcome position. |
| CourseProperties.UpdateObjectiveKeepsRefsValid | src/CourseForm.js:320-324 | Editing one objective's text through the objectives field keeps every reference valid. |
| CourseProperties.SetSlosKeepsRefsValid | src/CourseForm.js:305 | Setting a module's mapped outcomes through `handleModuleChange`, as the outcome select does, to outcomes that exist keeps every reference valid. |
| CourseProperties.RemoveObjectiveValidIff | src/CourseForm.js:104-111 | Removing objective `j` of module `mi` always succeeds. A valid course stays valid exactly when no item of that module refers to the last objective position. |
| CourseProperties.RemoveObjectiveLeavesReferences | src/CourseForm.js:104-111 | Removing objective `j` leaves every item reference `x >= j` unchanged. It now names the next objective, or nothing when it named the last. |
| CourseProperties.RemoveSloCanDangle | src/CourseForm.js:90-95 | A concrete valid course becomes invalid after removing its first outcome. |
| Labels.NatToString | src/CourseForm.js:87 | The decimal text of a natural number is non-empty and made of digits only. |
| Labels.IntToString | src/CourseForm.js:87 | The text of an integer is non-empty and made of digits and minus signs only. |
| Labels.DigitsOfNat | src/CourseForm.js:87 | The digits of `n` read back as `n`. |
| Labels.IntToStringRoundTrip | src/CourseForm.js:87 | The text of any integer parses back to that integer. |
| Labels.ObjectiveLabel | src/CourseForm.js:86-88 | `renderObjectiveNumber`. No contract; `LabelRoundTrip`, `LabelInjective` and `LabelCharacters` state its properties. |
| Labels.LabelRoundTrip | src/CourseForm.js:86-88 | For every pair of indices, with no upper bound, the label `"{m+1}.{o+1}"` parses back to exactly `(m, o)`. |
| Labels.LabelInjective | src/CourseForm.js:86-88 | Two positions with the same label are the same position. |
| Labels.LabelCharacters | src/CourseForm.js:86-88 | A label holds only digits, minus signs and dots, so never a comma or a line break. |
| Labels.ObjectiveLabelExample | src/CourseForm.js:86-88 | Module 3's first objective is labelled "3.1"; module 1's tenth is "1.10". |
| Labels.SloLetter | src/CourseForm.js:157 | A letter exists exactly for positions 0 to 12, and it is the letter that many places after `A`. |
| Labels.SloLetterInjective | src/CourseForm.js:157 | Distinct positions have distinct letters. |
| Strings.Join | src/CourseForm.js:215 | `Array.prototype.join`. No contract; `SplitJoin` and `SplitCommaJoin` state that splitting undoes it. |
| Strings.SplitWithout | src/CourseForm.js:215 | A string without the separator splits into itself alone. |
| Strings.SplitAfter | src/CourseForm.js:215 | The first separator ends the first piece. |
| Strings.SplitJoin | src/CourseForm.js:215 | Splitting a `join` at its separator gives back the parts when no part holds the separator. |
| Strings.PrefixJoin | src/CourseForm.js:218 | Text glued before a join lands on its first part. |
| Strings.JoinCommaSpace | src/CourseForm.js:205 | A `", "`-join is a `","`-join of the parts, each after the first with a leading blank. |
| Strings.SplitCommaJoin | src/CourseForm.js:205 | Splitting a `", "`-join at its commas gives the parts back, each after the first with its leading blank. |
| ModuleTable.ObjectiveLines | src/CourseForm.js:213-215 | One line per objective. `ObjectivesCellLines` states each line. |
| ModuleTable.ObjectivesCell | src/CourseForm.js:213-215 | The Objectives cell. No contract; `ObjectivesCellLines` and `ObjectivesColumn` state its contents. |
| ModuleTable.SloEntries | src/CourseForm.js:203-204 | One entry per stored outcome reference. `SlosCellEntries` states each entry. |
| ModuleTable.SlosCell | src/CourseForm.js:203-205 | The Mapped SLOs cell. No contract; `SlosCellEntries` and `SlosColumn` state its contents. |
| ModuleTable.RefLabels | src/CourseForm.js:218 | One label per stored objective reference. `RefLabelsEntries` states each label. |
| ModuleTable.ItemLine | src/CourseForm.js:217-219 | One item's line. No contract; `ItemsCellLines` states it. |
| ModuleTable.ItemLines | src/CourseForm.js:217-219 | One line per item. `ItemsCellLines` states each line. |
| ModuleTable.ItemsCell | src/CourseForm.js:217-225 | An item cell. No contract; `ItemsCellLines` and `ItemColumn` state its contents. |
| ModuleTable.TableRow | src/CourseForm.js:208-227 | A module's body row has exactly one cell per table heading. |
| ModuleTable.ObjectivesCellLines | src/CourseForm.js:213-215 | The Objectives cell has one line per objective, in order. Line `j` is the label of position `j`, a blank, then the objective. |
| ModuleTable.SlosCellEntries | src/CourseForm.js:203-205 | The Mapped SLOs cell has one comma-separated entry per stored reference, in stored order, duplicates kept. Each entry is the letter for a position below 13 and "undefined" otherwise. |
| ModuleTable.RefLabelsEntries | src/CourseForm.js:218 | An item's "(Obj: …)" list has one entry per stored reference, in stored order. Each entry parses back to exactly that reference, in range or not. |
| ModuleTable.ItemsCellLines | src/CourseForm.js:217-225 | An item cell has one line per item, in order: the item's content, then " (Obj: ", its labels and ")". |
| ModuleTable.ObjectivesColumn | src/CourseForm.js:213-215 | The Objectives cell is empty for no objectives, else one "label text" line per objective, in order. |
| ModuleTable.SlosColumn | src/CourseForm.js:203-205 | The Mapped SLOs cell is empty for no references, else one entry per stored reference, in stored order: the letter or "undefined". |
| ModuleTable.ItemColumn | src/CourseForm.js:217-225 | An item cell is empty for no items, else one "content (Obj: labels)" line per item, in order. |
| ModuleTable.TableRowColumns | src/CourseForm.js:210-226 | Each cell sits under its heading: objectives under "Objectives", letters under "Mapped SLOs", then resources, activities and assessments. Each column is empty when its list is, and otherwise shows its list as the column lemmas state. |
| ModuleTable.NoBreakInLabelList | src/CourseForm.js:218 | A list of objective labels never holds a line break. |
| ModuleTable.NewModuleRow | src/CourseForm.js:208-227 | A module fresh from `addModule` renders as five empty cells. |
| ModuleTable.IntroModuleRow | src/CourseForm.js:208-227 | A concrete module renders as `["1.1 Define X", "A", "Textbook ch.1 (Obj: 1.1)", "", ""]`. |
| ModuleTable.LetterOverflowShown | src/CourseForm.js:203-205 | A reference past the letter table renders as "undefined" between its neighbours' letters. |
| PdfLayout.Snoc | src/CourseForm.js:141-242 | Appending one instruction adds its text or row to the matching reading and to no other. |
| PdfLayout.ReadsAppend | src/CourseForm.js:141-242 | The blocks, tables and captions of a concatenation are those of its parts, in order. |
| PdfLayout.Preamble | src/CourseForm.js:141-170 | It opens with the title centred at 15, the line "Course: <number> - <name>" at 25 and "Description:" at 35. The description is the one wrapped block, at 40. A page break comes right after it exactly when `40 + 5·lines > H - 40`. The outcome heading sits at the cursor, which is 20 after a break. The last line is the intro, 10 below the heading, and the cursor ends 15 below the heading. |
| PdfLayout.DrawPreamble | src/CourseForm.js:141-170 | The opening statements produce exactly `Preamble`'s instructions and cursor. |
| PdfLayout.PreambleDraws | src/CourseForm.js:141-170 | The opening draws the description as its only block and no table. |
| PdfLayout.PreambleCaptions | src/CourseForm.js:146-168 | The opening's single lines are, in order, the course line, "Description:", the outcome heading and the intro. |
| PdfLayout.LinesOnlyOrBlock | src/CourseForm.js:141-170 | Wrapped blocks and page breaks contribute no single-line caption. |
| PdfLayout.OneBlock | src/CourseForm.js:141-170 | A run whose only wrapped block is at one position, the rest being lines and page breaks, draws that block alone and hands the table service nothing. |
| PdfLayout.FramedCaptions | src/CourseForm.js:146-168 | A run that opens with a centred line and two single lines and closes with two single lines, with only blocks and page breaks between, has exactly those four lines as its captions. |
| PdfLayout.SloText | src/CourseForm.js:177 | `${SLOLetter[index]}. ${slo}`. No contract; `SloTextsAt` places it. |
| PdfLayout.SloStep | src/CourseForm.js:178-187 | One outcome's page check, block and cursor advance. No contract; `SloStepPaged`, `SloStepDraws` and `SloStepCounts` state it. |
| PdfLayout.SloPass | src/CourseForm.js:176-188 | The outcome loop as a function. No contract; `SloPassPaged`, `SloPassDrawsOutcomes` and `SloPassCounts` state it. |
| PdfLayout.SloTexts | src/CourseForm.js:176-177 | One outcome text per outcome. |
| PdfLayout.SloTextsAt | src/CourseForm.js:177 | Text `i` is the letter for `i` (or "undefined"), ". ", then outcome `i`. |
| PdfLayout.SloStepPaged | src/CourseForm.js:180-187 | One outcome keeps the page-break rule. A break comes only before a block that would pass `H - 20`; the block is drawn at the cursor; the cursor moves down `5n + 2`. |
| PdfLayout.SloPassPaged | src/CourseForm.js:176-188 | After any number of outcomes the page-break rule holds at every emitted instruction, and the replayed cursor equals the loop's cursor. |
| PdfLayout.SloStepDraws | src/CourseForm.js:186 | One outcome adds exactly its text as a block and nothing else. |
| PdfLayout.SloPassDrawsOutcomes | src/CourseForm.js:176-188 | The outcome loop draws the first `k` outcome texts, each once and in order, and no caption or table. |
| PdfLayout.SloStepCounts | src/CourseForm.js:178-186 | One outcome adds one block of exactly `n` lines. |
| PdfLayout.SloPassCounts | src/CourseForm.js:176-188 | Outcome block `j` is as many lines long as the word wrap makes outcome text `j`. |
| PdfLayout.DrawOutcomes | src/CourseForm.js:176-188 | The outcome loop emits exactly the outcome pass over all outcomes and ends at its cursor. |
| PdfLayout.ModuleHeading | src/CourseForm.js:199 | `Module ${moduleIndex + 1}: ${module.title}`. No contract; `HeadingsAt` places it. |
| PdfLayout.ModuleStep | src/CourseForm.js:193-238 | One module's page check, heading, table and cursor. No contract; `ModuleStepPaged` and `ModuleStepDraws` state it. |
| PdfLayout.ModulePass | src/CourseForm.js:192-239 | The module loop as a function. No contract; `ModulePassPaged` and `ModulePassDrawsModules` state it. |
| PdfLayout.Headings | src/CourseForm.js:199 | One heading per module. |
| PdfLayout.HeadingsAt | src/CourseForm.js:199 | Heading `mi` is "Module {mi+1}: " followed by module `mi`'s title. |
| PdfLayout.Rows | src/CourseForm.js:208-227 | One table row per module. |
| PdfLayout.RowsAt | src/CourseForm.js:208-227 | Row `mi` is module `mi`'s table row. |
| PdfLayout.ModuleStepPaged | src/CourseForm.js:193-238 | One module keeps the page-break rule. A break comes only when the cursor is past 180. The heading is at the cursor and the table 10 below it; the cursor ends 15 below the table's end. |
| PdfLayout.ModulePassPaged | src/CourseForm.js:192-239 | After any number of modules the rule holds at every emitted instruction, and the replayed cursor is the loop's final `yPos`. |
| PdfLayout.ModuleStepDraws | src/CourseForm.js:199-236 | One module adds exactly its heading as a caption and its row as a table. |
| PdfLayout.ModulePassDrawsModules | src/CourseForm.js:192-239 | The module loop hands the table service the first `k` rows and draws the first `k` headings, each once and in order, and no block. |
| PdfLayout.DrawModules | src/CourseForm.js:192-239 | The module loop emits exactly the module pass over all modules and ends at its cursor. |
| PdfLayout.Document | src/CourseForm.js:141-242 | The opening, the outcome list, the module section and the save, in order. No contract; `DocumentReads` states its readings. |
| PdfLayout.Compose | src/CourseForm.js:172-242 | The outcome loop from the opening's cursor, then the module loop 10 below its end. No contract; `ComposeDraws` and `ComposePaged` state it. |
| PdfLayout.Export | src/CourseForm.js:141-242 | `exportToPDF` as a function of the course and the page. No contract; `ExportContents` states it and `ComposePaged` applies to it. |
| PdfLayout.DocumentReads | src/CourseForm.js:141-242 | The document's readings are those of its three parts in order, and its last instruction saves `course_map.pdf`. |
| PdfLayout.ComposeDraws | src/CourseForm.js:141-242 | After its opening the document draws every outcome text, hands over every row and draws every heading, each once and in order, and ends by saving. |
| PdfLayout.ComposePaged | src/CourseForm.js:172-242 | The composed document is the opening, the outcome pass, the module pass and the save. Both passes keep their page-break rule at every instruction, and each ends at the cursor its rule replays. |
| PdfLayout.LinesOnly | src/CourseForm.js:141-170 | Title lines, single lines and page breaks draw no block and no table. |
| PdfLayout.ExportContents | src/CourseForm.js:141-242 | The export's blocks are the description and then every outcome text in order. Its tables are every module's row in order. Its captions are the course line with the course's number and name, "Description:", the outcome heading, the intro, and then every module heading once each in order. It ends by saving. |
| PdfLayout.ExportToPdf | src/CourseForm.js:141-242 | The whole `exportToPDF` emits exactly `Export`'s instructions. `ExportContents` states what they draw. `Export` is `Compose` applied to the opening, so `ComposePaged` gives the paging of its two loops. |

## Left out

- The JSX rendering tree and its event wiring (src/CourseForm.js:244-389) are markup. The form's two objective edits (lines 320-324 and 331) are modelled as `AddObjective` and `UpdateObjective`.
- JSON export and import (src/CourseForm.js:113-139) are browser download and file-reading I/O around the JSON library. Because import is left out, every course has all its fields, so the `|| []` defaults for missing lists never apply.
- The PDF library itself is not modelled:
  - font sizes, table styles and column widths;
  - the table head, which every `Table` instruction implies;
  - the centring x position `W / 2`, reduced to a `Centered` instruction;
  - the table service's own page splitting.
- `splitTextToSize` is the `lines` parameter, a line count. `lastAutoTable.finalY` is the `tableEnd` parameter, a real number. Nothing is assumed about either beyond being a function of its inputs.
- Floating-point rounding of the cursor arithmetic is not modelled. Positions are exact real numbers.
- String-to-number coercion is not modelled. Select options deliver positions as strings, and item labels pass them through `parseInt`. Every position is an `int` here.
- `React` state scheduling is not modelled. The edits that read `course` directly rather than `prevState` could act on a stale course if two ran in one render; each edit here is applied to the current course.
- `src/ModuleForm.js` and `src/App.js` are not part of this model (UI composition).
- PdfLayout.ExportToPdf: each module's heading and row are computed before the module loop runs, not inside it. The row and heading functions are pure, so the emitted instructions are the same.
- UpdateSlo: requires `i <= length`. Past that, JavaScript leaves holes in the array, which a sequence cannot hold.
- HandleModuleChange: requires an existing module. For a missing one, JavaScript creates a module with only the edited field.
- UpdateModuleItem: requires `k <= length` of the list. Past that, JavaScript leaves holes; for a missing module it throws, which is modelled as `Err`.
