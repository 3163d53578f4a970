/**
 * The course value edited by the course form and its edit operations. Every
 * operation builds a new course from copies of the old one; nothing is shared
 * or updated in place. References between parts of a course are positions:
 * a module's `relatedSlos` index the course's outcomes, an item's
 * `relatedObjectives` index its own module's objectives. Removing an outcome
 * or an objective does not renumber or drop those positions.
 */
module CourseModel {
  import opened Wrappers

  datatype Item = Item(content: string, relatedObjectives: seq<int>)

  datatype Module = Module(
    title: string,
    relatedSlos: seq<int>,
    objectives: seq<string>,
    resources: seq<Item>,
    activities: seq<Item>,
    assessments: seq<Item>)

  datatype Course = Course(
    courseNumber: string,
    courseName: string,
    description: string,
    learningOutcomes: seq<string>,
    modules: seq<Module>)

  /** The three item lists of a module, selected by name in the form. */
  datatype ItemField = Resources | Activities | Assessments

  /** The lists `removeModuleItem` can shorten: the objectives or an item list. */
  datatype ListField = ObjectiveList | ItemList(field: ItemField)

  /** The scalar course fields bound to the form's text inputs. */
  datatype CourseField = CourseNumber | CourseName | Description

  /** The single-field module updates `handleModuleChange` receives from the form. */
  datatype ModuleEdit =
    | SetTitle(title: string)
    | SetRelatedSlos(slos: seq<int>)
    | SetObjectives(objectives: seq<string>)

  /** Reading a field of a module that does not exist throws a TypeError; the course is then left as it was. */
  datatype EditError = NoSuchModule(moduleIndex: int)

  datatype Result<T> = Ok(value: T) | Err(error: EditError)

  function Items(m: Module, f: ItemField): seq<Item>
  {
    match f
    case Resources => m.resources
    case Activities => m.activities
    case Assessments => m.assessments
  }

  /** `{ ...m, [f]: items }` for an item list. */
  function WithItems(m: Module, f: ItemField, items: seq<Item>): (r: Module)
    ensures Items(r, f) == items
    ensures forall g :: g != f ==> Items(r, g) == Items(m, g)
    ensures r.title == m.title && r.relatedSlos == m.relatedSlos && r.objectives == m.objectives
  {
    match f
    case Resources => m.(resources := items)
    case Activities => m.(activities := items)
    case Assessments => m.(assessments := items)
  }

  /** `s.filter((_, j) => j !== i)`: keeps every element whose position is not `i`. */
  function RemoveAt<T>(s: seq<T>, i: int): (r: seq<T>)
    ensures 0 <= i < |s| ==> |r| == |s| - 1
    ensures 0 <= i < |s| ==> forall j :: 0 <= j < i ==> r[j] == s[j]
    ensures 0 <= i < |s| ==> forall j :: i <= j < |r| ==> r[j] == s[j + 1]
    ensures !(0 <= i < |s|) ==> r == s
  {
    if |s| == 0 then []
    else (if i == 0 then [] else [s[0]]) + RemoveAt(s[1..], i - 1)
  }

  /** The removed element is the only one lost. */
  lemma {:induction false} RemoveAtMultiset<T>(s: seq<T>, i: int)
    requires 0 <= i < |s|
    ensures multiset(RemoveAt(s, i)) + multiset{s[i]} == multiset(s)
  {
    assert RemoveAt(s, i) == s[..i] + s[i + 1..];
    assert s == s[..i] + [s[i]] + s[i + 1..];
  }

  /** The course the form starts from (src/CourseForm.js:7-13). */
  function EmptyCourse(): (c: Course)
    ensures c.courseNumber == "" && c.courseName == "" && c.description == ""
    ensures |c.learningOutcomes| == 0 && |c.modules| == 0
  {
    Course("", "", "", [], [])
  }

  /** The module `addModule` appends: an empty title and empty lists. */
  function NewModule(): (m: Module)
    ensures m.title == "" && |m.relatedSlos| == 0 && |m.objectives| == 0
    ensures forall f :: |Items(m, f)| == 0
  {
    Module("", [], [], [], [], [])
  }

  /** `handleCourseChange`: sets one scalar field. */
  function SetCourseField(c: Course, f: CourseField, v: string): (r: Course)
    ensures r.courseNumber == (if f == CourseNumber then v else c.courseNumber)
    ensures r.courseName == (if f == CourseName then v else c.courseName)
    ensures r.description == (if f == Description then v else c.description)
    ensures r.learningOutcomes == c.learningOutcomes && r.modules == c.modules
  {
    match f
    case CourseNumber => c.(courseNumber := v)
    case CourseName => c.(courseName := v)
    case Description => c.(description := v)
  }

  /** `addSLO`: one more outcome, empty, at the end. */
  function AddSlo(c: Course): (r: Course)
    ensures |r.learningOutcomes| == |c.learningOutcomes| + 1
    ensures r.learningOutcomes[|c.learningOutcomes|] == ""
    ensures forall j :: 0 <= j < |c.learningOutcomes| ==> r.learningOutcomes[j] == c.learningOutcomes[j]
    ensures r.modules == c.modules
    ensures r.courseNumber == c.courseNumber && r.courseName == c.courseName && r.description == c.description
  {
    c.(learningOutcomes := c.learningOutcomes + [""])
  }

  /**
   * `updateSLO`: writes `v` at position `i`. Writing just past the end appends,
   * as an array assignment does in JavaScript.
   */
  function UpdateSlo(c: Course, i: int, v: string): (r: Course)
    requires 0 <= i <= |c.learningOutcomes|
    ensures |r.learningOutcomes| == if i < |c.learningOutcomes| then |c.learningOutcomes| else |c.learningOutcomes| + 1
    ensures r.learningOutcomes[i] == v
    ensures forall j :: 0 <= j < |c.learningOutcomes| && j != i ==> r.learningOutcomes[j] == c.learningOutcomes[j]
    ensures r.modules == c.modules
    ensures r.courseNumber == c.courseNumber && r.courseName == c.courseName && r.description == c.description
  {
    var los := c.learningOutcomes;
    c.(learningOutcomes := if i < |los| then los[i := v] else los + [v])
  }

  /** `removeSLO`: drops outcome `i`; the modules, and so their outcome references, are left as they were. */
  function RemoveSlo(c: Course, i: int): (r: Course)
    ensures r.learningOutcomes == RemoveAt(c.learningOutcomes, i)
    ensures r.modules == c.modules
    ensures r.courseNumber == c.courseNumber && r.courseName == c.courseName && r.description == c.description
  {
    c.(learningOutcomes := RemoveAt(c.learningOutcomes, i))
  }

  /** `addModule`: an empty module at the end. */
  function AddModule(c: Course): (r: Course)
    ensures |r.modules| == |c.modules| + 1
    ensures r.modules[|c.modules|] == NewModule()
    ensures forall j :: 0 <= j < |c.modules| ==> r.modules[j] == c.modules[j]
    ensures r.learningOutcomes == c.learningOutcomes
    ensures r.courseNumber == c.courseNumber && r.courseName == c.courseName && r.description == c.description
  {
    c.(modules := c.modules + [NewModule()])
  }

  /** `removeModule`: drops module `i`, keeping the order of the others. */
  function RemoveModule(c: Course, i: int): (r: Course)
    ensures r.modules == RemoveAt(c.modules, i)
    ensures r.learningOutcomes == c.learningOutcomes
    ensures r.courseNumber == c.courseNumber && r.courseName == c.courseName && r.description == c.description
  {
    c.(modules := RemoveAt(c.modules, i))
  }

  function ApplyEdit(m: Module, e: ModuleEdit): Module
  {
    match e
    case SetTitle(t) => m.(title := t)
    case SetRelatedSlos(s) => m.(relatedSlos := s)
    case SetObjectives(o) => m.(objectives := o)
  }

  /** `handleModuleChange`: replaces one field of module `mi` and nothing else. */
  function HandleModuleChange(c: Course, mi: int, e: ModuleEdit): (r: Course)
    requires 0 <= mi < |c.modules|
    ensures |r.modules| == |c.modules|
    ensures forall j :: 0 <= j < |c.modules| && j != mi ==> r.modules[j] == c.modules[j]
    ensures var m, n := c.modules[mi], r.modules[mi];
      && n.title == (if e.SetTitle? then e.title else m.title)
      && n.relatedSlos == (if e.SetRelatedSlos? then e.slos else m.relatedSlos)
      && n.objectives == (if e.SetObjectives? then e.objectives else m.objectives)
      && forall f :: Items(n, f) == Items(m, f)
    ensures r.learningOutcomes == c.learningOutcomes
    ensures r.courseNumber == c.courseNumber && r.courseName == c.courseName && r.description == c.description
  {
    c.(modules := c.modules[mi := ApplyEdit(c.modules[mi], e)])
  }

  /** The form's "Add Objective" button: an empty objective after the others. */
  function AddObjective(c: Course, mi: int): (r: Course)
    requires 0 <= mi < |c.modules|
    ensures |r.modules| == |c.modules|
    ensures r.modules[mi].objectives == c.modules[mi].objectives + [""]
    ensures forall j :: 0 <= j < |c.modules| && j != mi ==> r.modules[j] == c.modules[j]
    ensures var m, n := c.modules[mi], r.modules[mi];
      n.title == m.title && n.relatedSlos == m.relatedSlos && forall f :: Items(n, f) == Items(m, f)
    ensures r.learningOutcomes == c.learningOutcomes
    ensures r.courseNumber == c.courseNumber && r.courseName == c.courseName && r.description == c.description
  {
    HandleModuleChange(c, mi, SetObjectives(c.modules[mi].objectives + [""]))
  }

  /** The form's objective text input: writes objective `j` of module `mi`. */
  function UpdateObjective(c: Course, mi: int, j: int, v: string): (r: Course)
    requires 0 <= mi < |c.modules| && 0 <= j < |c.modules[mi].objectives|
    ensures |r.modules| == |c.modules|
    ensures |r.modules[mi].objectives| == |c.modules[mi].objectives|
    ensures r.modules[mi].objectives[j] == v
    ensures forall k :: 0 <= k < |c.modules[mi].objectives| && k != j ==>
      r.modules[mi].objectives[k] == c.modules[mi].objectives[k]
    ensures forall k :: 0 <= k < |c.modules| && k != mi ==> r.modules[k] == c.modules[k]
    ensures var m, n := c.modules[mi], r.modules[mi];
      n.title == m.title && n.relatedSlos == m.relatedSlos && forall f :: Items(n, f) == Items(m, f)
    ensures r.learningOutcomes == c.learningOutcomes
    ensures r.courseNumber == c.courseNumber && r.courseName == c.courseName && r.description == c.description
  {
    HandleModuleChange(c, mi, SetObjectives(c.modules[mi].objectives[j := v]))
  }

  /** `addModuleItem`: an empty item, referring to no objective, after the others in list `f` of module `mi`. */
  function AddModuleItem(c: Course, mi: int, f: ItemField): (r: Result<Course>)
    ensures r.Err? <==> !(0 <= mi < |c.modules|)
    ensures r.Ok? ==> |r.value.modules| == |c.modules|
    ensures r.Ok? ==> var d, m, n := r.value, c.modules[mi], r.value.modules[mi];
      && Items(n, f) == Items(m, f) + [Item("", [])]
      && (forall g :: g != f ==> Items(n, g) == Items(m, g))
      && n.title == m.title && n.relatedSlos == m.relatedSlos && n.objectives == m.objectives
      && (forall j :: 0 <= j < |c.modules| && j != mi ==> d.modules[j] == c.modules[j])
      && d.learningOutcomes == c.learningOutcomes
      && d.courseNumber == c.courseNumber && d.courseName == c.courseName && d.description == c.description
  {
    if !(0 <= mi < |c.modules|) then Err(NoSuchModule(mi))
    else
      var m := c.modules[mi];
      Ok(c.(modules := c.modules[mi := WithItems(m, f, Items(m, f) + [Item("", [])])]))
  }

  /**
   * `updateModuleItem`: item `k` of list `f` in module `mi` gets `content`; its
   * objective references become `refs` when given (an empty list counts as
   * given), else stay what the item had, or none for a new item written just
   * past the end.
   */
  function UpdateModuleItem(c: Course, mi: int, f: ItemField, k: int, content: string, refs: Option<seq<int>>): (r: Result<Course>)
    requires 0 <= k
    requires 0 <= mi < |c.modules| ==> k <= |Items(c.modules[mi], f)|
    ensures r.Err? <==> !(0 <= mi < |c.modules|)
    ensures r.Ok? ==> |r.value.modules| == |c.modules|
    ensures r.Ok? ==> var d, m, n := r.value, c.modules[mi], r.value.modules[mi];
      var old_, new_ := Items(m, f), Items(n, f);
      && |new_| == (if k < |old_| then |old_| else |old_| + 1)
      && new_[k].content == content
      && new_[k].relatedObjectives == (if refs.Some? then refs.value else if k < |old_| then old_[k].relatedObjectives else [])
      && (forall j :: 0 <= j < |old_| && j != k ==> new_[j] == old_[j])
      && (forall g :: g != f ==> Items(n, g) == Items(m, g))
      && n.title == m.title && n.relatedSlos == m.relatedSlos && n.objectives == m.objectives
      && (forall j :: 0 <= j < |c.modules| && j != mi ==> d.modules[j] == c.modules[j])
      && d.learningOutcomes == c.learningOutcomes
      && d.courseNumber == c.courseNumber && d.courseName == c.courseName && d.description == c.description
  {
    if !(0 <= mi < |c.modules|) then Err(NoSuchModule(mi))
    else
      var m := c.modules[mi];
      var items := Items(m, f);
      var kept := if k < |items| then items[k].relatedObjectives else [];
      var item := Item(content, match refs case Some(x) => x case None => kept);
      var updated := if k < |items| then items[k := item] else items + [item];
      Ok(c.(modules := c.modules[mi := WithItems(m, f, updated)]))
  }

  /** `removeModuleItem`: drops entry `k` of list `lf` (objectives or an item list) of module `mi`. */
  function RemoveModuleItem(c: Course, mi: int, lf: ListField, k: int): (r: Result<Course>)
    ensures r.Err? <==> !(0 <= mi < |c.modules|)
    ensures r.Ok? ==> |r.value.modules| == |c.modules|
    ensures r.Ok? ==> var d, m, n := r.value, c.modules[mi], r.value.modules[mi];
      && n.title == m.title && n.relatedSlos == m.relatedSlos
      && n.objectives == (if lf.ObjectiveList? then RemoveAt(m.objectives, k) else m.objectives)
      && (forall g :: Items(n, g) == (if lf == ItemList(g) then RemoveAt(Items(m, g), k) else Items(m, g)))
      && (forall j :: 0 <= j < |c.modules| && j != mi ==> d.modules[j] == c.modules[j])
      && d.learningOutcomes == c.learningOutcomes
      && d.courseNumber == c.courseNumber && d.courseName == c.courseName && d.description == c.description
  {
    if !(0 <= mi < |c.modules|) then Err(NoSuchModule(mi))
    else
      var m := c.modules[mi];
      var n := match lf
        case ObjectiveList => m.(objectives := RemoveAt(m.objectives, k))
        case ItemList(f) => WithItems(m, f, RemoveAt(Items(m, f), k));
      Ok(c.(modules := c.modules[mi := n]))
  }

  // ---------------------------------------------------------------------------
  // Reference validity: every position a module or item refers to exists.

  predicate ItemRefsIn(items: seq<Item>, n: int)
  {
    forall k, x :: 0 <= k < |items| && x in items[k].relatedObjectives ==> 0 <= x < n
  }

  predicate ModuleRefsValid(m: Module, sloCount: int)
  {
    && (forall x :: x in m.relatedSlos ==> 0 <= x < sloCount)
    && forall f :: ItemRefsIn(Items(m, f), |m.objectives|)
  }

  predicate RefsValid(c: Course)
  {
    forall mi :: 0 <= mi < |c.modules| ==> ModuleRefsValid(c.modules[mi], |c.learningOutcomes|)
  }
}
