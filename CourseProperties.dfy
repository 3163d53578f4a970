/**
 * What the edit operations promise across calls: which edits undo which,
 * which keep every reference pointing at an existing position, and what a
 * removal does to the references it leaves behind.
 */
module CourseProperties {
  import opened Wrappers
  import opened CourseModel

  /** Removing the outcome `addSLO` just appended gives the course back. */
  lemma AddSloThenRemove(c: Course)
    ensures RemoveSlo(AddSlo(c), |c.learningOutcomes|) == c
  {
    assert RemoveSlo(AddSlo(c), |c.learningOutcomes|).learningOutcomes == c.learningOutcomes;
  }

  /** Removing the module `addModule` just appended gives the course back. */
  lemma AddModuleThenRemove(c: Course)
    ensures RemoveModule(AddModule(c), |c.modules|) == c
  {
    assert RemoveModule(AddModule(c), |c.modules|).modules == c.modules;
  }

  /** Removing the item `addModuleItem` just appended gives the course back. */
  lemma AddModuleItemThenRemove(c: Course, mi: int, f: ItemField)
    requires 0 <= mi < |c.modules|
    ensures var added := AddModuleItem(c, mi, f);
      added.Ok? && RemoveModuleItem(added.value, mi, ItemList(f), |Items(c.modules[mi], f)|) == Ok(c)
  {
    var added := AddModuleItem(c, mi, f).value;
    var removed := RemoveModuleItem(added, mi, ItemList(f), |Items(c.modules[mi], f)|).value;
    var m, n := c.modules[mi], removed.modules[mi];
    assert Items(n, f) == Items(m, f);
    assert forall g :: Items(n, g) == Items(m, g);
    assert n == m by {
      match f
      case Resources =>
      case Activities =>
      case Assessments =>
    }
    assert removed.modules == c.modules;
  }

  /** Writing an outcome's own text back changes nothing. */
  lemma UpdateSloSameText(c: Course, i: int)
    requires 0 <= i < |c.learningOutcomes|
    ensures UpdateSlo(c, i, c.learningOutcomes[i]) == c
  {
    assert UpdateSlo(c, i, c.learningOutcomes[i]).learningOutcomes == c.learningOutcomes;
  }

  /** Editing only an item's text keeps the objectives it refers to. */
  lemma UpdateItemTextKeepsRefs(c: Course, mi: int, f: ItemField, k: int, content: string)
    requires 0 <= mi < |c.modules| && 0 <= k < |Items(c.modules[mi], f)|
    ensures var r := UpdateModuleItem(c, mi, f, k, content, None);
      r.Ok? && Items(r.value.modules[mi], f)[k] == Item(content, Items(c.modules[mi], f)[k].relatedObjectives)
  {
  }

  // ---------------------------------------------------------------------------
  // Edits that keep every reference valid.

  lemma AppendsKeepRefsValid(c: Course, mi: int, f: ItemField)
    requires RefsValid(c)
    ensures RefsValid(AddSlo(c))
    ensures RefsValid(AddModule(c))
    ensures 0 <= mi < |c.modules| ==> RefsValid(AddObjective(c, mi))
    ensures 0 <= mi < |c.modules| ==> RefsValid(AddModuleItem(c, mi, f).value)
  {
    if 0 <= mi < |c.modules| {
      var d := AddModuleItem(c, mi, f).value;
      var m, n := c.modules[mi], d.modules[mi];
      assert ItemRefsIn(Items(n, f), |n.objectives|) by {
        forall k, x | 0 <= k < |Items(n, f)| && x in Items(n, f)[k].relatedObjectives
          ensures 0 <= x < |n.objectives|
        {
          assert k < |Items(m, f)|;
          assert Items(n, f)[k] == Items(m, f)[k];
        }
      }
      assert ModuleRefsValid(n, |d.learningOutcomes|);
      var e := AddObjective(c, mi);
      assert ModuleRefsValid(e.modules[mi], |e.learningOutcomes|) by {
        var o := e.modules[mi];
        assert o.relatedSlos == m.relatedSlos;
        forall g ensures ItemRefsIn(Items(o, g), |o.objectives|) {
          assert Items(o, g) == Items(m, g);
          assert ItemRefsIn(Items(m, g), |m.objectives|);
        }
      }
    }
  }

  lemma RewritesKeepRefsValid(c: Course, i: int, v: string, mi: int, f: ItemField, k: int, content: string, refs: Option<seq<int>>)
    requires RefsValid(c)
    requires 0 <= mi < |c.modules| && 0 <= k <= |Items(c.modules[mi], f)|
    requires refs.Some? ==> forall x :: x in refs.value ==> 0 <= x < |c.modules[mi].objectives|
    ensures 0 <= i <= |c.learningOutcomes| ==> RefsValid(UpdateSlo(c, i, v))
    ensures RefsValid(HandleModuleChange(c, mi, SetTitle(v)))
    ensures RefsValid(UpdateModuleItem(c, mi, f, k, content, refs).value)
  {
    var d := UpdateModuleItem(c, mi, f, k, content, refs).value;
    var m, n := c.modules[mi], d.modules[mi];
    assert ItemRefsIn(Items(n, f), |n.objectives|) by {
      forall j, x | 0 <= j < |Items(n, f)| && x in Items(n, f)[j].relatedObjectives
        ensures 0 <= x < |n.objectives|
      {
        if j != k {
          assert Items(n, f)[j] == Items(m, f)[j];
        }
      }
    }
    assert ModuleRefsValid(n, |d.learningOutcomes|);
  }

  lemma RemovalsKeepRefsValid(c: Course, i: int, mi: int, f: ItemField, k: int)
    requires RefsValid(c)
    ensures RefsValid(RemoveModule(c, i))
    ensures 0 <= mi < |c.modules| ==> RefsValid(RemoveModuleItem(c, mi, ItemList(f), k).value)
  {
    var r := RemoveModule(c, i);
    forall j | 0 <= j < |r.modules| ensures ModuleRefsValid(r.modules[j], |r.learningOutcomes|) {
      if 0 <= i < |c.modules| && j >= i {
        assert r.modules[j] == c.modules[j + 1];
      } else {
        assert r.modules[j] == c.modules[j];
      }
    }
    if 0 <= mi < |c.modules| {
      var d := RemoveModuleItem(c, mi, ItemList(f), k).value;
      var m, n := c.modules[mi], d.modules[mi];
      assert ItemRefsIn(Items(n, f), |n.objectives|) by {
        forall j, x | 0 <= j < |Items(n, f)| && x in Items(n, f)[j].relatedObjectives
          ensures 0 <= x < |n.objectives|
        {
          if 0 <= k < |Items(m, f)| && j >= k {
            assert Items(n, f)[j] == Items(m, f)[j + 1];
          } else {
            assert Items(n, f)[j] == Items(m, f)[j];
          }
        }
      }
      assert forall g :: g != f ==> Items(n, g) == Items(m, g);
      assert ModuleRefsValid(n, |d.learningOutcomes|);
    }
  }

  /** Rewriting an objective's text keeps every reference valid: no list changes length. */
  lemma UpdateObjectiveKeepsRefsValid(c: Course, mi: int, j: int, v: string)
    requires RefsValid(c)
    requires 0 <= mi < |c.modules| && 0 <= j < |c.modules[mi].objectives|
    ensures RefsValid(UpdateObjective(c, mi, j, v))
  {
    var r := UpdateObjective(c, mi, j, v);
    var m, n := c.modules[mi], r.modules[mi];
    assert ModuleRefsValid(m, |c.learningOutcomes|);
    forall f ensures ItemRefsIn(Items(n, f), |n.objectives|) {
      assert Items(n, f) == Items(m, f);
    }
    assert ModuleRefsValid(n, |r.learningOutcomes|);
  }

  /** Mapping a module to outcomes that exist, as the outcome select offers, keeps every reference valid. */
  lemma SetSlosKeepsRefsValid(c: Course, mi: int, slos: seq<int>)
    requires RefsValid(c)
    requires 0 <= mi < |c.modules|
    requires forall x :: x in slos ==> 0 <= x < |c.learningOutcomes|
    ensures RefsValid(HandleModuleChange(c, mi, SetRelatedSlos(slos)))
  {
    var r := HandleModuleChange(c, mi, SetRelatedSlos(slos));
    var m, n := c.modules[mi], r.modules[mi];
    assert ModuleRefsValid(m, |c.learningOutcomes|);
    forall f ensures ItemRefsIn(Items(n, f), |n.objectives|) {
      assert Items(n, f) == Items(m, f);
    }
    assert ModuleRefsValid(n, |r.learningOutcomes|);
  }

  /**
   * A valid course stays valid when objective `j` of module `mi` is removed
   * exactly when no item of that module refers to the last objective position.
   */
  lemma RemoveObjectiveValidIff(c: Course, mi: int, j: int)
    requires RefsValid(c)
    requires 0 <= mi < |c.modules| && 0 <= j < |c.modules[mi].objectives|
    ensures var r := RemoveModuleItem(c, mi, ObjectiveList, j);
      r.Ok? && (RefsValid(r.value) <==>
        forall f, k :: 0 <= k < |Items(c.modules[mi], f)| ==>
          |c.modules[mi].objectives| - 1 !in Items(c.modules[mi], f)[k].relatedObjectives)
  {
    var r := RemoveModuleItem(c, mi, ObjectiveList, j).value;
    var m, n := c.modules[mi], r.modules[mi];
    var last := |m.objectives| - 1;
    assert |n.objectives| == last;
    assert forall f :: Items(n, f) == Items(m, f);
    assert ModuleRefsValid(m, |c.learningOutcomes|);
    if RefsValid(r) {
      assert ModuleRefsValid(n, |r.learningOutcomes|);
      forall f, k | 0 <= k < |Items(m, f)| ensures last !in Items(m, f)[k].relatedObjectives {
        assert ItemRefsIn(Items(n, f), |n.objectives|);
      }
    }
    if forall f, k :: 0 <= k < |Items(m, f)| ==> last !in Items(m, f)[k].relatedObjectives {
      forall f ensures ItemRefsIn(Items(n, f), |n.objectives|) {
        assert ItemRefsIn(Items(m, f), |m.objectives|);
      }
      assert ModuleRefsValid(n, |r.learningOutcomes|);
      forall i | 0 <= i < |r.modules| ensures ModuleRefsValid(r.modules[i], |r.learningOutcomes|) {
        if i != mi {
          assert r.modules[i] == c.modules[i];
        }
      }
    }
  }

  // ---------------------------------------------------------------------------
  // Removals of referenced entries: references are positions and are not renumbered.

  /**
   * After `removeSLO(i)` a module reference `x >= i` is unchanged: it now names
   * the outcome that followed its old one, or nothing when it named the last.
   */
  lemma RemoveSloLeavesReferences(c: Course, i: int, mi: int, k: int)
    requires 0 <= i < |c.learningOutcomes|
    requires 0 <= mi < |c.modules| && 0 <= k < |c.modules[mi].relatedSlos|
    requires i <= c.modules[mi].relatedSlos[k] < |c.learningOutcomes|
    ensures var r, x := RemoveSlo(c, i), c.modules[mi].relatedSlos[k];
      && r.modules[mi].relatedSlos[k] == x
      && (x == |c.learningOutcomes| - 1 ==> x == |r.learningOutcomes|)
      && (x < |c.learningOutcomes| - 1 ==> r.learningOutcomes[x] == c.learningOutcomes[x + 1])
  {
  }

  /**
   * A valid course stays valid under `removeSLO(i)` exactly when no module
   * refers to the last outcome position.
   */
  lemma RemoveSloValidIff(c: Course, i: int)
    requires RefsValid(c) && 0 <= i < |c.learningOutcomes|
    ensures RefsValid(RemoveSlo(c, i)) <==>
      forall mi :: 0 <= mi < |c.modules| ==> |c.learningOutcomes| - 1 !in c.modules[mi].relatedSlos
  {
    var r := RemoveSlo(c, i);
    var last := |c.learningOutcomes| - 1;
    if RefsValid(r) {
      forall mi | 0 <= mi < |c.modules| ensures last !in c.modules[mi].relatedSlos {
        assert ModuleRefsValid(r.modules[mi], |r.learningOutcomes|);
      }
    }
    if forall mi :: 0 <= mi < |c.modules| ==> last !in c.modules[mi].relatedSlos {
      forall mi | 0 <= mi < |r.modules| ensures ModuleRefsValid(r.modules[mi], |r.learningOutcomes|) {
        assert ModuleRefsValid(c.modules[mi], |c.learningOutcomes|);
      }
    }
  }

  /**
   * Removing objective `j` through `removeModuleItem(mi, 'objectives', j)`
   * leaves every item's references unchanged: a reference `x >= j` now names
   * the objective that followed its old one, or nothing when it named the last.
   */
  lemma RemoveObjectiveLeavesReferences(c: Course, mi: int, j: int, f: ItemField, k: int, p: int)
    requires 0 <= mi < |c.modules|
    requires 0 <= j < |c.modules[mi].objectives|
    requires 0 <= k < |Items(c.modules[mi], f)| && 0 <= p < |Items(c.modules[mi], f)[k].relatedObjectives|
    requires j <= Items(c.modules[mi], f)[k].relatedObjectives[p] < |c.modules[mi].objectives|
    ensures var r := RemoveModuleItem(c, mi, ObjectiveList, j);
      var objs, x := c.modules[mi].objectives, Items(c.modules[mi], f)[k].relatedObjectives[p];
      && r.Ok?
      && Items(r.value.modules[mi], f)[k].relatedObjectives[p] == x
      && (x == |objs| - 1 ==> x == |r.value.modules[mi].objectives|)
      && (x < |objs| - 1 ==> r.value.modules[mi].objectives[x] == objs[x + 1])
  {
  }

  /** A concrete course whose only module refers to the second of two outcomes. */
  function TwoOutcomeCourse(): Course
  {
    Course("C1", "Course", "", ["Explain X", "Apply Y"], [NewModule().(relatedSlos := [1])])
  }

  /** The hazard is real: removing the first outcome leaves a valid course with a dangling reference. */
  lemma RemoveSloCanDangle()
    ensures RefsValid(TwoOutcomeCourse())
    ensures !RefsValid(RemoveSlo(TwoOutcomeCourse(), 0))
  {
    var c := TwoOutcomeCourse();
    assert ModuleRefsValid(c.modules[0], 2);
    var r := RemoveSlo(c, 0);
    assert |r.learningOutcomes| == 1;
    assert 1 in r.modules[0].relatedSlos;
  }
}
