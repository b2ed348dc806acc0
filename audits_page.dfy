/**
 * The audits page's selection of audit ids and the batch delete over its
 * three lists (planned, in execution, completed).
 */
module AuditsPage {
  import opened Wrappers
  import opened Api

  datatype Audit = Audit(id: string, status: string, kind: string, responsibleSection: string,
                         object: string, lastUpdated: string)

  predicate NoDuplicates(s: seq<string>) {
    forall i, j :: 0 <= i < j < |s| ==> s[i] != s[j]
  }

  /** `selectedAudits.filter(id => id !== auditId)`. */
  function RemoveId(selected: seq<string>, id: string): (r: seq<string>)
    ensures id !in r
    ensures forall x :: x in r <==> x in selected && x != id
    ensures |r| <= |selected|
  {
    if selected == [] then []
    else (if selected[0] != id then [selected[0]] else []) + RemoveId(selected[1..], id)
  }

  /** `toggleAuditSelection`: a present id goes (every occurrence), an absent one is appended. */
  function Toggled(selected: seq<string>, id: string): (r: seq<string>)
    ensures id in selected ==> id !in r && forall x :: x in r <==> x in selected && x != id
    ensures id !in selected ==> r == selected + [id]
  {
    if id in selected then RemoveId(selected, id) else selected + [id]
  }

  lemma {:induction false} RemoveAbsentId(selected: seq<string>, id: string)
    requires id !in selected
    ensures RemoveId(selected, id) == selected
  {
    if selected != [] {
      RemoveAbsentId(selected[1..], id);
    }
  }

  lemma {:induction false} RemoveIdKeepsNoDuplicates(selected: seq<string>, id: string)
    requires NoDuplicates(selected)
    ensures NoDuplicates(RemoveId(selected, id))
  {
    if selected != [] {
      RemoveIdKeepsNoDuplicates(selected[1..], id);
      var rest := RemoveId(selected[1..], id);
      assert selected[0] !in rest by {
        assert forall x :: x in rest ==> x in selected[1..];
      }
    }
  }

  /** Toggling keeps a duplicate-free selection duplicate-free. */
  lemma ToggleKeepsNoDuplicates(selected: seq<string>, id: string)
    requires NoDuplicates(selected)
    ensures NoDuplicates(Toggled(selected, id))
  {
    if id in selected {
      RemoveIdKeepsNoDuplicates(selected, id);
    }
  }

  /**
   * Toggling an unselected id twice restores the selection exactly. Toggling
   * a selected one twice restores it as a set, with the id moved to the end.
   */
  lemma ToggleTwice(selected: seq<string>, id: string)
    ensures id !in selected ==> Toggled(Toggled(selected, id), id) == selected
    ensures id in selected ==> Toggled(Toggled(selected, id), id) == RemoveId(selected, id) + [id]
    ensures forall x :: x in Toggled(Toggled(selected, id), id) <==> x in selected
  {
    if id !in selected {
      var once := selected + [id];
      assert RemoveId(once, id) == RemoveId(selected, id) + RemoveId([id], id) by {
        RemoveIdConcat(selected, [id], id);
      }
      RemoveAbsentId(selected, id);
      assert RemoveId([id], id) == [];
    }
  }

  lemma {:induction false} RemoveIdConcat(a: seq<string>, b: seq<string>, id: string)
    ensures RemoveId(a + b, id) == RemoveId(a, id) + RemoveId(b, id)
  {
    if a == [] {
      assert a + b == b;
    } else {
      assert (a + b)[0] == a[0];
      assert (a + b)[1..] == a[1..] + b;
      RemoveIdConcat(a[1..], b, id);
    }
  }

  /** `audits.filter(audit => !selectedAudits.includes(audit.id))`. */
  function WithoutSelected(audits: seq<Audit>, selected: seq<string>): (r: seq<Audit>)
    ensures forall a :: a in r <==> a in audits && a.id !in selected
    ensures |r| <= |audits|
  {
    if audits == [] then []
    else (if audits[0].id !in selected then [audits[0]] else []) + WithoutSelected(audits[1..], selected)
  }

  /** The unselected audits keep their relative order: the filter distributes over concatenation. */
  lemma {:induction false} WithoutSelectedKeepsOrder(a: seq<Audit>, b: seq<Audit>, selected: seq<string>)
    ensures WithoutSelected(a + b, selected) == WithoutSelected(a, selected) + WithoutSelected(b, selected)
  {
    if a == [] {
      assert a + b == b;
    } else {
      assert (a + b)[0] == a[0];
      assert (a + b)[1..] == a[1..] + b;
      WithoutSelectedKeepsOrder(a[1..], b, selected);
    }
  }

  class AuditsPageState {
    var planned: seq<Audit>
    var execution: seq<Audit>
    var completed: seq<Audit>
    var selected: seq<string>

    constructor (planned: seq<Audit>, execution: seq<Audit>, completed: seq<Audit>)
      ensures this.planned == planned && this.execution == execution && this.completed == completed
      ensures selected == []
    {
      this.planned, this.execution, this.completed := planned, execution, completed;
      selected := [];
    }

    method ToggleAuditSelection(id: string)
      modifies this
      ensures selected == Toggled(old(selected), id)
      ensures planned == old(planned) && execution == old(execution) && completed == old(completed)
    {
      if id in selected {
        selected := RemoveId(selected, id);
      } else {
        selected := selected + [id];
      }
    }

    /**
     * `handleDeleteSelected`. An empty selection is a no-op with no request.
     * Otherwise, after confirmation, one batch request; on success the
     * selected ids leave all three lists and the selection is cleared. A
     * declined dialog or a failed request changes nothing.
     */
    method DeleteSelected(confirmed: bool, outcome: Result<(), HttpError>) returns (requested: bool)
      modifies this
      ensures requested <==> |old(selected)| > 0 && confirmed
      ensures requested && outcome.Success? ==>
        && planned == WithoutSelected(old(planned), old(selected))
        && execution == WithoutSelected(old(execution), old(selected))
        && completed == WithoutSelected(old(completed), old(selected))
        && selected == []
      ensures !(requested && outcome.Success?) ==>
        planned == old(planned) && execution == old(execution) && completed == old(completed)
        && selected == old(selected)
    {
      if |selected| == 0 {
        return false;
      }
      requested := confirmed;
      if confirmed && outcome.Success? {
        planned := WithoutSelected(planned, selected);
        execution := WithoutSelected(execution, selected);
        completed := WithoutSelected(completed, selected);
        selected := [];
      }
    }
  }

  /** After a successful batch delete no list holds a selected id. */
  method DeleteThenCheck(page: AuditsPageState) returns (ids: seq<string>)
    modifies page
    ensures ids == old(page.selected)
    ensures |ids| > 0 ==> page.selected == []
    ensures forall a :: a in page.planned + page.execution + page.completed ==> a.id !in ids
  {
    ids := page.selected;
    var _ := page.DeleteSelected(true, Success(()));
    assert forall a :: a in page.planned + page.execution + page.completed ==>
      a in page.planned || a in page.execution || a in page.completed;
  }
}
