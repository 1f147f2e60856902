/** The in-memory registry of automation workflows and its keyed operations.
    Each lookup finds the first workflow with the id; the `setTimeout` delays
    that simulate latency are not modelled and the next-run time is an argument. */
module Automation {
  import opened Options

  datatype Status = Active | Inactive | Error

  datatype Workflow = Workflow(
    id: string, name: string, description: string, lastRun: string, nextRun: string,
    status: Status, webhookUrl: Option<string>, schedule: Option<string>)

  /** The result of a keyed update: the updated workflow, or a rejection
      carrying the error message when no workflow has the id. */
  datatype Outcome = Updated(workflow: Workflow) | Rejected(message: string)

  const NotFoundMessage := "Workflow not found"

  /** Index of the first workflow with `id`. */
  function FindIndex(ws: seq<Workflow>, id: string): (r: Option<nat>)
    ensures r != None ==> r.value < |ws| && ws[r.value].id == id
    ensures r != None ==> forall j :: 0 <= j < r.value ==> ws[j].id != id
    ensures r == None <==> forall j :: 0 <= j < |ws| ==> ws[j].id != id
  {
    if |ws| == 0 then None
    else if ws[0].id == id then Some(0)
    else match FindIndex(ws[1..], id)
      case None => None
      case Some(k) => Some(k + 1)
  }

  /** `toggleWorkflowStatus`: the first match becomes active or inactive and
      is returned; an unknown id changes nothing and yields no workflow. */
  function ToggleStatus(ws: seq<Workflow>, id: string, active: bool): (r: (seq<Workflow>, Option<Workflow>))
    ensures |r.0| == |ws|
    ensures FindIndex(ws, id) == None ==> r == (ws, None)
    ensures FindIndex(ws, id) != None ==>
      var k := FindIndex(ws, id).value;
      && r.0[k] == ws[k].(status := if active then Active else Inactive)
      && (forall j :: 0 <= j < |ws| && j != k ==> r.0[j] == ws[j])
      && r.1 == Some(r.0[k])
    ensures forall j :: 0 <= j < |ws| && r.0[j] != ws[j] ==> r.0[j].status != Error
  {
    match FindIndex(ws, id)
    case None => (ws, None)
    case Some(k) =>
      var w := ws[k].(status := if active then Active else Inactive);
      (ws[k := w], Some(w))
  }

  /** Toggling is idempotent, and toggling back to a workflow's former
      (non-error) status restores the registry. */
  lemma ToggleIdempotentAndReversible(ws: seq<Workflow>, id: string, active: bool)
    ensures ToggleStatus(ToggleStatus(ws, id, active).0, id, active).0 == ToggleStatus(ws, id, active).0
    ensures FindIndex(ws, id) != None && ws[FindIndex(ws, id).value].status != Error ==>
      ToggleStatus(ToggleStatus(ws, id, active).0, id, ws[FindIndex(ws, id).value].status == Active).0 == ws
  {
  }

  /** Lists with the same ids position by position agree on every lookup. */
  lemma FindIndexSameIds(a: seq<Workflow>, b: seq<Workflow>, id: string)
    requires |a| == |b|
    requires forall j :: 0 <= j < |a| ==> a[j].id == b[j].id
    ensures FindIndex(a, id) == FindIndex(b, id)
  {
  }

  /** `addNewWorkflow`: append and return the workflow. */
  function AddWorkflow(ws: seq<Workflow>, w: Workflow): (r: (seq<Workflow>, Workflow))
    ensures |r.0| == |ws| + 1 && r.0[..|ws|] == ws && r.0[|ws|] == w
    ensures r.1 == w
  {
    (ws + [w], w)
  }

  /** `updateWorkflowWebhook`: set only the webhook URL of the first match,
      or reject with "Workflow not found" and leave the registry as it was. */
  function UpdateWebhook(ws: seq<Workflow>, id: string, url: string): (r: (seq<Workflow>, Outcome))
    ensures |r.0| == |ws|
    ensures FindIndex(ws, id) == None ==> r == (ws, Rejected(NotFoundMessage))
    ensures FindIndex(ws, id) != None ==>
      var k := FindIndex(ws, id).value;
      && r.0[k] == ws[k].(webhookUrl := Some(url))
      && (forall j :: 0 <= j < |ws| && j != k ==> r.0[j] == ws[j])
      && r.1 == Updated(r.0[k])
  {
    match FindIndex(ws, id)
    case None => (ws, Rejected(NotFoundMessage))
    case Some(k) =>
      var w := ws[k].(webhookUrl := Some(url));
      (ws[k := w], Updated(w))
  }

  /** `updateWorkflowSchedule`: set the schedule and the next run time of the
      first match, or reject with "Workflow not found". */
  function UpdateSchedule(ws: seq<Workflow>, id: string, schedule: string, nextRun: string): (r: (seq<Workflow>, Outcome))
    ensures |r.0| == |ws|
    ensures FindIndex(ws, id) == None ==> r == (ws, Rejected(NotFoundMessage))
    ensures FindIndex(ws, id) != None ==>
      var k := FindIndex(ws, id).value;
      && r.0[k] == ws[k].(schedule := Some(schedule), nextRun := nextRun)
      && (forall j :: 0 <= j < |ws| && j != k ==> r.0[j] == ws[j])
      && r.1 == Updated(r.0[k])
  {
    match FindIndex(ws, id)
    case None => (ws, Rejected(NotFoundMessage))
    case Some(k) =>
      var w := ws[k].(schedule := Some(schedule), nextRun := nextRun);
      (ws[k := w], Updated(w))
  }

  /** `deleteWorkflow`: remove the first match and report true, or report
      false and leave the registry as it was. */
  function DeleteWorkflow(ws: seq<Workflow>, id: string): (r: (seq<Workflow>, bool))
    ensures r.1 <==> FindIndex(ws, id) != None
    ensures !r.1 ==> r.0 == ws
    ensures r.1 ==>
      var k := FindIndex(ws, id).value;
      && |r.0| == |ws| - 1
      && (forall j :: 0 <= j < k ==> r.0[j] == ws[j])
      && (forall j :: k <= j < |r.0| ==> r.0[j] == ws[j + 1])
  {
    match FindIndex(ws, id)
    case None => (ws, false)
    case Some(k) => (ws[..k] + ws[k + 1..], true)
  }

  /** Adding a workflow with a fresh id and then deleting that id gives back
      the original registry. */
  lemma AddThenDelete(ws: seq<Workflow>, w: Workflow)
    requires forall j :: 0 <= j < |ws| ==> ws[j].id != w.id
    ensures DeleteWorkflow(AddWorkflow(ws, w).0, w.id) == (ws, true)
  {
    var added := AddWorkflow(ws, w).0;
    assert FindIndex(added, w.id) == Some(|ws|);
    assert added[..|ws|] == ws;
    assert added[|ws| + 1..] == [];
    assert added[..|ws|] + added[|ws| + 1..] == ws;
  }

  /** Webhook and schedule updates keep every id in place, so later lookups
      are unaffected. */
  lemma UpdatesKeepLookups(ws: seq<Workflow>, id: string, other: string, url: string, schedule: string, nextRun: string)
    ensures FindIndex(UpdateWebhook(ws, id, url).0, other) == FindIndex(ws, other)
    ensures FindIndex(UpdateSchedule(ws, id, schedule, nextRun).0, other) == FindIndex(ws, other)
  {
    FindIndexSameIds(UpdateWebhook(ws, id, url).0, ws, other);
    FindIndexSameIds(UpdateSchedule(ws, id, schedule, nextRun).0, ws, other);
  }

  /** Toggling never moves a workflow either. */
  lemma ToggleKeepsLookups(ws: seq<Workflow>, id: string, other: string, active: bool)
    ensures FindIndex(ToggleStatus(ws, id, active).0, other) == FindIndex(ws, other)
  {
    FindIndexSameIds(ToggleStatus(ws, id, active).0, ws, other);
  }
}
