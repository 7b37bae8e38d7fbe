/**
 * The quote approval workflow of `public/js/quotes.js`, on values: the steps
 * of a quote, the transition that marks one step complete, the workflow a
 * saved edit produces, the default assignee of each step type, and the
 * status class the progress rail derives for each step.
 */
module QuoteWorkflow {
  import opened Wrappers
  import opened Text
  import opened Lists

  /** A calendar date as `new Date().toISOString().split('T')[0]` yields it (`YYYY-MM-DD`). */
  type Date = string

  datatype StepStatus = Waiting | Pending | Completed

  /** One approval step; `completedDate` is JavaScript `null` when `None`. */
  datatype Step = Step(id: string, name: string, assignee: string, status: StepStatus, completedDate: Option<Date>)

  /**
   * A quote as the quotes page holds it. `createdDate` is the timestamp
   * `new Date(createdDate)` parses the stored date to; `currentStep` is
   * `null` when `None`; `status` is the quote-level status string.
   */
  datatype Quote = Quote(
    id: string,
    customer: string,
    amount: int,
    createdDate: int,
    workflow: seq<Step>,
    currentStep: Option<string>,
    status: string)

  /** One row of the workflow editor: the step id, its displayed name and its displayed assignee. */
  datatype StepDraft = StepDraft(id: string, name: string, assignee: string)

  const Approved := "approved"
  const Unassigned := "Unassigned"
  const QuoteNotFound := "Quote not found"
  const StepNotFound := "Workflow step not found"
  const EmptyWorkflow := "Workflow must have at least one step"

  function StepIds(w: seq<Step>): (ids: seq<string>)
    ensures |ids| == |w| && forall i :: 0 <= i < |w| ==> ids[i] == w[i].id
  {
    seq(|w|, i requires 0 <= i < |w| => w[i].id)
  }

  function Statuses(w: seq<Step>): (st: seq<StepStatus>)
    ensures |st| == |w| && forall i :: 0 <= i < |w| ==> st[i] == w[i].status
  {
    seq(|w|, i requires 0 <= i < |w| => w[i].status)
  }

  function DraftIds(d: seq<StepDraft>): (ids: seq<string>)
    ensures |ids| == |d| && forall i :: 0 <= i < |d| ==> ids[i] == d[i].id
  {
    seq(|d|, i requires 0 <= i < |d| => d[i].id)
  }

  // ---------------------------------------------------------------- default assignees

  /** The fixed table of `getDefaultAssignee`, keyed by step (persona) id. */
  const DefaultAssignees: map<string, string> := map[
    "configuration" := "Account Executive",
    "pricing" := "Finance Team",
    "quoting" := "Deal Desk",
    "contract-creation" := "Legal Team",
    "contract-negotiation" := "Chief Revenue Officer",
    "contract-execution" := "Customer",
    "order-fulfillment" := "Operations Team",
    "billing" := "Billing Team",
    "revenue" := "Finance Team",
    "renewal" := "Account Executive"
  ]

  /**
   * `getDefaultAssignee`: the table's entry for a known id, `Unassigned` for
   * any other id; since no entry is `Unassigned`, the result names a real
   * role exactly when the id is known.
   */
  function GetDefaultAssignee(stepId: string): (r: string)
    ensures stepId in DefaultAssignees ==> r == DefaultAssignees[stepId]
    ensures r != Unassigned <==> stepId in DefaultAssignees
    ensures r != ""
  {
    if stepId in DefaultAssignees then DefaultAssignees[stepId] else Unassigned
  }

  // ---------------------------------------------------------------- marking a step complete

  /**
   * The in-place update `markStepComplete` makes to the steps once it has
   * found the step at index `i`: only steps `i` and `i + 1` change, and the
   * ids, names and assignees of every step stay where they were.
   */
  function Advance(w: seq<Step>, i: nat, today: Date): (r: seq<Step>)
    requires i < |w|
    ensures |r| == |w| && StepIds(r) == StepIds(w)
    ensures forall j :: 0 <= j < |w| ==> r[j].name == w[j].name && r[j].assignee == w[j].assignee
    ensures r[i].status == Completed && r[i].completedDate == Some(today)
    ensures i + 1 < |w| ==> r[i + 1].status == Pending && r[i + 1].completedDate == w[i + 1].completedDate
    ensures forall j :: 0 <= j < |w| && j != i && j != i + 1 ==> r[j] == w[j]
  {
    var done := w[i := w[i].(status := Completed, completedDate := Some(today))];
    if i + 1 < |done| then done[i + 1 := done[i + 1].(status := Pending)] else done
  }

  /**
   * The quote after its step at index `i` is marked complete: the next step
   * becomes current, or, after the last step, there is no current step and
   * the quote is approved. The quote's other fields do not change.
   */
  function AdvanceQuote(q: Quote, i: nat, today: Date): (r: Quote)
    requires i < |q.workflow|
    ensures r.workflow == Advance(q.workflow, i, today)
    ensures i + 1 < |q.workflow| ==> r.currentStep == Some(q.workflow[i + 1].id) && r.status == q.status
    ensures i + 1 == |q.workflow| ==> r.currentStep == None && r.status == Approved
    ensures r.id == q.id && r.customer == q.customer && r.amount == q.amount && r.createdDate == q.createdDate
  {
    var w := Advance(q.workflow, i, today);
    if i + 1 < |w| then q.(workflow := w, currentStep := Some(w[i + 1].id))
    else q.(workflow := w, status := Approved, currentStep := None)
  }

  /**
   * `markStepComplete` on a found quote: fails with "Workflow step not found"
   * exactly when no step has that id, and otherwise advances the first step
   * with that id, keeping the length and the ids of the workflow.
   */
  function StepComplete(q: Quote, stepId: string, today: Date): (r: Result<Quote>)
    ensures r.Err? <==> stepId !in StepIds(q.workflow)
    ensures r.Err? ==> r.error == StepNotFound
    ensures r.Ok? ==> |r.value.workflow| == |q.workflow| && StepIds(r.value.workflow) == StepIds(q.workflow)
    ensures r.Ok? ==> r.value.id == q.id
    ensures r.Ok? ==> r.value == AdvanceQuote(q, IndexOf(StepIds(q.workflow), stepId).value, today)
  {
    match IndexOf(StepIds(q.workflow), stepId)
    case None => Err(StepNotFound)
    case Some(i) => Ok(AdvanceQuote(q, i, today))
  }

  // ---------------------------------------------------------------- the shape of a workflow

  /**
   * The approval shape at `k`: steps before `k` are completed; step `k`, if
   * there is one, awaits action (pending, or still waiting right after an
   * edit made it current); every later step is waiting.
   */
  predicate Staged(w: seq<Step>, k: nat) {
    && k <= |w|
    && (forall j :: 0 <= j < k ==> w[j].status == Completed)
    && (k < |w| ==> w[k].status != Completed)
    && (forall j :: k < j < |w| ==> w[j].status == Waiting)
  }

  /** The strict shape: completed prefix, exactly one pending step, waiting suffix (or everything completed). */
  predicate StrictlyStaged(w: seq<Step>, k: nat) {
    Staged(w, k) && (k < |w| ==> w[k].status == Pending)
  }

  /** A step carries a completion date exactly when it is completed. */
  predicate DatesMatchStatus(w: seq<Step>) {
    forall j :: 0 <= j < |w| ==> (w[j].completedDate.Some? <==> w[j].status == Completed)
  }

  /**
   * A well-formed quote, staged at `k`: distinct step ids, dates exactly on
   * completed steps, `currentStep` naming step `k`, and, once every step is
   * completed, no current step and the quote approved.
   */
  predicate WellFormedAt(q: Quote, k: nat) {
    && Staged(q.workflow, k)
    && Unique(StepIds(q.workflow))
    && DatesMatchStatus(q.workflow)
    && (k < |q.workflow| ==> q.currentStep == Some(q.workflow[k].id))
    && (k == |q.workflow| ==> q.currentStep == None && q.status == Approved)
  }

  /** Advancing the step that awaits action moves the shape one step on and makes the next step the single pending one. */
  lemma AdvanceKeepsShape(w: seq<Step>, k: nat, today: Date)
    requires Staged(w, k) && DatesMatchStatus(w) && k < |w|
    ensures StrictlyStaged(Advance(w, k, today), k + 1)
    ensures DatesMatchStatus(Advance(w, k, today))
  {
    var r := Advance(w, k, today);
    assert k + 1 < |w| ==> w[k + 1].status == Waiting && w[k + 1].completedDate == None;
  }

  /**
   * Marking the current step of a well-formed quote complete succeeds and
   * yields a well-formed quote staged one step further, in the strict shape.
   */
  lemma MarkCurrentStepKeepsShape(q: Quote, k: nat, today: Date)
    requires WellFormedAt(q, k) && k < |q.workflow|
    ensures StepComplete(q, q.workflow[k].id, today).Ok?
    ensures WellFormedAt(StepComplete(q, q.workflow[k].id, today).value, k + 1)
    ensures StrictlyStaged(StepComplete(q, q.workflow[k].id, today).value.workflow, k + 1)
  {
    UniqueIndexOf(StepIds(q.workflow), k);
    AdvanceKeepsShape(q.workflow, k, today);
    var r := AdvanceQuote(q, k, today);
    assert StepIds(r.workflow) == StepIds(q.workflow);
  }

  /**
   * Nothing stops a step from being marked complete twice: doing it for a
   * step at least three before the current one turns its completed
   * successor back to pending, and no `k` describes the result's shape any
   * more.
   */
  lemma RemarkingCompletedStepBreaksShape(w: seq<Step>, k: nat, i: nat, today: Date)
    requires Staged(w, k) && i + 2 < k
    ensures forall j: nat :: !Staged(Advance(w, i, today), j)
  {
    var r := Advance(w, i, today);
    assert r[i + 1].status == Pending && r[i + 2].status == Completed;
  }

  /**
   * Marking the step just before the current one complete again keeps the
   * shape (the current step becomes pending if it was waiting) but moves
   * that step's completion date to the new day.
   */
  lemma RemarkingPreviousStepMovesDate(w: seq<Step>, k: nat, today: Date)
    requires Staged(w, k) && 1 <= k < |w|
    ensures StrictlyStaged(Advance(w, k - 1, today), k)
    ensures Advance(w, k - 1, today)[k - 1].completedDate == Some(today)
  {
    var r := Advance(w, k - 1, today);
    assert forall j :: k < j < |w| ==> r[j] == w[j];
  }

  // ---------------------------------------------------------------- the progress rail

  datatype StepClass = CompletedClass | PendingClass | ActiveClass | WaitingClass

  /** `createWorkflowProgress`'s class for a step: completed, else pending, else active when current, else waiting. */
  function StatusClass(step: Step, currentStep: Option<string>): (c: StepClass)
    ensures c == CompletedClass <==> step.status == Completed
    ensures c == PendingClass <==> step.status == Pending
    ensures c == ActiveClass <==> step.status == Waiting && currentStep == Some(step.id)
  {
    match step.status
    case Completed => CompletedClass
    case Pending => PendingClass
    case Waiting => if currentStep == Some(step.id) then ActiveClass else WaitingClass
  }

  /**
   * The rail shows "Mark Complete" on a pending step and on the step
   * `currentStep` names: on every step classed pending or active, and on a
   * completed step only when it is still named current.
   */
  predicate OffersMarkComplete(step: Step, currentStep: Option<string>): (r: bool)
    ensures StatusClass(step, currentStep) in {PendingClass, ActiveClass} ==> r
    ensures StatusClass(step, currentStep) == WaitingClass ==> !r
    ensures StatusClass(step, currentStep) == CompletedClass ==> (r <==> currentStep == Some(step.id))
  {
    step.status == Pending || currentStep == Some(step.id)
  }

  /**
   * On a well-formed quote the rail offers "Mark Complete" on exactly one
   * step, the current one, and classes steps by their place around it.
   */
  lemma ProgressRail(q: Quote, k: nat, j: nat)
    requires WellFormedAt(q, k) && j < |q.workflow|
    ensures OffersMarkComplete(q.workflow[j], q.currentStep) <==> j == k
    ensures j < k ==> StatusClass(q.workflow[j], q.currentStep) == CompletedClass
    ensures j > k ==> StatusClass(q.workflow[j], q.currentStep) == WaitingClass
    ensures j == k ==> StatusClass(q.workflow[j], q.currentStep) in {PendingClass, ActiveClass}
  {
    var w := q.workflow;
    if j != k && k < |w| {
      assert StepIds(w)[j] != StepIds(w)[k];
    }
  }

  // ---------------------------------------------------------------- editing and saving a workflow

  /** `editAssignee`: the text the input opens with, empty in place of the `Unassigned` placeholder. */
  function AssigneeInputText(shown: string): (r: string)
    ensures r != Unassigned
    ensures shown == Unassigned ==> r == ""
    ensures shown != Unassigned ==> r == shown
  {
    if shown == Unassigned then "" else shown
  }

  /** `editAssignee`'s save: the trimmed input, or `Unassigned` when nothing but whitespace was typed. */
  function EditedAssignee(input: string): (r: string)
    ensures r != ""
    ensures !IsWhitespace(r[0]) && !IsWhitespace(r[|r| - 1])
    ensures AllWhitespace(input) ==> r == Unassigned
    ensures !AllWhitespace(input) ==> r == Trim(input)
  {
    var t := Trim(input);
    if t == "" then Unassigned else t
  }

  /** Opening the assignee editor and saving it untouched leaves a trimmed, non-empty assignee as it was. */
  lemma EditAssigneeRoundTrip(shown: string)
    requires shown != "" && Trim(shown) == shown
    ensures EditedAssignee(AssigneeInputText(shown)) == shown
  {
    if shown != Unassigned {
      assert !AllWhitespace(shown);
    }
  }

  /** `saveWorkflow`'s assignee: the shown text, with `Unassigned` replaced by the step's default. */
  function ResolvedAssignee(d: StepDraft): (a: string)
    ensures d.assignee != Unassigned ==> a == d.assignee
    ensures d.assignee == Unassigned ==> a == GetDefaultAssignee(d.id)
  {
    if d.assignee == Unassigned then GetDefaultAssignee(d.id) else d.assignee
  }

  /** Only the literal `Unassigned` is resolved: a row whose assignee is empty is saved with an empty assignee. */
  lemma EmptyAssigneeKept(id: string, name: string)
    ensures ResolvedAssignee(StepDraft(id, name, "")) == ""
  {
  }

  /**
   * The steps `saveWorkflow` builds from the editor rows: same length, ids
   * and names in order; the first step completed today, every other step
   * waiting without a date, so no step is pending.
   */
  function BuildWorkflow(drafts: seq<StepDraft>, today: Date): (w: seq<Step>)
    ensures |w| == |drafts| && StepIds(w) == DraftIds(drafts)
    ensures forall i :: 0 <= i < |w| ==> w[i].name == drafts[i].name && w[i].assignee == ResolvedAssignee(drafts[i])
    ensures drafts != [] ==> Staged(w, 1) && w[0].status == Completed && w[0].completedDate == Some(today)
    ensures DatesMatchStatus(w)
    ensures forall i :: 0 <= i < |w| ==> w[i].status != Pending
  {
    seq(|drafts|, i requires 0 <= i < |drafts| =>
      Step(drafts[i].id, drafts[i].name, ResolvedAssignee(drafts[i]),
           if i == 0 then Completed else Waiting,
           if i == 0 then Some(today) else None))
  }

  /** `saveWorkflow`'s validation: an empty editor is rejected, otherwise the built steps are sent. */
  function SavedSteps(drafts: seq<StepDraft>, today: Date): (r: Result<seq<Step>>)
    ensures r.Err? <==> drafts == []
    ensures r.Err? ==> r.error == EmptyWorkflow
    ensures r.Ok? ==> r.value == BuildWorkflow(drafts, today)
  {
    if drafts == [] then Err(EmptyWorkflow) else Ok(BuildWorkflow(drafts, today))
  }

  /** `workflow.find(step => step.status === 'waiting')`, as an index. */
  function FirstWaiting(w: seq<Step>): (r: Option<nat>)
    ensures r.None? <==> forall j :: 0 <= j < |w| ==> w[j].status != Waiting
    ensures r.Some? ==> r.value < |w| && w[r.value].status == Waiting
    ensures r.Some? ==> forall j :: 0 <= j < r.value ==> w[j].status != Waiting
  {
    var r := IndexOf(Statuses(w), Waiting);
    assert r.Some? ==> forall j :: 0 <= j < r.value ==> Statuses(w)[..r.value][j] == w[j].status;
    r
  }

  /** The quote stored after a save: the server's reply with `currentStep` set to the first waiting step, if any. */
  function SavedQuote(reply: Quote, sent: seq<Step>): (q: Quote)
    ensures FirstWaiting(sent).Some? ==> q == reply.(currentStep := Some(sent[FirstWaiting(sent).value].id))
    ensures FirstWaiting(sent).None? ==> q == reply
  {
    match FirstWaiting(sent)
    case None => reply
    case Some(i) => reply.(currentStep := Some(sent[i].id))
  }

  /**
   * A save of two or more rows with distinct ids, answered by a server that
   * stores what was sent, leaves a well-formed quote whose current step is
   * the second row — which the rail shows as active, not pending.
   */
  lemma SaveYieldsWellFormedQuote(reply: Quote, drafts: seq<StepDraft>, today: Date)
    requires |drafts| >= 2 && Unique(DraftIds(drafts))
    requires reply.workflow == BuildWorkflow(drafts, today)
    ensures WellFormedAt(SavedQuote(reply, reply.workflow), 1)
    ensures SavedQuote(reply, reply.workflow).currentStep == Some(drafts[1].id)
    ensures StatusClass(reply.workflow[1], SavedQuote(reply, reply.workflow).currentStep) == ActiveClass
  {
    var w := reply.workflow;
    assert w[1].status == Waiting;
    assert FirstWaiting(w) == Some(1) by {
      assert w[0].status != Waiting;
    }
    assert StepIds(w) == DraftIds(drafts);
  }
}
