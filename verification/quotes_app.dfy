/**
 * The quotes page of `public/js/quotes.js` (class `QuotesApp`): the list of
 * quotes and its filtered, sorted view, the statistics over it, marking a
 * workflow step complete, and the workflow editor with its save.
 */
module QuotesPage {
  import opened Wrappers
  import opened Text
  import opened Lists
  import opened QuoteWorkflow

  // ---------------------------------------------------------------- filtering

  /**
   * `filterQuotes`' test for one quote against the lower-cased search term
   * and the status filter; an empty term or an empty filter matches every quote.
   */
  predicate QuoteMatches(q: Quote, term: string, statusFilter: string): (r: bool)
    ensures term == "" && statusFilter == "" ==> r
    ensures r ==> statusFilter == "" || q.status == statusFilter
    ensures (statusFilter == "" || q.status == statusFilter) && (term <= ToLower(q.id) || term <= ToLower(q.customer)) ==> r
  {
    && (term == "" || Contains(ToLower(q.id), term) || Contains(ToLower(q.customer), term)
        || Contains(IntToString(q.amount), term))
    && (statusFilter == "" || q.status == statusFilter)
  }

  /** An empty search box and an empty status filter let every quote through. */
  lemma EmptyFiltersMatchAll(qs: seq<Quote>)
    ensures Filter(qs, q => QuoteMatches(q, "", "")) == qs
  {
    FilterAll(qs, q => QuoteMatches(q, "", ""));
  }

  // ---------------------------------------------------------------- sorting

  /** The choices of the sort menu; any other value leaves the comparator at 0. */
  datatype SortMode = DateDesc | DateAsc | AmountDesc | AmountAsc | ByCustomer | Unsorted

  function ParseSortMode(value: string): SortMode {
    if value == "date-desc" then DateDesc
    else if value == "date-asc" then DateAsc
    else if value == "amount-desc" then AmountDesc
    else if value == "amount-asc" then AmountAsc
    else if value == "customer" then ByCustomer
    else Unsorted
  }

  /** The comparator of `sortQuotes` is at most 0 for `(a, b)`: `a` may stay in front of `b`. */
  predicate InOrder(m: SortMode, a: Quote, b: Quote) {
    match m
    case DateDesc => b.createdDate - a.createdDate <= 0
    case DateAsc => a.createdDate - b.createdDate <= 0
    case AmountDesc => b.amount - a.amount <= 0
    case AmountAsc => a.amount - b.amount <= 0
    case ByCustomer => LexLeq(a.customer, b.customer)
    case Unsorted => true
  }

  lemma InOrderTotal(m: SortMode, a: Quote, b: Quote)
    ensures InOrder(m, a, b) || InOrder(m, b, a)
  {
    if m == ByCustomer {
      LexLeqTotal(a.customer, b.customer);
    }
  }

  lemma InOrderTransitive(m: SortMode, a: Quote, b: Quote, c: Quote)
    requires InOrder(m, a, b) && InOrder(m, b, c)
    ensures InOrder(m, a, c)
  {
    if m == ByCustomer {
      LexLeqTransitive(a.customer, b.customer, c.customer);
    }
  }

  predicate SortedBy(s: seq<Quote>, m: SortMode) {
    forall i, j :: 0 <= i < j < |s| ==> InOrder(m, s[i], s[j])
  }

  /** Inserts `x` after the leading elements that may stay in front of it. */
  function Insert(x: Quote, s: seq<Quote>, m: SortMode): (r: seq<Quote>)
    ensures multiset(r) == multiset(s) + multiset{x}
    ensures forall i :: 0 <= i < |r| ==> r[i] == x || r[i] in s
  {
    if s == [] then [x]
    else if InOrder(m, s[0], x) then
      assert s == [s[0]] + s[1..];
      [s[0]] + Insert(x, s[1..], m)
    else [x] + s
  }

  lemma {:induction false} InsertSorted(x: Quote, s: seq<Quote>, m: SortMode)
    requires SortedBy(s, m)
    ensures SortedBy(Insert(x, s, m), m)
  {
    if s == [] {
    } else if InOrder(m, s[0], x) {
      var t := Insert(x, s[1..], m);
      InsertSorted(x, s[1..], m);
      forall i | 0 <= i < |t| ensures InOrder(m, s[0], t[i]) {
        if t[i] != x {
          var j :| 0 <= j < |s[1..]| && s[1..][j] == t[i];
          assert s[j + 1] == t[i];
        }
      }
      assert Insert(x, s, m) == [s[0]] + t;
    } else {
      InOrderTotal(m, s[0], x);
      forall j | 0 <= j < |s| ensures InOrder(m, x, s[j]) {
        if j > 0 {
          InOrderTransitive(m, x, s[0], s[j]);
        }
      }
    }
  }

  /**
   * The order `sortQuotes` leaves the view in: a sort by the chosen
   * comparator, here as an insertion sort. The result is sorted and is a
   * permutation of the input.
   */
  function SortQuotesBy(s: seq<Quote>, m: SortMode): (r: seq<Quote>)
    ensures SortedBy(r, m)
    ensures multiset(r) == multiset(s)
  {
    if s == [] then []
    else
      var sorted := SortQuotesBy(s[..|s| - 1], m);
      InsertSorted(s[|s| - 1], sorted, m);
      assert s == s[..|s| - 1] + [s[|s| - 1]];
      Insert(s[|s| - 1], sorted, m)
  }

  /** An unknown sort choice keeps the view in its current order. */
  lemma {:induction false} UnsortedKeepsOrder(s: seq<Quote>)
    ensures SortQuotesBy(s, Unsorted) == s
  {
    if s != [] {
      var init, last := s[..|s| - 1], s[|s| - 1];
      assert SortQuotesBy(s, Unsorted) == Insert(last, SortQuotesBy(init, Unsorted), Unsorted);
      UnsortedKeepsOrder(init);
      InsertAtEnd(last, init);
      assert init + [last] == s;
    }
  }

  lemma {:induction false} InsertAtEnd(x: Quote, s: seq<Quote>)
    ensures Insert(x, s, Unsorted) == s + [x]
  {
    if s != [] {
      InsertAtEnd(x, s[1..]);
      assert [s[0]] + (s[1..] + [x]) == s + [x];
    }
  }

  /** What `filterQuotes` shows: the matching quotes in the chosen order. */
  function View(qs: seq<Quote>, term: string, statusFilter: string, m: SortMode): (r: seq<Quote>)
    ensures SortedBy(r, m)
    ensures |r| <= |qs|
  {
    var f := Filter(qs, q => QuoteMatches(q, term, statusFilter));
    var r := SortQuotesBy(f, m);
    assert |r| == |multiset(r)| == |multiset(f)| == |f|;
    r
  }

  /** The filtered and sorted view holds exactly the matching quotes, each as often as in the list. */
  lemma FilteredViewExactly(qs: seq<Quote>, term: string, statusFilter: string, m: SortMode, q: Quote)
    ensures q in View(qs, term, statusFilter, m) <==> q in qs && QuoteMatches(q, term, statusFilter)
    ensures multiset(View(qs, term, statusFilter, m))[q] ==
      if QuoteMatches(q, term, statusFilter) then multiset(qs)[q] else 0
  {
    var f := Filter(qs, x => QuoteMatches(x, term, statusFilter));
    var v := View(qs, term, statusFilter, m);
    FilterCount(qs, x => QuoteMatches(x, term, statusFilter));
    assert q in v <==> q in multiset(v);
    assert q in f <==> q in multiset(f);
    if q in qs && QuoteMatches(q, term, statusFilter) {
      var i :| 0 <= i < |qs| && qs[i] == q;
    }
  }

  /** With an unknown sort choice the view keeps the matching quotes in the order of the list. */
  lemma ViewUnsortedKeepsListOrder(qs: seq<Quote>, term: string, statusFilter: string, a: seq<Quote>, b: seq<Quote>)
    requires qs == a + b
    ensures View(qs, term, statusFilter, Unsorted) ==
      View(a, term, statusFilter, Unsorted) + View(b, term, statusFilter, Unsorted)
  {
    var p := (q: Quote) => QuoteMatches(q, term, statusFilter);
    FilterAppend(a, b, p);
    UnsortedKeepsOrder(Filter(qs, p));
    UnsortedKeepsOrder(Filter(a, p));
    UnsortedKeepsOrder(Filter(b, p));
  }

  // ---------------------------------------------------------------- statistics

  datatype QuoteStats = QuoteStats(total: nat, pending: nat, approved: nat, totalValue: int)

  function CountStatus(qs: seq<Quote>, status: string): (n: nat)
    ensures n <= |qs|
  {
    |Filter(qs, (q: Quote) => q.status == status)|
  }

  function SumAmounts(qs: seq<Quote>): int {
    if qs == [] then 0 else SumAmounts(qs[..|qs| - 1]) + qs[|qs| - 1].amount
  }

  /** The pending and approved counts never exceed the number of quotes together. */
  lemma {:induction false} PendingAndApprovedWithinTotal(qs: seq<Quote>)
    ensures CountStatus(qs, "pending") + CountStatus(qs, "approved") <= |qs|
  {
    if qs != [] {
      var init := qs[..|qs| - 1];
      PendingAndApprovedWithinTotal(init);
      assert CountStatus(qs, "pending") <= CountStatus(init, "pending") + 1;
    }
  }

  /** With no negative amount the total value is not negative. */
  lemma {:induction false} SumAmountsNonNegative(qs: seq<Quote>)
    requires forall i :: 0 <= i < |qs| ==> qs[i].amount >= 0
    ensures SumAmounts(qs) >= 0
  {
    if qs != [] {
      SumAmountsNonNegative(qs[..|qs| - 1]);
    }
  }

  // ---------------------------------------------------------------- the page

  function QuoteIds(qs: seq<Quote>): (ids: seq<string>)
    ensures |ids| == |qs| && forall i :: 0 <= i < |qs| ==> ids[i] == qs[i].id
  {
    seq(|qs|, i requires 0 <= i < |qs| => qs[i].id)
  }

  /** A persona of the workflow catalog, as `/api/workflow-personas` lists it. */
  datatype Persona = Persona(id: string, name: string)

  function PersonaIds(ps: seq<Persona>): (ids: seq<string>)
    ensures |ids| == |ps| && forall i :: 0 <= i < |ps| ==> ids[i] == ps[i].id
  {
    seq(|ps|, i requires 0 <= i < |ps| => ps[i].id)
  }

  function DraftsOf(w: seq<Step>): (d: seq<StepDraft>)
    ensures |d| == |w| && DraftIds(d) == StepIds(w)
    ensures forall i :: 0 <= i < |w| ==> d[i] == StepDraft(w[i].id, w[i].name, w[i].assignee)
  {
    seq(|w|, i requires 0 <= i < |w| => StepDraft(w[i].id, w[i].name, w[i].assignee))
  }

  class QuotesApp {
    /** All quotes loaded from the server. */
    var quotes: seq<Quote>
    /** The view: the quotes that pass the search and status filter, in the chosen order. */
    var filteredQuotes: seq<Quote>
    /** The values of the search box, the status filter and the sort menu. */
    var searchInput: string
    var statusFilter: string
    var sortBy: string
    /** The rows of the open workflow editor, top to bottom. */
    var editorSteps: seq<StepDraft>

    constructor ()
      ensures quotes == [] && filteredQuotes == [] && editorSteps == []
      ensures searchInput == "" && statusFilter == "" && sortBy == ""
    {
      quotes, filteredQuotes, editorSteps := [], [], [];
      searchInput, statusFilter, sortBy := "", "", "";
    }

    /** `loadQuotes` once the server has answered: the list and an unfiltered copy as the view. */
    method LoadQuotes(fetched: seq<Quote>)
      modifies this
      ensures quotes == fetched && filteredQuotes == fetched
      ensures editorSteps == old(editorSteps)
      ensures searchInput == old(searchInput) && statusFilter == old(statusFilter) && sortBy == old(sortBy)
    {
      quotes := fetched;
      filteredQuotes := fetched;
    }

    /** `sortQuotes`: the view reordered by the sort menu's comparator. */
    method SortQuotes()
      modifies this`filteredQuotes
      ensures filteredQuotes == SortQuotesBy(old(filteredQuotes), ParseSortMode(sortBy))
      ensures multiset(filteredQuotes) == multiset(old(filteredQuotes))
      ensures SortedBy(filteredQuotes, ParseSortMode(sortBy))
    {
      filteredQuotes := SortQuotesBy(filteredQuotes, ParseSortMode(sortBy));
    }

    /** `filterQuotes`: the view rebuilt from the whole list, then sorted. */
    method FilterQuotes()
      modifies this`filteredQuotes
      ensures filteredQuotes == View(quotes, ToLower(searchInput), statusFilter, ParseSortMode(sortBy))
      ensures forall q :: q in filteredQuotes <==> q in quotes && QuoteMatches(q, ToLower(searchInput), statusFilter)
      ensures forall q :: multiset(filteredQuotes)[q] == (if QuoteMatches(q, ToLower(searchInput), statusFilter) then multiset(quotes)[q] else 0)
      ensures SortedBy(filteredQuotes, ParseSortMode(sortBy))
    {
      var term, status := ToLower(searchInput), statusFilter;
      filteredQuotes := Filter(quotes, q => QuoteMatches(q, term, status));
      SortQuotes();
      assert filteredQuotes == View(quotes, term, status, ParseSortMode(sortBy));
      forall q ensures q in filteredQuotes <==> q in quotes && QuoteMatches(q, term, status)
        ensures multiset(filteredQuotes)[q] == if QuoteMatches(q, term, status) then multiset(quotes)[q] else 0
      {
        FilteredViewExactly(quotes, term, status, ParseSortMode(sortBy), q);
      }
    }

    /**
     * `updateStats`: the number of quotes, how many are pending and how many
     * approved, and the sum of their amounts.
     */
    method UpdateStats() returns (s: QuoteStats)
      ensures s.total == |quotes|
      ensures s.pending == CountStatus(quotes, "pending") && s.approved == CountStatus(quotes, "approved")
      ensures s.pending + s.approved <= s.total
      ensures s.totalValue == SumAmounts(quotes)
    {
      var totalValue := 0;
      for i := 0 to |quotes|
        invariant totalValue == SumAmounts(quotes[..i])
      {
        assert quotes[..i + 1][..i] == quotes[..i];
        totalValue := totalValue + quotes[i].amount;
      }
      assert quotes[..|quotes|] == quotes;
      PendingAndApprovedWithinTotal(quotes);
      s := QuoteStats(|quotes|, CountStatus(quotes, "pending"), CountStatus(quotes, "approved"), totalValue);
    }

    /**
     * `markStepComplete`'s local update (the request to the server that
     * follows it is not modelled): "Quote not found" or "Workflow step not
     * found" leave every quote as it was; otherwise only the first quote
     * with that id changes, as `StepComplete` says.
     */
    method MarkStepComplete(quoteId: string, stepId: string, today: Date) returns (r: Outcome)
      modifies this`quotes
      ensures quoteId !in QuoteIds(old(quotes)) ==> r == Fail(QuoteNotFound) && quotes == old(quotes)
      ensures quoteId in QuoteIds(old(quotes)) ==>
        var qi := IndexOf(QuoteIds(old(quotes)), quoteId).value;
        match StepComplete(old(quotes)[qi], stepId, today)
        case Err(e) => r == Fail(e) && quotes == old(quotes)
        case Ok(q) => r == Pass && quotes == old(quotes)[qi := q]
    {
      var found := IndexOf(QuoteIds(quotes), quoteId);
      if found.None? {
        return Fail(QuoteNotFound);
      }
      var quote := quotes[found.value];
      var stepIndex := IndexOf(StepIds(quote.workflow), stepId);
      if stepIndex.None? {
        return Fail(StepNotFound);
      }
      var i := stepIndex.value;
      var w := quote.workflow;
      w := w[i := w[i].(status := Completed, completedDate := Some(today))];
      if i + 1 < |w| {
        w := w[i + 1 := w[i + 1].(status := Pending)];
        quote := quote.(workflow := w, currentStep := Some(w[i + 1].id));
      } else {
        quote := quote.(workflow := w, status := Approved, currentStep := None);
      }
      quotes := quotes[found.value := quote];
      r := Pass;
    }

    /**
     * `showWorkflowEditor`: the editor opens on the quote's steps, or fails
     * with the thrown reason "Quote not found" (the page then shows its
     * generic loading error, not this reason).
     */
    method ShowWorkflowEditor(quoteId: string) returns (r: Outcome)
      modifies this`editorSteps
      ensures quoteId !in QuoteIds(quotes) ==> r == Fail(QuoteNotFound) && editorSteps == old(editorSteps)
      ensures quoteId in QuoteIds(quotes) ==>
        r == Pass && editorSteps == DraftsOf(quotes[IndexOf(QuoteIds(quotes), quoteId).value].workflow)
    {
      var found := IndexOf(QuoteIds(quotes), quoteId);
      if found.None? {
        return Fail(QuoteNotFound);
      }
      editorSteps := DraftsOf(quotes[found.value].workflow);
      r := Pass;
    }

    /**
     * `addWorkflowStep` against the persona list the server returned: an
     * unknown persona or one already in the editor changes nothing; otherwise
     * one row with the persona's id, name and default assignee is appended,
     * so the editor's ids stay distinct.
     */
    method AddWorkflowStep(personaId: string, personas: seq<Persona>) returns (added: bool)
      modifies this`editorSteps
      ensures added <==> personaId in PersonaIds(personas) && personaId !in DraftIds(old(editorSteps))
      ensures !added ==> editorSteps == old(editorSteps)
      ensures added ==> editorSteps == old(editorSteps) + [StepDraft(personaId,
        personas[IndexOf(PersonaIds(personas), personaId).value].name, GetDefaultAssignee(personaId))]
      ensures Unique(DraftIds(old(editorSteps))) ==> Unique(DraftIds(editorSteps))
    {
      var found := IndexOf(PersonaIds(personas), personaId);
      if found.None? {
        return false;
      }
      var persona := personas[found.value];
      if persona.id in DraftIds(editorSteps) {
        return false;
      }
      var old_ids := DraftIds(editorSteps);
      editorSteps := editorSteps + [StepDraft(persona.id, persona.name, GetDefaultAssignee(persona.id))];
      assert DraftIds(editorSteps) == old_ids + [persona.id];
      added := true;
    }

    /** `removeWorkflowStep`: the row at `index` leaves the editor; the others keep their order. */
    method RemoveWorkflowStep(index: nat)
      requires index < |editorSteps|
      modifies this`editorSteps
      ensures editorSteps == old(editorSteps)[..index] + old(editorSteps)[index + 1..]
      ensures Unique(DraftIds(old(editorSteps))) ==> Unique(DraftIds(editorSteps))
    {
      var before := editorSteps;
      editorSteps := editorSteps[..index] + editorSteps[index + 1..];
      assert forall j :: 0 <= j < |editorSteps| ==>
        editorSteps[j] == if j < index then before[j] else before[j + 1];
    }

    /** `editAssignee` once the input is saved: only that row's assignee changes. */
    method EditAssignee(index: nat, input: string)
      requires index < |editorSteps|
      modifies this`editorSteps
      ensures editorSteps == old(editorSteps)[index := old(editorSteps)[index].(assignee := EditedAssignee(input))]
      ensures DraftIds(editorSteps) == DraftIds(old(editorSteps))
    {
      editorSteps := editorSteps[index := editorSteps[index].(assignee := EditedAssignee(input))];
    }

    /**
     * `saveWorkflow`, given the server's answer to the request (`reply`: the
     * stored quote, or the error it reported): an empty editor fails with
     * "Workflow must have at least one step" and a failed request with the
     * server's message, both leaving the quotes alone; otherwise the first
     * quote with that id, if any, becomes the reply with `currentStep` set to
     * the first waiting step that was sent, the editor closes and the view is
     * rebuilt.
     */
    method SaveWorkflow(quoteId: string, today: Date, reply: Result<Quote>) returns (r: Result<seq<Step>>)
      modifies this`quotes, this`filteredQuotes, this`editorSteps
      ensures old(editorSteps) == [] ==> r == Err(EmptyWorkflow)
      ensures old(editorSteps) != [] && reply.Err? ==>
        r == Err(if reply.error == "" then "Failed to save workflow" else reply.error)
      ensures r.Err? ==> quotes == old(quotes) && editorSteps == old(editorSteps) && filteredQuotes == old(filteredQuotes)
      ensures old(editorSteps) != [] && reply.Ok? ==>
        && r == Ok(BuildWorkflow(old(editorSteps), today))
        && editorSteps == []
        && quotes == (if quoteId in QuoteIds(old(quotes))
                      then old(quotes)[IndexOf(QuoteIds(old(quotes)), quoteId).value := SavedQuote(reply.value, r.value)]
                      else old(quotes))
        && filteredQuotes == View(quotes, ToLower(searchInput), statusFilter, ParseSortMode(sortBy))
    {
      var sent := SavedSteps(editorSteps, today);
      if sent.Err? {
        return Err(sent.error);
      }
      if reply.Err? {
        return Err(if reply.error == "" then "Failed to save workflow" else reply.error);
      }
      var found := IndexOf(QuoteIds(quotes), quoteId);
      if found.Some? {
        quotes := quotes[found.value := SavedQuote(reply.value, sent.value)];
      }
      editorSteps := [];
      FilterQuotes();
      r := Ok(sent.value);
    }
  }
}
