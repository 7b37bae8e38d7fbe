# Canyon quote-to-cash client logic, in Dafny

This project models the client-side logic of the Canyon quote-to-cash demo.
It has four parts:

- **The quote approval workflow** (`public/js/quotes.js`). A quote carries an
  ordered list of approval steps. Each step is waiting, pending or completed.
  "Mark Complete" completes one step, makes the next one pending and current,
  and approves the quote after its last step. The workflow editor adds,
  removes and re-assigns steps. Saving rebuilds the workflow: the first step
  is completed today and every other step is waiting. The quotes page also
  filters, sorts and counts its quotes.
- **The quote form** (`public/js/create-quote.js`). It searches the catalog and
  keeps the selected line items with their quantities and discounts. It
  computes the price summary, checks the form, and takes over or merges an
  AI-generated quote.
- **The support page** (`public/js/support.js`). It covers the ticket list, its
  status filter, new tickets and the FAQ accordion.
- **The landing page helpers** (`public/js/script.js`). These are keyboard
  navigation between tabs, statistic display names, and filling the statistic
  boxes.

Each part has its own layout:

- Pure logic is written as functions and lemmas.
- Objects whose fields the pages update are written as classes. These are
  `QuotesApp`, `CreateQuoteApp` and `SupportApp`, whose lists are `seq`
  fields. The FAQ flags and the statistic boxes are arrays.
- Every method states its new state in terms of the functions. The lemmas
  prove what those functions promise.

Modules:

| file | module | models |
|---|---|---|
| `wrappers.dfy` | `Wrappers` | `Option`, `Result`, `Outcome` |
| `text.dfy` | `Text` | `trim`, `toLowerCase` on ASCII, `includes`, `replace` with a one-character pattern, `String(n)`, `padStart` |
| `lists.dfy` | `Lists` | `findIndex`/`find` by key, `filter` |
| `workflow.dfy` | `QuoteWorkflow` | steps, quotes, the mark-complete transition, the workflow shape, saving, default assignees, the progress rail |
| `quotes_app.dfy` | `QuotesPage` | class `QuotesApp`, the quote filter and sort, statistics |
| `quote_editor.dfy` | `QuoteEditor` | class `CreateQuoteApp`, prices, the AI quote merge |
| `support.dfy` | `SupportPage` | class `SupportApp`, status labels, ticket ids |
| `landing.dfy` | `LandingPage` | tab navigation, statistic names and boxes |

Some inputs that the code gets from the browser or the server are parameters:

- the day (`today`, `YYYY-MM-DD`)
- the quotes, personas and catalog fetched from the server
- the reply to the workflow save
- the random draw behind a ticket id
- the results of `parseInt`/`parseFloat`, where `None` stands for `NaN`

## Model

| member | source | states |
|---|---|---|
| QuoteWorkflow.GetDefaultAssignee | public/js/quotes.js:999-1014 | The fixed table value for each of the 10 known step ids, and `Unassigned` for any other id. The result is never empty, and it differs from `Unassigned` exactly for the known ids. |
| QuoteWorkflow.Advance | public/js/quotes.js:298-306 | After step i is advanced, step i is completed with today's date. Step i+1, if any, is pending. Every other step is unchanged. Length, ids, names and assignees stay where they were. |
| QuoteWorkflow.AdvanceQuote | public/js/quotes.js:298-311 | The workflow is advanced. If there is a next step, `currentStep` is its id and the status is kept. After the last step, `currentStep` is null and the status is `approved`. Id, customer, amount and date are unchanged. |
| QuoteWorkflow.StepComplete | public/js/quotes.js:291-311 | Fails with "Workflow step not found" exactly when no step has the id. Otherwise the result is `AdvanceQuote` at the first step with that id, and the workflow keeps its length and ids. |
| QuoteWorkflow.AdvanceKeepsShape | public/js/quotes.js:299-311 | Advancing the step that awaits action on a "completed prefix, awaiting step, waiting suffix" workflow yields the strict shape one step further: completed prefix, one pending step, waiting suffix. Dates stay exactly on completed steps. |
| QuoteWorkflow.MarkCurrentStepKeepsShape | public/js/quotes.js:282-311 | Marking the current step of a well-formed quote complete succeeds. The result is well formed one step further: unique ids, matching dates, and `currentStep` on the new pending step, or approved with none. |
| QuoteWorkflow.RemarkingCompletedStepBreaksShape | public/js/quotes.js:292-306 | Nothing stops a completed step from being advanced again. Doing so for a step at least three before the current one turns its completed successor back to pending in front of a completed step, and no shape describes the result. |
| QuoteWorkflow.RemarkingPreviousStepMovesDate | public/js/quotes.js:298-306 | Marking the step just before the current one complete again keeps the strict shape, with the current step pending, but overwrites that step's completion date with the new day. |
| QuoteWorkflow.StatusClass | public/js/quotes.js:248-255 | Completed beats pending, which beats active (the id is `currentStep`), which beats waiting. Each class holds exactly under its condition. |
| QuoteWorkflow.OffersMarkComplete | public/js/quotes.js:269 | "Mark Complete" is offered on every step classed pending or active and on no step classed waiting. A completed step gets it only while `currentStep` still names it. |
| QuoteWorkflow.ProgressRail | public/js/quotes.js:246-280 | On a well-formed quote, "Mark Complete" appears on exactly one step, the current one. Earlier steps are classed completed, later ones waiting, and the current one pending or active. |
| QuoteWorkflow.AssigneeInputText | public/js/quotes.js:884 | The input opens empty for `Unassigned` and with the shown text otherwise, so it never holds the literal `Unassigned`. |
| QuoteWorkflow.EditedAssignee | public/js/quotes.js:890-892 | The saved assignee is the trimmed input, or `Unassigned` when only whitespace was typed. It is never empty and never starts or ends with whitespace. |
| QuoteWorkflow.EditAssigneeRoundTrip | public/js/quotes.js:884-892 | Opening the assignee input, where `Unassigned` shows as empty, and saving it untouched keeps a trimmed, non-empty assignee. |
| QuoteWorkflow.ResolvedAssignee | public/js/quotes.js:536 | An assignee of `Unassigned` is replaced by the step's default. Any other text is kept. |
| QuoteWorkflow.EmptyAssigneeKept | public/js/quotes.js:530-536 | An empty assignee is saved empty. Only the literal `Unassigned` gets the default. |
| QuoteWorkflow.BuildWorkflow | public/js/quotes.js:527-539 | The rebuilt workflow keeps length, ids and names in order, and assignees are resolved. Step 0 is completed today and the rest are waiting without a date, so no step is pending. |
| QuoteWorkflow.SavedSteps | public/js/quotes.js:519-539 | An empty editor is rejected with "Workflow must have at least one step". Otherwise the rebuilt workflow is sent. |
| QuoteWorkflow.FirstWaiting | public/js/quotes.js:566 | The index of the first waiting step, or none exactly when no step is waiting. |
| QuoteWorkflow.SavedQuote | public/js/quotes.js:562-570 | The stored quote is the server's reply. Its `currentStep` is set to the first waiting step that was sent, and left alone when no step is waiting. |
| QuoteWorkflow.SaveYieldsWellFormedQuote | public/js/quotes.js:527-570 | A save of two or more distinct steps, stored as sent, gives a well-formed quote whose current step is the second step. The rail classes that step active (it is waiting, not pending). |
| Lists.IndexOf | public/js/quotes.js:285-292 | `find`/`findIndex` by key: none exactly when the key is absent; otherwise the position of the key's first occurrence. |
| Lists.FilterAppend | public/js/quotes.js:351-360 | `filter` of a concatenation is the concatenation of the filtered parts, so kept elements stay in list order. |
| Lists.FilterCount | public/js/quotes.js:351-360 | `filter` keeps every element that passes as often as it occurs and drops every other one. |
| QuotesPage.QuoteMatches | public/js/quotes.js:351-360 | An empty term and an empty status filter match every quote. A match always passes the status filter. A term that begins the lower-cased id or customer matches whenever the status passes. |
| QuotesPage.EmptyFiltersMatchAll | public/js/quotes.js:351-360 | An empty search term and an empty status filter keep every quote, in order. |
| QuotesPage.InOrderTotal | public/js/quotes.js:369-384 | Every comparator of the sort menu orders any two quotes one way or the other. |
| QuotesPage.InOrderTransitive | public/js/quotes.js:369-384 | Every comparator of the sort menu is transitive. |
| QuotesPage.SortQuotesBy | public/js/quotes.js:366-385 | The sorted view is ordered by the chosen comparator and is a permutation of the view. |
| QuotesPage.UnsortedKeepsOrder | public/js/quotes.js:381-382 | An unknown sort choice (comparator always 0) leaves the order as it was. |
| QuotesPage.View | public/js/quotes.js:351-362 | The view built from the list is sorted by the chosen comparator and no longer than the list. |
| QuotesPage.FilteredViewExactly | public/js/quotes.js:347-364 | The filtered, sorted view holds a quote exactly when the list holds it and its id, customer or amount contains the term and its status passes the filter. A matching quote occurs as often as in the list, any other not at all. |
| QuotesPage.ViewUnsortedKeepsListOrder | public/js/quotes.js:351-362 | With an unknown sort choice, the view of a list split in two is the view of the first part followed by the view of the second, so matches keep list order. |
| QuotesPage.CountStatus | public/js/quotes.js:389-390 | A status count never exceeds the number of quotes. |
| QuotesPage.PendingAndApprovedWithinTotal | public/js/quotes.js:388-390 | The pending and approved counts together never exceed the total. |
| QuotesPage.SumAmountsNonNegative | public/js/quotes.js:391 | With no negative amount, the total value is not negative. |
| QuotesPage.QuotesApp.LoadQuotes | public/js/quotes.js:112-113 | The list is the fetched quotes and the view is a full copy of it. |
| QuotesPage.QuotesApp.SortQuotes | public/js/quotes.js:366-385 | The view is replaced by its sort. It is sorted by the menu's comparator and has the same multiset. |
| QuotesPage.QuotesApp.FilterQuotes | public/js/quotes.js:347-364 | The view is rebuilt from the whole list. It holds exactly the quotes matching the lower-cased term and the status filter, each as often as the list does, sorted. |
| QuotesPage.QuotesApp.UpdateStats | public/js/quotes.js:387-397 | total is the count, pending and approved are the status counts with their sum at most total, and totalValue is the sum of amounts. |
| QuotesPage.QuotesApp.MarkStepComplete | public/js/quotes.js:282-311 | An unknown quote fails with "Quote not found" and an unknown step fails with "Workflow step not found"; neither changes any quote. Otherwise only the first quote with that id changes, as `StepComplete` gives. |
| QuotesPage.QuotesApp.ShowWorkflowEditor | public/js/quotes.js:403-455 | An unknown quote fails with the thrown reason "Quote not found" (the page then shows its generic loading error instead) and the editor is untouched. Otherwise the editor shows the quote's steps (id, name, assignee) in order. |
| QuotesPage.QuotesApp.AddWorkflowStep | public/js/quotes.js:919-996 | A step is added exactly when the persona exists and its id is not yet in the editor. It is appended with the persona's name and default assignee. Otherwise nothing changes, and editor ids stay unique. |
| QuotesPage.QuotesApp.RemoveWorkflowStep | public/js/quotes.js:906-917 | Exactly that row goes. The others keep their order, and ids stay unique. |
| QuotesPage.QuotesApp.EditAssignee | public/js/quotes.js:877-904 | Only that row's assignee changes, to the edited value. The ids are unchanged. |
| QuotesPage.QuotesApp.SaveWorkflow | public/js/quotes.js:505-592 | An empty editor fails with "Workflow must have at least one step". A failed request fails with the server's message or "Failed to save workflow". Failures leave quotes, view and editor alone. On success the first quote with the id becomes the saved quote, the editor closes and the view is rebuilt. |
| QuoteEditor.FilterProducts | public/js/create-quote.js:123-136 | An empty term gives the whole catalog. Otherwise the result is exactly the catalog products whose name, description or category contains the term, ignoring case, each as often as in the catalog. |
| QuoteEditor.FilterProductsKeepsOrder | public/js/create-quote.js:123-136 | The search keeps catalog order: searching a catalog split in two gives the two results one after the other. |
| QuoteEditor.LineTotal | public/js/create-quote.js:233-237 | A line total is price times quantity scaled by the share not discounted, (100 - discount) / 100. |
| QuoteEditor.LineTotalBounds | public/js/create-quote.js:233-237 | With a non-negative price and quantity and a discount of 0 to 100, a line total lies between 0 and price times quantity. |
| QuoteEditor.LineTotalExtremes | public/js/create-quote.js:233-237 | No discount gives the full line price; a discount of 100 makes it 0. |
| QuoteEditor.SummaryTotalIsSumOfLines | public/js/create-quote.js:239-250 | The summary total (subtotal less total discount) equals the sum of the line totals shown on the rows. |
| QuoteEditor.QuantityFromInput | public/js/create-quote.js:214 | The stored quantity is the parsed integer, or 1 when the parse gives 0 or NaN. It is never 0. |
| QuoteEditor.DiscountFromInput | public/js/create-quote.js:220 | The stored discount is the parsed number, or 0 when the parse gives NaN. |
| QuoteEditor.MergeOne | public/js/create-quote.js:620-634 | The AI product replaces the first entry with its id, or is appended when none has it. Other entries and all ids stay in place, and unique ids stay unique. |
| QuoteEditor.MergedAll | public/js/create-quote.js:620-636 | No AI products leave the selection as it is. The merge never shrinks the selection and adds at most one entry per AI product. Every id selected before and every AI product's id is selected after. |
| QuoteEditor.MergedAllKeepsExisting | public/js/create-quote.js:616-636 | After the whole merge, existing entries keep their places and ids. Entries whose id no AI product carries are untouched, and ids stay unique. |
| QuoteEditor.MergedAllHasLastAiProducts | public/js/create-quote.js:616-636 | After the merge, the last AI product with each id is in the selection. |
| QuoteEditor.MergedAllOnlyFromInputs | public/js/create-quote.js:620-634 | Every entry after the merge was selected before or is an AI product. |
| QuoteEditor.MergedAllAppendsOnlyNewAi | public/js/create-quote.js:620-634 | Every entry past the old selection is an AI product whose id was not selected before: matching ids are overwritten in place, and only the rest are appended. |
| QuoteEditor.FormComplete | public/js/create-quote.js:264-280 | The form is complete exactly when no required field is empty or all whitespace and a product is selected. With no required fields, only the selection counts. |
| QuoteEditor.CreateQuoteApp.AddProductToQuote | public/js/create-quote.js:149-169 | An id not in the catalog changes nothing. A selected id gets quantity + 1 and nothing else changes. A new id is appended with quantity 1 and discount 0. Ids stay unique. |
| QuoteEditor.CreateQuoteApp.UpdateProductQuantity | public/js/create-quote.js:213-217 | Only that entry's quantity changes, to the parsed value or 1. An index past the end changes nothing. |
| QuoteEditor.CreateQuoteApp.UpdateProductDiscount | public/js/create-quote.js:219-223 | Only that entry's discount changes, to the parsed value or 0. An index past the end changes nothing. |
| QuoteEditor.CreateQuoteApp.RemoveProduct | public/js/create-quote.js:225-231 | Exactly that entry is removed and the others keep their order. An index past the end removes nothing. |
| QuoteEditor.CreateQuoteApp.UpdateSummary | public/js/create-quote.js:239-255 | The subtotal and discount are the sums over the lines. The total is their difference and equals the sum of the line totals. |
| QuoteEditor.CreateQuoteApp.ValidateForm | public/js/create-quote.js:264-280 | Valid exactly when every required field is non-blank after trimming and a product is selected. Submit is disabled exactly when invalid. |
| QuoteEditor.CreateQuoteApp.ShowAIResults | public/js/create-quote.js:552-555 | The AI quote's products become the quote on display. |
| QuoteEditor.CreateQuoteApp.HideAIResults | public/js/create-quote.js:656-659 | No AI quote is on display any more. |
| QuoteEditor.CreateQuoteApp.AcceptAIQuote | public/js/create-quote.js:593-604 | Without an AI quote nothing happens. Otherwise the selection becomes the AI products in order and the AI quote is cleared. |
| QuoteEditor.CreateQuoteApp.ModifyAIQuote | public/js/create-quote.js:616-640 | Without an AI quote nothing happens. Otherwise the selection becomes the front-to-back merge of the AI products and the AI quote is cleared. |
| SupportPage.StatusLabel | public/js/support.js:294 | The row text is the status with its first hyphen, and only that one, turned into a space. It keeps the length, and a status without hyphen is shown as is. |
| SupportPage.DecodeStatus | public/js/support.js:457 | The status read back from a row is the trimmed text with its first space, and only that one, turned into a hyphen. Trimmed text without a space is read as is. It is never longer than the text. |
| SupportPage.StatusRoundTrip | public/js/support.js:457 | Decoding the row text gives back the status whenever the status has no space and starts and ends with neither whitespace nor a hyphen (`in-progress`). |
| SupportPage.RowShownIff | public/js/support.js:456-463 | A row is shown exactly when the filter is `all` or equals the ticket's status. |
| SupportPage.KnownStatusesDecodable | public/js/support.js:134-161 | `open`, `in-progress` and `resolved` all satisfy the round-trip condition. |
| SupportPage.TicketId | public/js/support.js:425 | A ticket id is `TKT-2025-` followed by three digits. |
| SupportPage.TicketIdRoundTrip | public/js/support.js:425 | The three digits of a ticket id give back the draw 0..999, so distinct draws give distinct ids. |
| SupportPage.NewTicket | public/js/support.js:431-439 | A submitted ticket has status `open`, the days of the two clock reads as created and updated, and the form's subject, category and priority. |
| SupportPage.NewTicketShownUnder | public/js/support.js:431-463 | A new ticket shows under the `all` and `open` filters and under no other. |
| SupportPage.SupportApp.AddNewTicket | public/js/support.js:447-450 | The ticket is at index 0, the earlier tickets follow in order, the length grows by one, and every re-rendered row is shown. |
| SupportPage.SupportApp.FilterTickets | public/js/support.js:452-465 | Each row's visibility is the filter test on its status text. For the statuses above, the row is shown exactly when the filter is `all` or is the status. |
| SupportPage.SupportApp.SubmitTicket | public/js/support.js:407-445 | The new open ticket, with the draw's id and the two clock reads' days, is put in front of the list, and every row is shown again. |
| SupportPage.SupportApp.ToggleFaq | public/js/support.js:467-479 | Every other item closes and the clicked one opens exactly when it was closed, so at most one item is open. |
| LandingPage.NavTarget | public/js/script.js:733-752 | ArrowUp gives max(0, c-1), one less when c > 0. ArrowDown gives min(n-1, c+1), one more below the end. Home gives 0, End gives n-1, and any other key nothing. |
| LandingPage.TabSwitch | public/js/script.js:754-759 | A switch happens exactly when there is a target and it differs from the current index, and it goes to that target. |
| LandingPage.NavTargetInRange | public/js/script.js:733-752 | With n ≥ 1 tabs and a current index from -1 to n-1, the target is a tab index 0..n-1. |
| LandingPage.NavTargetIdempotentAtEnds | public/js/script.js:733-759 | A second Home or End, or an arrow already at its end, switches nothing. |
| LandingPage.DownThenUp | public/js/script.js:734-741 | ArrowDown then ArrowUp returns to any tab but the last. |
| LandingPage.FormatStatName | public/js/script.js:640-664 | The mapped label for the 20 known keys and the key itself otherwise. A non-empty key never gives an empty name. |
| LandingPage.UpdateStats | public/js/script.js:624-638 | Missing or empty statistics leave all boxes alone. Otherwise box i shows the i-th value and formatted key when that key exists and is non-empty, and every other box is untouched. |

## Left out

- DOM rendering, notifications, modals, animations and timers, across all four files. The model keeps the data behind them: the editor rows, the row visibility flags, the FAQ flags and the statistic boxes.
- Every `fetch` call is left out:
  - the quotes, personas and catalog arrive as parameters
  - the reply to the workflow PUT is a parameter
  - the PUT that follows a local "Mark Complete" is not modelled, and neither is the missing rollback when it fails
- The server (`server.js`), the insights charts (`public/js/insights.js`) and the dashboard (`public/js/dashboard.js`) are not part of this model.
- Drag-and-drop reordering in the workflow editor works from element geometry and is not modelled. The editor's order changes only through add and remove here.
- `localeCompare` is replaced by code-unit lexicographic order. Dates and amounts are formatted for display with `toLocaleString`/`toLocaleDateString`; that formatting is not modelled.
- The wall clock and `Math.random` are parameters: `today`, and the ticket draw `n` in 0..999. A new support ticket reads the clock twice, so its `created` and `updated` days are two separate parameters.
- Strings are sequences of characters, not UTF-16 code units. `toLowerCase` is modelled on ASCII letters only.
- Object maps are keyed only by their own entries. Inherited keys such as `constructor` are not modelled in `getDefaultAssignee` or `formatStatName`.
- Only the effective definition of each duplicated method is modelled. For `addWorkflowStep` and `getDefaultAssignee` that is the last copy in the class body, which is identical to the earlier ones.
- The quote form's catalog is a parameter. In the code, line 17 of `public/js/create-quote.js` overwrites the catalog field with a DOM element, and the `loadProductCatalog` it awaits is not defined in the file.
- The AI quote request, its confidence, insights and suggestions, and the `aiReasoning` field are not modelled. An AI product is a whole line item, so merging replaces the entry.
- QuoteWorkflow.ResolvedAssignee: on save only the literal `Unassigned` is replaced by the default assignee (`public/js/quotes.js:536`). An empty assignee is saved empty (`QuoteWorkflow.EmptyAssigneeKept`).
- QuotesPage.QuotesApp.MarkStepComplete: updates the list only. In the page, the view holds the same quote objects, so the change also shows in the view. The model keeps the list and the view as separate values (aliasing is not modelled).
- QuotesPage.QuotesApp.FilterQuotes: amounts are integers and `String(amount)` is their decimal form. Fractional amounts and the exponent form beyond 10^21 are not modelled.
- QuotesPage.SortQuotesBy: `createdDate` is the already-parsed timestamp. An unparsable date, which gives a `NaN` comparison in the code, is not modelled.
- QuoteEditor.CreateQuoteApp.RemoveProduct: indices are the non-negative row positions the page renders. `splice` with a negative index, counting from the end, is not modelled.
- QuoteEditor.CreateQuoteApp.UpdateProductQuantity: the parse itself (`parseInt` of the input text) is not modelled; its result is the parameter. The same goes for `parseFloat` in `UpdateProductDiscount`.
- LandingPage.NavTargetInRange: the range is stated for n ≥ 1 only. With no tabs at all, Home and ArrowUp name index 0, where the code then fails to find a tab.
- QuotesPage.QuotesApp.SaveWorkflow: the early return when the save button is missing from the page is not modelled, since it depends only on the DOM.
- QuoteEditor.LineTotal: prices are exact reals. The IEEE double rounding of `basePrice * quantity` and of the discount arithmetic is not modelled.
- QuoteEditor.CreateQuoteApp.UpdateSummary: the sums are exact reals, so rounding as the doubles accumulate is not modelled.
- QuoteEditor.DiscountFromInput: a parsed number is a real. `parseFloat` results of `Infinity` and `-Infinity` are not modelled.
- QuotesPage.SortQuotesBy: stability (equal quotes keep their relative order) is proved only for the unknown sort choice (`QuotesPage.UnsortedKeepsOrder`), not for the other comparators.
