/**
 * The support page of `public/js/support.js` (class `SupportApp`): the
 * ticket list with its status filter, new tickets, and the FAQ accordion.
 */
module SupportPage {
  import opened Text

  /** A support ticket; `created` and `updated` are `yyyy-mm-dd` days. */
  datatype Ticket = Ticket(id: string, subject: string, category: string, priority: string,
                           status: string, created: string, updated: string)

  /** The text a ticket row shows for its status: the first hyphen becomes a space (`in-progress` reads `in progress`). */
  function StatusLabel(status: string): (shown: string)
    ensures |shown| == |status|
    ensures '-' !in status ==> shown == status
    ensures forall k :: 0 <= k < |status| && status[k] == '-' && '-' !in status[..k] ==> shown == status[k := ' ']
  {
    ReplaceFirst(status, '-', ' ')
  }

  /** The status `filterTickets` reads back from a row's text: trimmed, and the first space turned into a hyphen. */
  function DecodeStatus(text: string): (status: string)
    ensures |status| <= |text|
    ensures ' ' !in Trim(text) ==> status == Trim(text)
    ensures forall k :: 0 <= k < |Trim(text)| && Trim(text)[k] == ' ' && ' ' !in Trim(text)[..k] ==>
      status == Trim(text)[k := '-']
  {
    ReplaceFirst(Trim(text), ' ', '-')
  }

  /** `filterTickets`' test for one row: the filter is `all` or equals the decoded status. */
  predicate RowShown(filter: string, rowText: string) {
    filter == "all" || DecodeStatus(rowText) == filter
  }

  /**
   * The statuses whose label reads back unchanged: no space anywhere, and
   * the first and last characters are neither whitespace nor a hyphen (so
   * trimming the label removes nothing).
   */
  predicate Decodable(status: string) {
    && ' ' !in status
    && (status != [] ==> !IsWhitespace(status[0]) && status[0] != '-')
    && (status != [] ==> !IsWhitespace(status[|status| - 1]) && status[|status| - 1] != '-')
  }

  /** Decoding a row's label gives back the status it was rendered from. */
  lemma StatusRoundTrip(status: string)
    requires Decodable(status)
    ensures DecodeStatus(StatusLabel(status)) == status
  {
    var text := StatusLabel(status);
    if status != [] {
      assert text[0] == status[0] && text[|text| - 1] == status[|status| - 1];
    }
    assert Trim(text) == text;
    ReplaceFirstRoundTrip(status, '-', ' ');
  }

  /** A row is shown exactly when the filter is `all` or names the ticket's status. */
  lemma RowShownIff(filter: string, status: string)
    requires Decodable(status)
    ensures RowShown(filter, StatusLabel(status)) <==> filter == "all" || status == filter
  {
    StatusRoundTrip(status);
  }

  /** The statuses the page uses all read back unchanged. */
  lemma KnownStatusesDecodable()
    ensures Decodable("open") && Decodable("in-progress") && Decodable("resolved")
  {
  }

  /** `submitTicket`'s id for a random draw `n` in 0..999: `TKT-2025-` and `n` padded to three digits. */
  function TicketId(n: nat): (id: string)
    requires n < 1000
    ensures |id| == 12 && id[..9] == "TKT-2025-"
    ensures forall i :: 9 <= i < 12 ==> IsDigit(id[i])
  {
    NatToStringShort(n);
    "TKT-2025-" + PadStart(NatToString(n), 3, '0')
  }

  lemma NatToStringShort(n: nat)
    requires n < 1000
    ensures |NatToString(n)| <= 3
  {
    if n >= 10 {
      assert NatToString(n) == NatToString(n / 10) + [DigitChar(n % 10)];
      if n / 10 >= 10 {
        assert NatToString(n / 10) == NatToString(n / 100) + [DigitChar(n / 10 % 10)];
      }
    }
  }

  /** The three digits of a ticket id give back the draw, so different draws give different ids. */
  lemma {:induction false} TicketIdRoundTrip(n: nat)
    requires n < 1000
    ensures DigitsValue(TicketId(n)[9..]) == n
  {
    var s := NatToString(n);
    NatToStringShort(n);
    var digits := TicketId(n)[9..];
    assert digits == PadStart(s, 3, '0');
    if |s| < 3 {
      assert digits == Repeat('0', 3 - |s|) + s;
      LeadingZeros(3 - |s|, s);
    }
    NatToStringRoundTrip(n);
  }

  /**
   * The ticket `submitTicket` adds: status `open`, with the days of the two
   * clock reads as its creation and update days.
   */
  function NewTicket(id: string, subject: string, category: string, priority: string,
                     created: string, updated: string): (t: Ticket)
    ensures t.status == "open" && t.created == created && t.updated == updated
    ensures t.id == id && t.subject == subject && t.category == category && t.priority == priority
  {
    Ticket(id, subject, category, priority, "open", created, updated)
  }

  /** A new ticket shows under the `all` and `open` filters and under no other. */
  lemma NewTicketShownUnder(filter: string, id: string, subject: string, category: string, priority: string,
                            created: string, updated: string)
    ensures RowShown(filter, StatusLabel(NewTicket(id, subject, category, priority, created, updated).status))
        <==> filter == "all" || filter == "open"
  {
    RowShownIff(filter, "open");
  }

  /** No two FAQ items are open at once. */
  predicate AtMostOneActive(active: seq<bool>) {
    forall i, j :: 0 <= i < j < |active| ==> !(active[i] && active[j])
  }

  class SupportApp {
    /** The tickets, newest first, and whether each rendered row is displayed. */
    var tickets: seq<Ticket>
    var rowShown: seq<bool>
    /** Whether each FAQ item of the page is open. */
    const faqActive: array<bool>

    predicate Valid()
      reads this
    {
      |rowShown| == |tickets|
    }

    constructor (initial: seq<Ticket>, faqCount: nat)
      ensures Valid() && tickets == initial
      ensures forall i :: 0 <= i < |rowShown| ==> rowShown[i]
      ensures fresh(faqActive) && faqActive.Length == faqCount
      ensures forall i :: 0 <= i < faqActive.Length ==> !faqActive[i]
    {
      tickets := initial;
      rowShown := seq(|initial|, _ => true);
      faqActive := new bool[faqCount](_ => false);
    }

    /** `addNewTicket`: the ticket goes in front of the others, and the list is drawn again with every row shown. */
    method AddNewTicket(t: Ticket)
      modifies this`tickets, this`rowShown
      ensures Valid()
      ensures tickets == [t] + old(tickets)
      ensures |tickets| == |old(tickets)| + 1 && tickets[0] == t
      ensures forall i :: 0 <= i < |old(tickets)| ==> tickets[i + 1] == old(tickets)[i]
      ensures forall i :: 0 <= i < |rowShown| ==> rowShown[i]
    {
      tickets := [t] + tickets;
      rowShown := seq(|tickets|, _ => true);
    }

    /**
     * `filterTickets`: each row is displayed or hidden by `RowShown` on its
     * status label; for decodable statuses that is "the filter is `all` or
     * is the ticket's status".
     */
    method FilterTickets(filter: string)
      requires Valid()
      modifies this`rowShown
      ensures Valid()
      ensures forall i :: 0 <= i < |tickets| ==> rowShown[i] == RowShown(filter, StatusLabel(tickets[i].status))
      ensures forall i :: 0 <= i < |tickets| && Decodable(tickets[i].status) ==>
        (rowShown[i] <==> filter == "all" || tickets[i].status == filter)
    {
      var i := 0;
      while i < |tickets|
        invariant 0 <= i <= |tickets| && |rowShown| == |tickets|
        invariant forall j :: 0 <= j < i ==> rowShown[j] == RowShown(filter, StatusLabel(tickets[j].status))
      {
        rowShown := rowShown[i := RowShown(filter, StatusLabel(tickets[i].status))];
        i := i + 1;
      }
      forall j | 0 <= j < |tickets| && Decodable(tickets[j].status)
        ensures rowShown[j] <==> filter == "all" || tickets[j].status == filter
      {
        RowShownIff(filter, tickets[j].status);
      }
    }

    /**
     * `submitTicket` once the form is sent: a new open ticket with the id of
     * the draw `n`, dated by the two clock reads, is added in front, and the
     * list is drawn again with every row shown.
     */
    method SubmitTicket(subject: string, category: string, priority: string, n: nat, created: string, updated: string)
      requires n < 1000
      modifies this`tickets, this`rowShown
      ensures Valid()
      ensures tickets == [NewTicket(TicketId(n), subject, category, priority, created, updated)] + old(tickets)
      ensures forall i :: 0 <= i < |rowShown| ==> rowShown[i]
    {
      AddNewTicket(NewTicket(TicketId(n), subject, category, priority, created, updated));
    }

    /** `toggleFAQ` on item `x`: every other item closes, and `x` opens exactly when it was closed. */
    method ToggleFaq(x: nat)
      requires x < faqActive.Length
      modifies faqActive
      ensures faqActive[x] == !old(faqActive[x])
      ensures forall j :: 0 <= j < faqActive.Length && j != x ==> !faqActive[j]
      ensures AtMostOneActive(faqActive[..])
    {
      var isActive := faqActive[x];
      for j := 0 to faqActive.Length
        invariant forall k :: 0 <= k < j ==> !faqActive[k]
      {
        faqActive[j] := false;
      }
      if !isActive {
        faqActive[x] := true;
      }
    }
  }
}
