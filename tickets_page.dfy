/**
 * The support tickets page (src/pages/TicketsPage.tsx): the new-ticket form and its
 * submission, the status tabs, the status and priority badges and the empty-list
 * copy. The database insert is a parameter: it either fails or hands back the
 * server-side fields of the stored row.
 */
module TicketsPage {
  import opened Wrappers
  import opened Types
  import opened Seqs
  import opened Text

  datatype TicketStatus = Open | InProgress | Resolved
  datatype Priority = Low | Medium | High

  function StatusKey(s: TicketStatus): string {
    match s
    case Open => "open"
    case InProgress => "in_progress"
    case Resolved => "resolved"
  }

  function PriorityKey(p: Priority): string {
    match p
    case Low => "low"
    case Medium => "medium"
    case High => "high"
  }

  datatype Ticket = Ticket(
    id: string, userId: string, title: string, description: string,
    status: TicketStatus, priority: Priority, createdAt: string, updatedAt: string)

  datatype FormData = FormData(title: string, description: string, priority: Priority)

  /** The form as it starts and as a successful submission leaves it. */
  const EmptyForm := FormData("", "", Medium)

  /** The row sent to the `tickets` table. */
  datatype InsertRow = InsertRow(userId: string, title: string, description: string, priority: Priority, status: TicketStatus)

  /** What the insert answers: an error, or the id and timestamp the server gave the row. */
  datatype InsertOutcome = InsertFailed | Inserted(id: string, createdAt: string)

  // ----- validation -----

  /**
   * A form can be submitted when neither the title nor the description is empty after
   * trimming, that is, exactly when neither is all whitespace.
   */
  predicate CanSubmit(form: FormData)
    ensures CanSubmit(form) <==> !IsBlank(form.title) && !IsBlank(form.description)
  {
    TrimEmptyIffBlank(form.title);
    TrimEmptyIffBlank(form.description);
    Trim(form.title) != "" && Trim(form.description) != ""
  }

  /** The row a submission sends: the user, the untrimmed title and description, the chosen priority, status open. */
  function RowFor(user: UserProfile, form: FormData): (row: InsertRow)
    ensures row.status == Open && row.priority == form.priority && row.userId == user.id
    ensures row.title == form.title && row.description == form.description
  {
    InsertRow(user.id, form.title, form.description, form.priority, Open)
  }

  /** The ticket the insert hands back: the row as sent, with the server's id and timestamps. */
  function Stored(row: InsertRow, id: string, createdAt: string): (t: Ticket)
    ensures t.status == row.status && t.priority == row.priority
    ensures t.userId == row.userId && t.title == row.title && t.description == row.description
    ensures t.id == id && t.createdAt == createdAt
  {
    Ticket(id, row.userId, row.title, row.description, row.status, row.priority, createdAt, createdAt)
  }

  // ----- tabs -----

  function HasStatus(s: TicketStatus): Ticket -> bool {
    (t: Ticket) => t.status == s
  }

  function NotStatus(s: TicketStatus): Ticket -> bool {
    (t: Ticket) => t.status != s
  }

  /** The list behind each tab: "all" shows every ticket, a status tab the tickets with that status. */
  function TabTickets(tickets: seq<Ticket>, tab: Option<TicketStatus>): (r: seq<Ticket>)
    ensures tab.None? ==> r == tickets
    ensures tab.Some? ==> forall t :: t in r <==> t in tickets && t.status == tab.value
  {
    if tab.None? then tickets else Filter(HasStatus(tab.value), tickets)
  }

  /**
   * The open, in-progress and resolved tabs partition the "all" tab: together they
   * hold every ticket exactly as often as the full list does.
   */
  lemma TabsPartition(tickets: seq<Ticket>)
    ensures |TabTickets(tickets, Some(Open))| + |TabTickets(tickets, Some(InProgress))|
          + |TabTickets(tickets, Some(Resolved))| == |tickets|
    ensures multiset(TabTickets(tickets, Some(Open))) + multiset(TabTickets(tickets, Some(InProgress)))
          + multiset(TabTickets(tickets, Some(Resolved))) == multiset(tickets)
  {
    var rest := Filter(NotStatus(Open), tickets);
    FilterSplits(HasStatus(Open), NotStatus(Open), tickets);
    FilterSplits(HasStatus(InProgress), NotStatus(InProgress), rest);
    FilterFilter(NotStatus(Open), HasStatus(InProgress), HasStatus(InProgress), tickets);
    FilterFilter(NotStatus(Open), NotStatus(InProgress), HasStatus(Resolved), tickets);
  }

  // ----- badges -----

  datatype Badge = Badge(caption: string, color: string)

  /** getStatusBadge: a badge for the three statuses, nothing for any other string. */
  function StatusBadge(status: string): (b: Option<Badge>)
    ensures b.None? <==> status != "open" && status != "in_progress" && status != "resolved"
  {
    if status == "open" then Some(Badge("Open", "blue"))
    else if status == "in_progress" then Some(Badge("In Progress", "yellow"))
    else if status == "resolved" then Some(Badge("Resolved", "green"))
    else None
  }

  /** getPriorityBadge: a badge for the three priorities, nothing for any other string. */
  function PriorityBadge(priority: string): (b: Option<Badge>)
    ensures b.None? <==> priority != "low" && priority != "medium" && priority != "high"
  {
    if priority == "low" then Some(Badge("Low", "gray"))
    else if priority == "medium" then Some(Badge("Medium", "amber"))
    else if priority == "high" then Some(Badge("High", "red"))
    else None
  }

  /** Every stored ticket shows both badges, and different statuses show different labels. */
  lemma EveryTicketHasBadges(t: Ticket, u: Ticket)
    ensures StatusBadge(StatusKey(t.status)).Some? && PriorityBadge(PriorityKey(t.priority)).Some?
    ensures t.status != u.status ==> StatusBadge(StatusKey(t.status)) != StatusBadge(StatusKey(u.status))
  {
  }

  // ----- rendering a tab -----

  /** What a tab shows: the spinner, the empty state (its copy, and whether it offers the create button), or the cards. */
  datatype TabView = Spinner | EmptyState(copy: string, offersCreate: bool) | Cards(tickets: seq<Ticket>)

  const NoTicketsYet := "You haven't created any support tickets yet."
  const NoTicketsMatch := "No tickets match the selected filter."

  /** renderTickets */
  function RenderTickets(shown: seq<Ticket>, all: seq<Ticket>, loading: bool): (v: TabView)
    ensures v.Spinner? <==> loading && all == []
    ensures v.Cards? <==> !(loading && all == []) && shown != []
    ensures v.Cards? ==> v.tickets == shown
  {
    if loading && all == [] then Spinner
    else if shown == [] then
      EmptyState(if all == [] then NoTicketsYet else NoTicketsMatch, all == [])
    else Cards(shown)
  }

  /**
   * Outside the first load, a tab says "You haven't created any support tickets yet."
   * (and offers the create button) exactly when there are no tickets at all, and says
   * that nothing matches exactly when there are tickets but none in this tab.
   */
  lemma EmptyStateChoice(tickets: seq<Ticket>, tab: Option<TicketStatus>, loading: bool)
    requires !(loading && tickets == [])
    ensures RenderTickets(TabTickets(tickets, tab), tickets, loading) == EmptyState(NoTicketsYet, true)
        <==> tickets == []
    ensures RenderTickets(TabTickets(tickets, tab), tickets, loading) == EmptyState(NoTicketsMatch, false)
        <==> tickets != [] && TabTickets(tickets, tab) == []
  {
    if tickets == [] {
      assert TabTickets(tickets, tab) == [];
    }
  }

  // ----- page state -----

  class TicketsState {
    var loading: bool
    var tickets: seq<Ticket>
    var showForm: bool
    var formData: FormData

    constructor ()
      ensures !loading && tickets == [] && !showForm && formData == EmptyForm
    {
      loading := false;
      tickets := [];
      showForm := false;
      formData := EmptyForm;
    }

    /** handleInputChange: the input named "title" or "description" sets that field. */
    method HandleInputChange(name: string, value: string)
      modifies this`formData
      ensures name == "title" ==> formData == old(formData).(title := value)
      ensures name == "description" ==> formData == old(formData).(description := value)
      ensures name != "title" && name != "description" ==> formData == old(formData)
    {
      if name == "title" {
        formData := formData.(title := value);
      } else if name == "description" {
        formData := formData.(description := value);
      }
    }

    /** handlePriorityChange */
    method HandlePriorityChange(p: Priority)
      modifies this`formData
      ensures formData == old(formData).(priority := p)
    {
      formData := formData.(priority := p);
    }

    /** The "New Ticket" and "Create Your First Ticket" buttons, and "Cancel". */
    method SetShowForm(show: bool)
      modifies this`showForm
      ensures showForm == show
    {
      showForm := show;
    }

    /**
     * handleSubmit. Without a user, or with a blank title or description, nothing
     * is sent and nothing changes. Otherwise the row is sent; on success the stored
     * ticket goes in front of the others and the form is reset and hidden, on
     * failure the tickets and the form stay as they were; loading ends false.
     */
    method HandleSubmit(user: Option<UserProfile>, outcome: InsertOutcome) returns (sent: Option<InsertRow>)
      modifies this
      ensures user.None? || !CanSubmit(old(formData)) ==>
        sent.None? && loading == old(loading) && tickets == old(tickets)
        && showForm == old(showForm) && formData == old(formData)
      ensures user.Some? && CanSubmit(old(formData)) ==>
        sent == Some(RowFor(user.value, old(formData))) && !loading
      ensures user.Some? && CanSubmit(old(formData)) && outcome.Inserted? ==>
        && tickets == [Stored(sent.value, outcome.id, outcome.createdAt)] + old(tickets)
        && formData == EmptyForm && !showForm
      ensures user.Some? && CanSubmit(old(formData)) && outcome.InsertFailed? ==>
        tickets == old(tickets) && formData == old(formData) && showForm == old(showForm)
    {
      if user.None? {
        return None;
      }
      if Trim(formData.title) == "" || Trim(formData.description) == "" {
        return None;
      }
      loading := true;
      var row := RowFor(user.value, formData);
      sent := Some(row);
      match outcome {
        case Inserted(id, createdAt) =>
          tickets := [Stored(row, id, createdAt)] + tickets;
          formData := EmptyForm;
          showForm := false;
        case InsertFailed =>
      }
      loading := false;
    }
  }

  /** After a successful submission the new ticket leads the list, open and with the chosen priority, and the older tickets follow in their order. */
  lemma SubmittedTicketLeads(user: UserProfile, form: FormData, id: string, createdAt: string, before: seq<Ticket>)
    ensures var after := [Stored(RowFor(user, form), id, createdAt)] + before;
      && after[0].status == Open && after[0].priority == form.priority
      && after[0].title == form.title && after[0].userId == user.id
      && after[1..] == before
      && TabTickets(after, Some(Open)) == [after[0]] + TabTickets(before, Some(Open))
  {
    var after := [Stored(RowFor(user, form), id, createdAt)] + before;
    assert after[1..] == before;
  }
}
