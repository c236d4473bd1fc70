/**
 * The officer dashboard's logic: the three collapsible alert sections and
 * their open/closed record, the alert chips with their zero-padded counts
 * and the list each opens, the officer header's fallbacks, and the route a
 * loan's details open.
 */
module Dashboard {
  import opened Js
  import opened RiskLists

  // ---------------------------------------------------------------------
  // Collapsible alert sections

  /** The keys 'high', 'pending' and 'deadline'. */
  datatype SectionKey = HighSection | PendingSection | DeadlineSection

  /** The `openSections` record. */
  datatype OpenSections = OpenSections(high: bool, pending: bool, deadline: bool)

  /** Every section starts open. */
  const InitiallyOpen := OpenSections(true, true, true)

  function IsOpen(o: OpenSections, k: SectionKey): bool {
    match k
    case HighSection => o.high
    case PendingSection => o.pending
    case DeadlineSection => o.deadline
  }

  /** `{ ...prev, [key]: !prev[key] }`: the one key flipped, the other two as they were. */
  function Toggled(o: OpenSections, k: SectionKey): (r: OpenSections)
    ensures IsOpen(r, k) == !IsOpen(o, k)
    ensures forall j :: j != k ==> IsOpen(r, j) == IsOpen(o, j)
  {
    match k
    case HighSection => o.(high := !o.high)
    case PendingSection => o.(pending := !o.pending)
    case DeadlineSection => o.(deadline := !o.deadline)
  }

  /** A record is determined by what it says about each key. */
  lemma SameOpenness(a: OpenSections, b: OpenSections)
    requires forall k :: IsOpen(a, k) == IsOpen(b, k)
    ensures a == b
  {
    assert IsOpen(a, HighSection) == IsOpen(b, HighSection);
    assert IsOpen(a, PendingSection) == IsOpen(b, PendingSection);
    assert IsOpen(a, DeadlineSection) == IsOpen(b, DeadlineSection);
  }

  /** Toggling the same section twice restores the record. */
  lemma ToggleTwice(o: OpenSections, k: SectionKey)
    ensures Toggled(Toggled(o, k), k) == o
  {
    SameOpenness(Toggled(Toggled(o, k), k), o);
  }

  /** Toggles of different sections do not interfere: their order does not matter. */
  lemma TogglesCommute(o: OpenSections, j: SectionKey, k: SectionKey)
    ensures Toggled(Toggled(o, j), k) == Toggled(Toggled(o, k), j)
  {
    SameOpenness(Toggled(Toggled(o, j), k), Toggled(Toggled(o, k), j));
  }

  /** The dashboard's one piece of mutable state. */
  class DashboardScreen {
    var openSections: OpenSections

    constructor ()
      ensures openSections == InitiallyOpen
    {
      openSections := InitiallyOpen;
    }

    /** `toggleSection(key)`, pressed on a section's header. */
    method ToggleSection(key: SectionKey)
      modifies this`openSections
      ensures openSections == Toggled(old(openSections), key)
    {
      match key {
        case HighSection => openSections := openSections.(high := !openSections.high);
        case PendingSection => openSections := openSections.(pending := !openSections.pending);
        case DeadlineSection => openSections := openSections.(deadline := !openSections.deadline);
      }
    }
  }

  datatype Chevron = ChevronUp | ChevronDown

  /** One loan's row in an open alert section. */
  datatype AlertRow = AlertRow(key: string, name: string, loanIdText: string, bankText: string,
                               lastUpdatedText: string, status: string)

  function AlertRowOf(item: LoanItem): (r: AlertRow)
    ensures r.key == item.id && r.name == item.name && r.status == item.status
    ensures r.loanIdText == "Loan ID: " + item.loanId && r.bankText == "Bank: " + item.bank
    ensures r.lastUpdatedText == "Last Updated: " + item.lastUpdated
  {
    AlertRow(item.id, item.name, "Loan ID: " + item.loanId, "Bank: " + item.bank,
             "Last Updated: " + item.lastUpdated, item.status)
  }

  function AlertRows(data: seq<LoanItem>): (r: seq<AlertRow>)
    ensures |r| == |data| && forall i :: 0 <= i < |data| ==> r[i] == AlertRowOf(data[i])
  {
    if data == [] then [] else [AlertRowOf(data[0])] + AlertRows(data[1..])
  }

  /** An alert section: header with title, "<n> items" and a chevron, and a body only while open. */
  datatype AlertCard = AlertCard(key: SectionKey, title: string, countText: string, chevron: Chevron,
                                 body: Option<seq<AlertRow>>)

  /**
   * `renderAlertCard`: the count is always shown; the body, one row per
   * item in order, is rendered exactly when the section is open, and the
   * chevron points up exactly then.
   */
  function AlertCardOf(o: OpenSections, key: SectionKey, title: string, data: seq<LoanItem>): (c: AlertCard)
    ensures c.key == key && c.title == title
    ensures c.countText == Decimal(|data|) + " items"
    ensures c.body.Some? <==> IsOpen(o, key)
    ensures c.chevron == ChevronUp <==> IsOpen(o, key)
    ensures c.body.Some? ==> c.body.value == AlertRows(data) && |c.body.value| == |data|
  {
    var open := IsOpen(o, key);
    AlertCard(key, title, Decimal(|data|) + " items", if open then ChevronUp else ChevronDown,
              if open then Some(AlertRows(data)) else None)
  }

  /** The alert sections in screen order, over the shipped lists. */
  function AlertCards(o: OpenSections): (r: seq<AlertCard>)
    ensures |r| == 3
    ensures r[0].key == HighSection && r[1].key == PendingSection && r[2].key == DeadlineSection
    ensures r[0].title == "High Risk" && r[1].title == "Pending Review" && r[2].title == "Deadline Crossed"
    ensures forall i :: 0 <= i < 3 ==> (r[i].body.Some? <==> IsOpen(o, r[i].key))
    ensures r[0].countText == Decimal(|HighRiskLoans|) + " items" &&
            r[1].countText == Decimal(|PendingReviewLoans|) + " items" &&
            r[2].countText == Decimal(|DeadlineCrossedLoans|) + " items"
  {
    [AlertCardOf(o, HighSection, "High Risk", HighRiskLoans)] +
    ([AlertCardOf(o, PendingSection, "Pending Review", PendingReviewLoans)] +
     [AlertCardOf(o, DeadlineSection, "Deadline Crossed", DeadlineCrossedLoans)])
  }

  /** Toggling one section changes that section's card and leaves the other two as drawn. */
  lemma ToggleRedrawsOneCard(o: OpenSections, k: SectionKey, i: nat)
    requires i < 3
    ensures (AlertCards(Toggled(o, k))[i] == AlertCards(o)[i]) <==> AlertCards(o)[i].key != k
  {
    var before := AlertCards(o)[i];
    var after := AlertCards(Toggled(o, k))[i];
    if before.key == k {
      assert after.chevron != before.chevron;
    }
  }

  // ---------------------------------------------------------------------
  // Alert chips

  /** `n.toString().padStart(2, '0')`. */
  function ChipCount(n: nat): (s: string)
    ensures IsDigits(s) && ParseDecimal(s) == n
    ensures |s| == if n < 10 then 2 else |Decimal(n)|
    ensures n < 10 ==> s == ['0', DigitChar(n)]
    ensures n >= 10 ==> s == Decimal(n)
  {
    ParsePadded(n, 2);
    PadStart(Decimal(n), 2, '0')
  }

  /** Counts of 100 or more keep all their digits: the pad never truncates. */
  lemma ChipCountKeepsAllDigits(n: nat)
    requires n >= 100
    ensures |ChipCount(n)| >= 3
  {
    assert Decimal(n) == Decimal(n / 10) + [DigitChar(n % 10)];
  }

  /** What a chip opens: the verification tasks, filtered. */
  datatype Route = VerificationTasks(filter: string, loanId: Option<string>)

  datatype AlertChip = AlertChip(title: string, count: string, opens: Route)

  /** The chip row, in order, counting the shipped lists. */
  function AlertChips(): (r: seq<AlertChip>)
    ensures |r| == 3
    ensures r[0].title == "High Risk" && r[1].title == "Pending Review" && r[2].title == "Deadline Crossed"
    ensures r[0].opens == VerificationTasks("highRisk", None) && r[1].opens == VerificationTasks("pending", None) &&
            r[2].opens == VerificationTasks("deadline", None)
    ensures forall i :: 0 <= i < 3 ==> IsDigits(r[i].count) && |r[i].count| >= 2
    ensures ParseDecimal(r[0].count) == |HighRiskLoans| && ParseDecimal(r[1].count) == |PendingReviewLoans| &&
            ParseDecimal(r[2].count) == |DeadlineCrossedLoans|
  {
    [AlertChip("High Risk", ChipCount(|HighRiskLoans|), VerificationTasks("highRisk", None))] +
    ([AlertChip("Pending Review", ChipCount(|PendingReviewLoans|), VerificationTasks("pending", None))] +
     [AlertChip("Deadline Crossed", ChipCount(|DeadlineCrossedLoans|), VerificationTasks("deadline", None))])
  }

  /** With the shipped lists the chips read "03", "05" and "02". */
  lemma ShippedChipCounts()
    ensures AlertChips()[0].count == "03"
    ensures AlertChips()[1].count == "05"
    ensures AlertChips()[2].count == "02"
  {
    assert |HighRiskLoans| == 3 && |PendingReviewLoans| == 5 && |DeadlineCrossedLoans| == 2;
  }

  /** Each chip's count agrees with its section's header count, read as a number. */
  lemma ChipsAgreeWithSections(o: OpenSections, i: nat)
    requires i < 3
    ensures ParseDecimal(AlertChips()[i].count) ==
            ParseDecimal(AlertCards(o)[i].countText[..|AlertCards(o)[i].countText| - 6])
  {
    var c := AlertCards(o)[i];
    var n := [|HighRiskLoans|, |PendingReviewLoans|, |DeadlineCrossedLoans|][i];
    assert c.countText[..|c.countText| - 6] == Decimal(n);
    ParseDecimalOfDecimal(n);
  }

  // ---------------------------------------------------------------------
  // Officer header and loan details

  /** The signed-in profile's optional fields. */
  datatype Profile = Profile(name: Option<string>, id: Option<string>, region: Option<string>)

  datatype OfficerHeader = OfficerHeader(name: string, id: string, region: string)

  /**
   * The header: each field from the profile when present (an empty string
   * included), else 'District Officer', 'OFF-2024-001' and 'Bhopal Division'.
   */
  function OfficerHeaderOf(profile: Option<Profile>): (h: OfficerHeader)
    ensures profile.None? ==> h == OfficerHeader("District Officer", "OFF-2024-001", "Bhopal Division")
    ensures profile.Some? ==>
              h.name == profile.value.name.OrElse("District Officer") &&
              h.id == profile.value.id.OrElse("OFF-2024-001") &&
              h.region == profile.value.region.OrElse("Bhopal Division")
  {
    match profile
    case None => OfficerHeader("District Officer", "OFF-2024-001", "Bhopal Division")
    case Some(p) => OfficerHeader(p.name.OrElse("District Officer"), p.id.OrElse("OFF-2024-001"),
                                  p.region.OrElse("Bhopal Division"))
  }

  /** `handleViewDetails(loan)`: the verification tasks filtered by the loan's status, for that loan. */
  function ViewDetailsRoute(loan: LoanItem): (r: Route)
    ensures r.filter == loan.status && r.loanId == Some(loan.loanId)
  {
    VerificationTasks(loan.status, Some(loan.loanId))
  }

  /**
   * Were `handleViewDetails` passed as a risk-list card's `onViewDetails`
   * (nothing in the dashboard does so), pressing the card's button would open
   * the tasks for that card's own loan.
   */
  lemma WiredViewDetailsOpensItsLoan(data: seq<LoanItem>, i: nat)
    requires i < |data|
    ensures var picked := ViewDetailsPressed(true, Cards(data)[i]);
      picked.Some? && ViewDetailsRoute(picked.value) == VerificationTasks(data[i].status, Some(data[i].loanId))
  {
  }
}
