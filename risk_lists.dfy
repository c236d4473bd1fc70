/**
 * The beneficiary risk lists: three titled sections of loan cards, each
 * card with a status badge coloured by a fixed status-to-token table, six
 * details and a "View Details" button. Sections show the lists passed in,
 * or the shipped lists where none is passed.
 */
module RiskLists {
  import opened Js

  datatype LoanItem = LoanItem(
    id: string, name: string, address: string, category: string, loanId: string, bank: string,
    status: string, assignedTo: string, documents: int, lastUpdated: string)

  // ---------------------------------------------------------------------
  // The shipped lists

  const HighRiskLoans: seq<LoanItem> :=
    [LoanItem("HR001", "Ramesh Kumar", "MG Road", "High Risk", "LN-98234", "SBI", "High Risk", "Officer A", 2, "2 hours ago")] +
    ([LoanItem("HR002", "Neha Verma", "Brigade Road", "High Risk", "LN-98299", "HDFC", "High Risk", "Officer D", 3, "30 mins ago")] +
     [LoanItem("HR003", "Manaswini Patro", "Jayadev Vihar", "High Priority", "9981345206", "Canara Bank", "High Priority", "Officer G", 1, "45 mins ago")])

  const PendingReviewLoans: seq<LoanItem> :=
    [LoanItem("PR005", "Swastik Kumar Purohit", "Danish Nagar", "Normal", "9861510432", "Punjab Bank", "Synced", "Officer B", 0, "Just now")] +
    ([LoanItem("PR006", "Kavita Joshi", "Civil Lines", "Normal", "LN-11229", "Axis Bank", "Pending", "Officer E", 1, "15 mins ago")] +
     ([LoanItem("PR007", "Aarav Mishra", "Shivaji Nagar", "Normal", "7345129081", "Bank of Baroda", "Pending", "Officer H", 2, "10 mins ago")] +
      ([LoanItem("PR008", "Sonal Tiwari", "Saket Nagar", "Normal", "9034572211", "SBI", "Approved", "Officer I", 3, "1 hour ago")] +
       [LoanItem("PR009", "Rahul Patra", "Old Town", "Normal", "8023114455", "ICICI", "Rejected", "Officer J", 1, "2 hours ago")])))

  const DeadlineCrossedLoans: seq<LoanItem> :=
    [LoanItem("DC010", "Anita Sharma", "Sector 12", "Overdue", "LN-77331", "BOI", "Deadline Crossed", "Officer C", 1, "1 day ago")] +
    [LoanItem("DC011", "Vikram Singh", "Ring Road", "Overdue", "LN-77345", "ICICI", "Deadline Crossed", "Officer F", 4, "3 days ago")]

  // ---------------------------------------------------------------------
  // Status badge colours

  /** The theme colour tokens a badge can use. */
  datatype ColorToken =
    | Error | ErrorContainer | Warning | WarningContainer | Success | SuccessContainer
    | Secondary | PrimaryContainer | Info | InfoContainer

  /** A badge's text and background colour. */
  datatype Tokens = Tokens(text: ColorToken, background: ColorToken)

  const StatusTokens: map<string, Tokens> := map[
    "High Risk" := Tokens(Error, ErrorContainer),
    "High Priority" := Tokens(Error, WarningContainer),
    "Pending" := Tokens(Warning, WarningContainer),
    "Synced" := Tokens(Success, SuccessContainer),
    "Approved" := Tokens(Success, SuccessContainer),
    "Rejected" := Tokens(Error, ErrorContainer),
    "Deadline Crossed" := Tokens(Secondary, PrimaryContainer)]

  const FallbackTokens := Tokens(Info, InfoContainer)

  /**
   * A card's badge colours: the table's pair for a listed status, `info` on
   * `infoContainer` for any other; defined for every status.
   */
  function BadgeTokens(status: string): (t: Tokens)
    ensures status in StatusTokens ==> t == StatusTokens[status]
    ensures status !in StatusTokens ==> t == FallbackTokens
  {
    if status in StatusTokens then StatusTokens[status] else FallbackTokens
  }

  /** The fallback pair is used exactly for the statuses the table does not list. */
  lemma FallbackExactlyForUnlisted(status: string)
    ensures BadgeTokens(status) == FallbackTokens <==> status !in StatusTokens
  {
    if status in StatusTokens {
      assert status == "High Risk" || status == "High Priority" || status == "Pending" || status == "Synced" ||
             status == "Approved" || status == "Rejected" || status == "Deadline Crossed";
    }
  }

  /** The table, entry by entry. */
  lemma ListedStatuses()
    ensures BadgeTokens("High Risk") == Tokens(Error, ErrorContainer)
    ensures BadgeTokens("High Priority") == Tokens(Error, WarningContainer)
    ensures BadgeTokens("Pending") == Tokens(Warning, WarningContainer)
    ensures BadgeTokens("Synced") == Tokens(Success, SuccessContainer)
    ensures BadgeTokens("Approved") == Tokens(Success, SuccessContainer)
    ensures BadgeTokens("Rejected") == Tokens(Error, ErrorContainer)
    ensures BadgeTokens("Deadline Crossed") == Tokens(Secondary, PrimaryContainer)
  {
  }

  // ---------------------------------------------------------------------
  // Cards and sections

  /** A detail's value: text, or a number rendered as is. */
  datatype DetailValue = Text(text: string) | Number(n: int)

  datatype Detail = Detail(caption: string, value: DetailValue)

  /** One loan card; `viewDetails` is what its "View Details" button hands to the callback. */
  datatype Card = Card(key: string, title: string, subtitle: string, badge: string, tokens: Tokens,
                       details: seq<Detail>, viewDetails: LoanItem)

  /** The detail captions of every card, in order. */
  const DetailLabels: seq<string> := ["Category", "Loan ID", "Bank", "Assigned Officer", "Documents", "Last Updated"]

  /**
   * `renderCard(item)`: keyed by the item's id, titled by its name over its
   * address, a badge with its status in `BadgeTokens` colours, the six details
   * Category, Loan ID, Bank, Assigned Officer, Documents, Last Updated with
   * the item's values, and a button that passes the item itself.
   */
  function CardOf(item: LoanItem): (c: Card)
    ensures c.key == item.id && c.title == item.name && c.subtitle == item.address
    ensures c.badge == item.status && c.tokens == BadgeTokens(item.status)
    ensures |c.details| == |DetailLabels| && forall i :: 0 <= i < |c.details| ==> c.details[i].caption == DetailLabels[i]
    ensures c.details[0].value == Text(item.category) && c.details[1].value == Text(item.loanId) &&
            c.details[2].value == Text(item.bank) && c.details[3].value == Text(item.assignedTo) &&
            c.details[4].value == Number(item.documents) && c.details[5].value == Text(item.lastUpdated)
    ensures c.viewDetails == item
  {
    var details := [
      Detail(DetailLabels[0], Text(item.category)),
      Detail(DetailLabels[1], Text(item.loanId)),
      Detail(DetailLabels[2], Text(item.bank)),
      Detail(DetailLabels[3], Text(item.assignedTo)),
      Detail(DetailLabels[4], Number(item.documents)),
      Detail(DetailLabels[5], Text(item.lastUpdated))];
    Card(item.id, item.name, item.address, item.status, BadgeTokens(item.status), details, item)
  }

  /** `data.map(renderCard)`: one card per item, in input order. */
  function Cards(data: seq<LoanItem>): (r: seq<Card>)
    ensures |r| == |data|
    ensures forall i :: 0 <= i < |data| ==> r[i] == CardOf(data[i])
  {
    if data == [] then [] else [CardOf(data[0])] + Cards(data[1..])
  }

  /** One section: its title, the count of its items, and their cards. */
  datatype SectionView = SectionView(title: string, countText: string, cards: seq<Card>)

  /** A section's header reads "<number of items> beneficiaries". */
  function SectionOf(title: string, data: seq<LoanItem>): (v: SectionView)
    ensures v.title == title
    ensures StartsWith(v.countText, Decimal(|data|)) && EndsWith(v.countText, " beneficiaries")
    ensures v.cards == Cards(data) && |v.cards| == |data|
  {
    SectionView(title, Decimal(|data|) + " beneficiaries", Cards(data))
  }

  /** The header's count reads back as the number of cards below it. */
  lemma SectionCountReadsBack(title: string, data: seq<LoanItem>)
    ensures var v := SectionOf(title, data);
      |v.countText| >= 14 && IsDigits(v.countText[..|v.countText| - 14]) &&
      ParseDecimal(v.countText[..|v.countText| - 14]) == |v.cards|
  {
    var v := SectionOf(title, data);
    assert v.countText[..|v.countText| - 14] == Decimal(|data|);
    ParseDecimalOfDecimal(|data|);
  }

  // ---------------------------------------------------------------------
  // The component

  /** The component's optional list props. */
  datatype Props = Props(
    highRiskData: Option<seq<LoanItem>>,
    pendingReviewData: Option<seq<LoanItem>>,
    deadlineCrossedData: Option<seq<LoanItem>>)

  /**
   * `BeneficiaryRiskLists`: the sections High Risk, Pending Review and
   * Deadline Crossed in that order, each showing its prop when one is given
   * (an empty list included) and the shipped list otherwise.
   */
  function RiskListsOf(p: Props): (v: seq<SectionView>)
    ensures |v| == 3
    ensures v[0].title == "High Risk" && v[1].title == "Pending Review" && v[2].title == "Deadline Crossed"
    ensures v[0].cards == Cards(if p.highRiskData.Some? then p.highRiskData.value else HighRiskLoans)
    ensures v[1].cards == Cards(if p.pendingReviewData.Some? then p.pendingReviewData.value else PendingReviewLoans)
    ensures v[2].cards == Cards(if p.deadlineCrossedData.Some? then p.deadlineCrossedData.value else DeadlineCrossedLoans)
  {
    [SectionOf("High Risk", p.highRiskData.OrElse(HighRiskLoans))] +
    ([SectionOf("Pending Review", p.pendingReviewData.OrElse(PendingReviewLoans))] +
     [SectionOf("Deadline Crossed", p.deadlineCrossedData.OrElse(DeadlineCrossedLoans))])
  }

  /** An empty list passed in is shown as an empty section, not replaced by the shipped list. */
  lemma EmptyPropIsKept(p: Props)
    requires p.pendingReviewData == Some([])
    ensures RiskListsOf(p)[1].cards == []
  {
  }

  /** Without props, the sections hold 3, 5 and 2 cards. */
  lemma DefaultSectionSizes()
    ensures |RiskListsOf(Props(None, None, None))[0].cards| == 3
    ensures |RiskListsOf(Props(None, None, None))[1].cards| == 5
    ensures |RiskListsOf(Props(None, None, None))[2].cards| == 2
  {
  }

  /** Every status in the shipped lists has its own entry in the table, so no shipped card uses the fallback. */
  lemma ShippedStatusesListed()
    ensures forall i :: 0 <= i < |HighRiskLoans| ==> HighRiskLoans[i].status in StatusTokens
    ensures forall i :: 0 <= i < |PendingReviewLoans| ==> PendingReviewLoans[i].status in StatusTokens
    ensures forall i :: 0 <= i < |DeadlineCrossedLoans| ==> DeadlineCrossedLoans[i].status in StatusTokens
  {
  }

  /**
   * Pressing a card's "View Details": the card's own item goes to the
   * callback when one was passed; without a callback nothing happens.
   */
  function ViewDetailsPressed(hasCallback: bool, c: Card): (r: Option<LoanItem>)
    ensures r.Some? <==> hasCallback
    ensures r.Some? ==> r.value == c.viewDetails
  {
    if hasCallback then Some(c.viewDetails) else None
  }

  /** The item a card's button passes on is the item at that card's position. */
  lemma ViewDetailsPassesOwnItem(data: seq<LoanItem>, i: nat)
    requires i < |data|
    ensures ViewDetailsPressed(true, Cards(data)[i]) == Some(data[i])
  {
  }
}
