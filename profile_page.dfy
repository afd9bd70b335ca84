/**
 * The logic of the profile page (`src/app/profile/page.tsx`) without its
 * markup: how the employee type and the contract table are derived from the
 * profile, how a redacted field is shown, how the payslip list is fetched and
 * which of its four panels is shown, what a payslip download asks for, and
 * when the page sends the visitor to `/login`.
 */
module ProfilePage {
  import opened Options
  import opened JsStrings
  import opened Types
  import EdgeRequest
  import Proxy
  import AuthContext

  // ---------------------------------------------------------------------------
  // Employee type

  const NotSpecified: string := "Not specified"
  const FulltimeLabel: string := "Fulltime"
  const ContractualLabel: string := "Contractual"

  /** `contracts.some((c) => c.type === 'fulltime')`. */
  function SomeFulltime(contracts: seq<Contract>): (b: bool)
    ensures b <==> exists i :: 0 <= i < |contracts| && contracts[i].Fulltime?
  {
    if contracts == [] then false
    else contracts[0].Fulltime? || SomeFulltime(contracts[1..])
  }

  /**
   * `employeeType`: "Not specified" without contracts, "Fulltime" if any
   * contract is full-time, "Contractual" if all are client staffing.
   */
  function EmployeeType(contractDetails: Option<seq<Contract>>): (kind: string)
    ensures kind == NotSpecified <==> contractDetails.None? || contractDetails.value == []
    ensures kind == FulltimeLabel <==> contractDetails.Some? && exists c :: c in contractDetails.value && c.Fulltime?
    ensures kind == ContractualLabel <==>
              contractDetails.Some? && contractDetails.value != [] && forall c :: c in contractDetails.value ==> c.ClientStaffing?
  {
    match contractDetails
    case None => NotSpecified
    case Some(cs) =>
      if |cs| > 0 then (if SomeFulltime(cs) then FulltimeLabel else ContractualLabel)
      else NotSpecified
  }

  // ---------------------------------------------------------------------------
  // Contract details table

  /**
   * Whether the "Contract Details" section is rendered: only when the FIRST
   * contract is client staffing. A shown section is never empty, and the
   * employee type beside it is never "Not specified".
   */
  predicate ContractSectionShown(contractDetails: Option<seq<Contract>>)
    ensures ContractSectionShown(contractDetails) ==>
              contractDetails.Some? && ContractRows(contractDetails.value) != []
              && EmployeeType(contractDetails) != NotSpecified
  {
    contractDetails.Some? && |contractDetails.value| > 0 && contractDetails.value[0].ClientStaffing?
  }

  /**
   * One row of the table: location, extension number and duration, each
   * `|| ''`, and the start and optional end date (their formatting is not
   * modelled).
   */
  datatype ContractRow = ContractRow(location: string, extension: string, duration: string,
                                     dateStart: string, dateEnd: Option<string>)

  /**
   * The row a client-staffing contract renders as: each text cell is blank
   * exactly when its field is missing or empty, and otherwise shows that
   * field; the dates go to the formatter as they are.
   */
  function RowOf(c: Contract): (row: ContractRow)
    requires c.ClientStaffing?
    ensures row.location == "" <==> !IsTruthy(c.deputationLocation)
    ensures row.extension == "" <==> !IsTruthy(c.extensionNumber)
    ensures row.duration == "" <==> !IsTruthy(c.duration)
    ensures IsTruthy(c.deputationLocation) ==> row.location == c.deputationLocation.value
    ensures IsTruthy(c.extensionNumber) ==> row.extension == c.extensionNumber.value
    ensures IsTruthy(c.duration) ==> row.duration == c.duration.value
    ensures row.dateStart == c.dateStart && row.dateEnd == c.dateEnd
  {
    ContractRow(OrEmpty(c.deputationLocation), OrEmpty(c.extensionNumber), OrEmpty(c.duration), c.dateStart, c.dateEnd)
  }

  /**
   * The body of the table: the map over all contracts in which a full-time
   * contract renders as nothing. There is one row per client-staffing
   * contract, and nothing else.
   */
  function ContractRows(contracts: seq<Contract>): (rows: seq<ContractRow>)
    ensures |rows| <= |contracts|
    ensures forall c :: c in contracts && c.ClientStaffing? ==> RowOf(c) in rows
    ensures forall r :: r in rows ==> exists c :: c in contracts && c.ClientStaffing? && r == RowOf(c)
    ensures (forall c :: c in contracts ==> c.ClientStaffing?) ==> |rows| == |contracts|
  {
    if contracts == [] then []
    else
      var rest := ContractRows(contracts[1..]);
      assert forall c :: c in contracts[1..] ==> c in contracts;
      if contracts[0].ClientStaffing? then [RowOf(contracts[0])] + rest else rest
  }

  /** Rows keep the order of the contracts: the table of two lists joined is the two tables joined. */
  lemma {:induction false} ContractRowsAppend(a: seq<Contract>, b: seq<Contract>)
    ensures ContractRows(a + b) == ContractRows(a) + ContractRows(b)
    decreases |a|
  {
    if a == [] {
      assert a + b == b;
    } else {
      assert (a + b)[1..] == a[1..] + b;
      ContractRowsAppend(a[1..], b);
    }
  }

  /** When the section is shown, its first row is the first contract's. */
  lemma ShownSectionStartsWithFirstContract(contractDetails: Option<seq<Contract>>)
    requires ContractSectionShown(contractDetails)
    ensures var rows := ContractRows(contractDetails.value);
            |rows| > 0 && rows[0] == RowOf(contractDetails.value[0])
  {
  }

  /** A profile whose first contract is full-time shows no section, even if later contracts are client staffing. */
  lemma FulltimeFirstHidesSection(first: Contract, later: seq<Contract>)
    requires first.Fulltime?
    ensures !ContractSectionShown(Some([first] + later))
  {
  }

  // ---------------------------------------------------------------------------
  // Redacted fields

  /** The `blurPercent` a `RedactedField` gets when none is given. */
  const DefaultBlurPercent: int := 50

  /** `Math.max(0, Math.min(100, blurPercent))`, on integers. */
  function BlurStrength(blurPercent: int): (strength: int)
    ensures 0 <= strength <= 100
    ensures 0 <= blurPercent <= 100 ==> strength == blurPercent
    ensures blurPercent < 0 ==> strength == 0
    ensures blurPercent > 100 ==> strength == 100
  {
    var capped := if blurPercent < 100 then blurPercent else 100;
    if capped > 0 then capped else 0
  }

  /** What a redacted field renders. */
  datatype FieldView = NotProvided | Blurred(text: string, strength: int) | Revealed(text: string)

  /** "Not provided" for a missing or empty value, else the value, blurred until revealed. */
  function RenderField(value: Option<string>, blurPercent: int, revealed: bool): (view: FieldView)
    ensures view == NotProvided <==> !IsTruthy(value)
    ensures view.Blurred? <==> IsTruthy(value) && !revealed
    ensures view.Blurred? ==> view.text == value.value && view.strength == BlurStrength(blurPercent)
    ensures view.Revealed? ==> view.text == value.value && revealed
  {
    if !IsTruthy(value) then NotProvided
    else if revealed then Revealed(value.value)
    else Blurred(value.value, BlurStrength(blurPercent))
  }

  /** A field given no `blurPercent` is blurred at half strength until it is revealed. */
  lemma DefaultBlurIsHalf(text: string)
    requires text != ""
    ensures RenderField(Some(text), DefaultBlurPercent, false) == Blurred(text, 50)
  {
  }

  /** A click swaps the blurred and the revealed view of the same text. */
  lemma ClickSwapsView(value: Option<string>, blurPercent: int, revealed: bool)
    requires IsTruthy(value)
    ensures RenderField(value, blurPercent, !revealed).Revealed? <==> RenderField(value, blurPercent, revealed).Blurred?
    ensures RenderField(value, blurPercent, !revealed).text == RenderField(value, blurPercent, revealed).text
  {
  }

  /** A `RedactedField` component: its props and its one piece of state, `revealed`. */
  class RedactedField {
    const value: Option<string>
    const blurPercent: int
    var revealed: bool

    /** A field starts out blurred. */
    constructor (value: Option<string>, blurPercent: int)
      ensures this.value == value && this.blurPercent == blurPercent && !revealed
    {
      this.value := value;
      this.blurPercent := blurPercent;
      revealed := false;
    }

    /** What the field renders now. */
    function View(): FieldView
      reads this
    {
      RenderField(value, blurPercent, revealed)
    }

    /** The button's `onClick`. There is a button only when a value is shown. */
    method Click()
      requires IsTruthy(value)
      modifies this
      ensures revealed == !old(revealed)
      ensures View() == RenderField(value, blurPercent, !old(revealed))
    {
      revealed := !revealed;
    }
  }

  /** Two clicks bring a field back to what it showed before. */
  method ClickTwice(field: RedactedField)
    requires IsTruthy(field.value)
    modifies field
    ensures field.revealed == old(field.revealed) && field.View() == old(field.View())
  {
    field.Click();
    field.Click();
  }

  // ---------------------------------------------------------------------------
  // Payslips

  /** The page's `payslips`, `payslipsLoading` and `payslipsError` state. */
  datatype PayslipsState = PayslipsState(payslips: seq<Payslip>, loading: bool, error: Option<string>)

  /** How `GET /api/v1/payslips/list` turned out. */
  datatype ListOutcome = ListOk(payslips: seq<Payslip>) | ListFail

  const LoadPayslipsError: string := "Failed to load payslips"

  /** The payslip state when the page first renders. */
  const InitialPayslips: PayslipsState := PayslipsState([], false, None)

  /**
   * `fetchPayslips`: nothing without a token; otherwise the list is replaced
   * on success, the error is set on failure, and loading ends either way.
   */
  function AfterFetchPayslips(st: PayslipsState, token: Option<string>, outcome: ListOutcome): (t: PayslipsState)
    ensures !IsTruthy(token) ==> t == st
  {
    if !IsTruthy(token) then st
    else
      var started := st.(loading := true, error := None);
      match outcome
      case ListOk(ps) => started.(payslips := ps, loading := false)
      case ListFail => started.(error := Some(LoadPayslipsError), loading := false)
  }

  /** A successful fetch replaces the list wholesale and clears any earlier error. */
  lemma FetchSuccessReplacesList(st: PayslipsState, token: Option<string>, ps: seq<Payslip>)
    requires IsTruthy(token)
    ensures AfterFetchPayslips(st, token, ListOk(ps)) == PayslipsState(ps, false, None)
  {
  }

  /** A failed fetch keeps the old list and reports the fixed message. */
  lemma FetchFailureKeepsList(st: PayslipsState, token: Option<string>)
    requires IsTruthy(token)
    ensures AfterFetchPayslips(st, token, ListFail) == PayslipsState(st.payslips, false, Some(LoadPayslipsError))
  {
  }

  /** The four ways the payslip panel can look. */
  datatype PayslipPanelView = LoadingPayslips | ErrorWithRetry(message: string) | PayslipCards(items: seq<Payslip>) | NoPayslips

  /** The panel's branch, tried in order: loading, error, a non-empty list, the empty notice. */
  function PanelView(st: PayslipsState): (view: PayslipPanelView)
    ensures view == LoadingPayslips <==> st.loading
    ensures view.ErrorWithRetry? <==> !st.loading && IsTruthy(st.error)
    ensures view.ErrorWithRetry? ==> view.message == st.error.value
    ensures view.PayslipCards? ==> view.items == st.payslips && st.payslips != []
    ensures view == NoPayslips <==> !st.loading && !IsTruthy(st.error) && st.payslips == []
  {
    if st.loading then LoadingPayslips
    else if IsTruthy(st.error) then ErrorWithRetry(st.error.value)
    else if |st.payslips| > 0 then PayslipCards(st.payslips)
    else NoPayslips
  }

  /**
   * What the panel shows after a fetch with a token: the retry prompt after a
   * failure (whatever list was there), otherwise the new list or the empty
   * notice.
   */
  lemma PanelAfterFetch(st: PayslipsState, token: Option<string>, outcome: ListOutcome)
    requires IsTruthy(token)
    ensures outcome.ListFail? ==> PanelView(AfterFetchPayslips(st, token, outcome)) == ErrorWithRetry(LoadPayslipsError)
    ensures outcome.ListOk? && outcome.payslips != [] ==>
              PanelView(AfterFetchPayslips(st, token, outcome)) == PayslipCards(outcome.payslips)
    ensures outcome.ListOk? && outcome.payslips == [] ==>
              PanelView(AfterFetchPayslips(st, token, outcome)) == NoPayslips
  {
  }

  /** The first render shows the empty notice. */
  lemma InitialPanelIsEmpty()
    ensures PanelView(InitialPayslips) == NoPayslips
  {
  }

  /** The page's payslip state, updated in place. */
  class PayslipPanel {
    var payslips: seq<Payslip>
    var loading: bool
    var error: Option<string>

    function State(): PayslipsState
      reads this
    {
      PayslipsState(payslips, loading, error)
    }

    constructor ()
      ensures State() == InitialPayslips
    {
      payslips, loading, error := [], false, None;
    }

    /** `fetchPayslips`, also the "Try again" button's handler. */
    method FetchPayslips(token: Option<string>, outcome: ListOutcome)
      modifies this
      ensures State() == AfterFetchPayslips(old(State()), token, outcome)
    {
      if !IsTruthy(token) {
        return;
      }
      loading := true;
      error := None;
      match outcome {
        case ListOk(ps) =>
          payslips := ps;
        case ListFail =>
          error := Some(LoadPayslipsError);
      }
      loading := false;
    }
  }

  // ---------------------------------------------------------------------------
  // Payslip download

  /**
   * `handlePayslipDownload`: nothing unless both a token and a user are
   * present; otherwise the request for the payslip.
   */
  function DownloadRequestFor(token: Option<string>, user: Option<User>, p: Payslip): (r: Option<PayslipDownloadRequest>)
    ensures r.Some? <==> IsTruthy(token) && user.Some?
    ensures r.Some? ==> r.value.filename == p.filename && r.value.year == p.year && r.value.monthId == p.monthId
                        && r.value.monthName == p.monthName && r.value.employeeId == p.employeeId
  {
    if !IsTruthy(token) || user.None? then None
    else Some(PayslipDownloadRequest(p.filename, p.year, p.monthId, p.monthName, p.employeeId))
  }

  /** The five fields of a payslip a download request carries. */
  predicate SameDownloadFields(p: Payslip, q: Payslip) {
    p.filename == q.filename && p.year == q.year && p.monthId == q.monthId
    && p.monthName == q.monthName && p.employeeId == q.employeeId
  }

  /**
   * The request copies exactly `filename`, `year`, `month_id`, `month_name`
   * and `employee_id`: two payslips get the same request precisely when they
   * agree on those, whatever their path, size and timestamps.
   */
  lemma DownloadRequestCopiesFiveFields(token: Option<string>, user: Option<User>, p: Payslip, q: Payslip)
    requires IsTruthy(token) && user.Some?
    ensures DownloadRequestFor(token, user, p) == DownloadRequestFor(token, user, q) <==> SameDownloadFields(p, q)
    ensures DownloadRequestFor(token, user, p) ==
              Some(PayslipDownloadRequest(p.filename, p.year, p.monthId, p.monthName, p.employeeId))
  {
  }

  // ---------------------------------------------------------------------------
  // Effects that read the session

  /**
   * The redirect effect: the page stays while the session loads or is
   * authenticated, and otherwise goes to the route the edge guards let
   * everybody through.
   */
  function LoginRedirect(session: AuthContext.SessionState): (target: Option<string>)
    ensures session.isLoading || AuthContext.Authenticated(session) ==> target == None
    ensures !session.isLoading && !AuthContext.Authenticated(session) ==> target.Some?
    ensures target.Some? ==> EdgeRequest.IsPublicRoute(target.value)
  {
    if !session.isLoading && !AuthContext.Authenticated(session) then Some("/login") else None
  }

  /**
   * The payslip effect's guard, `isAuthenticated && token && user`. Its extra
   * conditions are implied: payslips are fetched exactly when the session is
   * authenticated.
   */
  predicate ShouldFetchPayslips(session: AuthContext.SessionState)
    ensures ShouldFetchPayslips(session) <==> AuthContext.Authenticated(session)
  {
    AuthContext.Authenticated(session) && IsTruthy(session.token) && session.user.Some?
  }

  /**
   * The page and the edge agree: in a session that started from one saved
   * token and went through any sequence of operations, a settled page that
   * does not send the visitor to `/login` holds a cookie that the edge guard
   * lets through on every path.
   */
  lemma StayingOnPageMeansEdgePasses(saved: Option<string>, ops: seq<AuthContext.Operation>,
                                     pathname: string, authorization: Option<string>)
    ensures var t := AuthContext.Run(AuthContext.Initial(saved, saved), ops);
            !t.isLoading && LoginRedirect(t) == None ==>
              Proxy.Proxy(EdgeRequest.Request(pathname, t.cookie, authorization)) == EdgeRequest.Next
  {
    var t := AuthContext.Run(AuthContext.Initial(saved, saved), ops);
    AuthContext.RunPreservesMirrored(AuthContext.Initial(saved, saved), ops);
    if !t.isLoading && LoginRedirect(t) == None {
      AuthContext.AuthenticatedSessionPassesEdge(t, pathname, authorization);
    }
  }

  /** Logging out of a settled session sends the page to `/login`. */
  lemma LogoutRedirects(session: AuthContext.SessionState)
    requires !session.isLoading
    ensures LoginRedirect(AuthContext.AfterLogout(session)) == Some("/login")
  {
  }

  /**
   * After the mount effect the page stays only if a saved token was there and
   * its profile loaded; no saved token, or a stale one, sends it to `/login`.
   */
  lemma MountRedirectsUnlessProfileLoads(store: Option<string>, cookie: Option<string>, outcome: AuthContext.ProfileOutcome)
    ensures var after := AuthContext.AfterMount(AuthContext.Initial(store, cookie), outcome);
            (LoginRedirect(after) == None <==> IsTruthy(store) && outcome.ProfileOk?)
            && (LoginRedirect(after) != None ==> LoginRedirect(after) == Some("/login"))
  {
  }
}
