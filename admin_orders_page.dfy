/** The admin orders page of web/pages/admin/orders.js: the filter toolbar
    that builds the list's query string, and the per-order status control
    (`OrderRow`) with its confirmation dialog and its cancel form. */
module AdminOrdersPage {
  import opened Wrappers
  import opened Models
  import CancelReasons
  import Text

  // ---------------------------------------------------------------- filters

  /** The four toolbar fields; '' means not set. */
  datatype Filters = Filters(status: string, q: string, from: string, to: string)

  /** What the Clear button sets. */
  const Cleared := Filters("", "", "", "")

  /** The four parameter names, in the order the page sets them. */
  datatype Key = Status | Q | From | To

  function KeyName(k: Key): string {
    match k
    case Status => "status"
    case Q => "q"
    case From => "from"
    case To => "to"
  }

  datatype Param = Param(key: Key, value: string)

  /** Every filter as a parameter, in the order the page sets them. */
  function AllParams(f: Filters): seq<Param> {
    [Param(Status, f.status), Param(Q, f.q), Param(From, f.from), Param(To, f.to)]
  }

  /** The parameters with a value, in their original order. */
  function Set(ps: seq<Param>): (r: seq<Param>)
    ensures |r| <= |ps|
    decreases |ps|
  {
    if ps == [] then [] else Set(ps[..|ps| - 1]) + Keep(ps[|ps| - 1])
  }

  function Keep(p: Param): seq<Param> {
    if p.value != "" then [p] else []
  }

  /** Exactly the parameters with a value are kept. */
  lemma {:induction false} SetMembers(ps: seq<Param>)
    ensures forall p :: p in Set(ps) <==> p in ps && p.value != ""
    decreases |ps|
  {
    if ps != [] {
      SetMembers(ps[..|ps| - 1]);
      assert ps == ps[..|ps| - 1] + [ps[|ps| - 1]];
    }
  }

  /** `URLSearchParams.toString()`, without percent-encoding. */
  function Encode(ps: seq<Param>): string
    decreases |ps|
  {
    if ps == [] then ""
    else
      var pair := KeyName(ps[0].key) + "=" + ps[0].value;
      if |ps| == 1 then pair else pair + "&" + Encode(ps[1..])
  }

  /** Every pair holds an '=', so only no pairs encode as ''. */
  lemma EncodeEmpty(ps: seq<Param>)
    ensures Encode(ps) == "" <==> ps == []
  {
    if ps != [] {
      assert |KeyName(ps[0].key) + "=" + ps[0].value| > 0;
    }
  }

  /** Lines 31-35: one `qs.set` per filter that has a value. */
  method BuildParams(f: Filters) returns (qs: seq<Param>)
    ensures qs == Set(AllParams(f))
    ensures qs == [] <==> f == Cleared
  {
    qs := [];
    if f.status != "" {
      qs := qs + [Param(Status, f.status)];
    }
    assert qs == Keep(Param(Status, f.status));
    if f.q != "" {
      qs := qs + [Param(Q, f.q)];
    }
    assert qs == Keep(Param(Status, f.status)) + Keep(Param(Q, f.q));
    if f.from != "" {
      qs := qs + [Param(From, f.from)];
    }
    assert qs == Keep(Param(Status, f.status)) + Keep(Param(Q, f.q)) + Keep(Param(From, f.from));
    if f.to != "" {
      qs := qs + [Param(To, f.to)];
    }
    SetOfFilters(f);
  }

  /** The kept filters, one at a time in the page's order. */
  lemma SetOfFilters(f: Filters)
    ensures Set(AllParams(f)) == Keep(Param(Status, f.status)) + Keep(Param(Q, f.q))
                                 + Keep(Param(From, f.from)) + Keep(Param(To, f.to))
  {
    var a, b, c, d := Param(Status, f.status), Param(Q, f.q), Param(From, f.from), Param(To, f.to);
    var s1, s2, s3 := [a], [a, b], [a, b, c];
    assert s1[..0] == [];
    assert Set(s1) == Keep(a);
    assert s2[..1] == s1;
    assert Set(s2) == Keep(a) + Keep(b);
    assert s3[..2] == s2;
    assert Set(s3) == Keep(a) + Keep(b) + Keep(c);
    assert AllParams(f)[..3] == s3;
  }

  /** Line 36: the list's URL, with a '?' only when some filter is set. */
  function ListUrl(f: Filters): (r: string)
    ensures f == Cleared <==> r == "/admin/orders"
    ensures f != Cleared ==> r == "/admin/orders?" + Encode(Set(AllParams(f)))
  {
    var qs := Set(AllParams(f));
    SetOfFilters(f);
    EncodeEmpty(qs);
    assert |"/admin/orders?" + Encode(qs)| > |"/admin/orders"|;
    if Encode(qs) == "" then "/admin/orders" else "/admin/orders?" + Encode(qs)
  }

  /** Unset filters leave no trace in the URL, and the others keep their order. */
  lemma ListUrlOfStatusAndTo(status: string, to: string)
    requires status != "" && to != ""
    ensures ListUrl(Filters(status, "", "", to)) == "/admin/orders?" + ("status=" + status + "&" + "to=" + to)
  {
    var f := Filters(status, "", "", to);
    var a, d := Param(Status, status), Param(To, to);
    assert Set(AllParams(f)) == [a, d] by {
      SetOfFilters(f);
    }
    assert [a, d][1..] == [d];
    assert Encode([a, d]) == "status=" + status + "&" + "to=" + to;
  }

  /** The toolbar's state and the list URL it leads to. */
  class Toolbar {
    var filters: Filters

    constructor ()
      ensures filters == Cleared
    {
      filters := Cleared;
    }

    /** Typing in one field, lines 66-97, leaves the other three as they are. */
    method SetField(key: Key, value: string)
      modifies this
      ensures filters == match key
                         case Status => old(filters).(status := value)
                         case Q => old(filters).(q := value)
                         case From => old(filters).(from := value)
                         case To => old(filters).(to := value)
    {
      match key {
        case Status => filters := filters.(status := value);
        case Q => filters := filters.(q := value);
        case From => filters := filters.(from := value);
        case To => filters := filters.(to := value);
      }
    }

    /** The Clear button, line 103: all four fields '', so the list is
        fetched without a query string. */
    method Clear()
      modifies this
      ensures filters == Cleared && ListUrl(filters) == "/admin/orders"
    {
      filters := Filters("", "", "", "");
    }

    /** The URL the list is fetched from, line 36. */
    method Url() returns (url: string)
      ensures url == ListUrl(filters)
    {
      var qs := BuildParams(filters);
      var text := Encode(qs);
      EncodeEmpty(qs);
      url := if text != "" then "/admin/orders?" + text else "/admin/orders";
    }
  }

  // ---------------------------------------------------------- OrderRow

  /** `PUT /admin/orders/:id` with `{ status, adminReason }`. */
  datatype UpdateCall = UpdateCall(orderId: Id, status: string, adminReason: string)

  function ProblemMessage(p: CancelReasons.ReasonProblem): string {
    match p
    case NoChoice => "Please select a cancellation reason"
    case BlankCustom => "Please provide a custom cancellation reason"
  }

  /** `order.status || 'Placed'`: the selection a row starts with. */
  function InitialStatus(serverStatus: string): string {
    if serverStatus == "" then Placed else serverStatus
  }

  /** `if (!pendingStatus) return`: null and '' both leave nothing to send. */
  predicate Waiting(pending: Option<string>) {
    pending.Some? && pending.value != ""
  }

  predicate Final(serverStatus: string) {
    serverStatus == Cancelled || serverStatus == Delivered
  }

  /** The state of one row, for the order as the server last sent it. */
  class OrderRow {
    const orderId: Id
    const serverStatus: string      // `order.status`, '' when missing
    var status: string
    var adminReason: string
    var cancelReason: string
    var customReason: string
    var saving: bool
    var showReasonModal: bool
    var pendingStatus: Option<string>
    var modalReason: string
    var sent: seq<UpdateCall>
    var alerts: seq<string>

    /** `isCancelling`: the cancel form is open. */
    predicate Cancelling()
      reads this
    {
      status == Cancelled && serverStatus != Cancelled
    }

    /** The dialog is open exactly when a change waits in it, and that change
        is a real one other than a cancel. A final order keeps its first
        selection, has nothing pending and never sends an update. */
    predicate Valid()
      reads this
    {
      && !saving
      && (showReasonModal <==> pendingStatus.Some?)
      && (pendingStatus.Some? ==> pendingStatus.value != serverStatus && pendingStatus.value != Cancelled)
      && (Final(serverStatus) ==> status == InitialStatus(serverStatus) && pendingStatus.None? && sent == [])
    }

    constructor (orderId: Id, serverStatus: string, adminReason: string)
      ensures Valid()
      ensures this.orderId == orderId && this.serverStatus == serverStatus
      ensures status == InitialStatus(serverStatus) && this.adminReason == adminReason
      ensures cancelReason == "" && customReason == "" && !showReasonModal && modalReason == ""
      ensures sent == [] && alerts == []
    {
      this.orderId := orderId;
      this.serverStatus := serverStatus;
      status := InitialStatus(serverStatus);
      this.adminReason := adminReason;
      cancelReason := "";
      customReason := "";
      saving := false;
      showReasonModal := false;
      pendingStatus := None;
      modalReason := "";
      sent := [];
      alerts := [];
    }

    /** `handleStatusChange(newStatus)`, lines 168-182. */
    method HandleStatusChange(newStatus: string)
      requires Valid()
      modifies this
      ensures Valid()
      ensures sent == old(sent) && alerts == old(alerts) && adminReason == old(adminReason)
      ensures Final(serverStatus) ==> status == old(status) && pendingStatus == old(pendingStatus)
                                      && showReasonModal == old(showReasonModal) && modalReason == old(modalReason)
                                      && cancelReason == old(cancelReason) && customReason == old(customReason)
      ensures !Final(serverStatus) && newStatus == Cancelled ==>
                status == Cancelled && cancelReason == "" && customReason == ""
                && pendingStatus == old(pendingStatus) && showReasonModal == old(showReasonModal)
                && modalReason == old(modalReason)
      ensures !Final(serverStatus) && newStatus != Cancelled && newStatus != serverStatus ==>
                pendingStatus == Some(newStatus) && showReasonModal && modalReason == "" && status == old(status)
                && cancelReason == old(cancelReason) && customReason == old(customReason)
      ensures !Final(serverStatus) && newStatus != Cancelled && newStatus == serverStatus ==>
                status == newStatus && pendingStatus == old(pendingStatus) && showReasonModal == old(showReasonModal)
                && modalReason == old(modalReason) && cancelReason == old(cancelReason) && customReason == old(customReason)
    {
      if Final(serverStatus) {
        return;
      }
      if newStatus == Cancelled {
        status := newStatus;
        cancelReason := "";
        customReason := "";
      } else if newStatus != serverStatus {
        pendingStatus := Some(newStatus);
        modalReason := "";
        showReasonModal := true;
      } else {
        status := newStatus;
      }
    }

    /** Typing in the dialog's note. */
    method TypeModalReason(text: string)
      requires Valid()
      modifies this
      ensures Valid()
      ensures modalReason == text && status == old(status) && pendingStatus == old(pendingStatus)
      ensures showReasonModal == old(showReasonModal) && sent == old(sent) && alerts == old(alerts)
      ensures adminReason == old(adminReason) && cancelReason == old(cancelReason) && customReason == old(customReason)
      ensures saving == old(saving)
    {
      modalReason := text;
    }

    /** `confirmStatusChange`, lines 184-203. `failure` is the request's
        outcome: `None` on success, otherwise the error message. */
    method ConfirmStatusChange(failure: Option<string>)
      requires Valid()
      modifies this
      ensures Valid()
      ensures cancelReason == old(cancelReason) && customReason == old(customReason) && modalReason == old(modalReason)
      ensures !Waiting(old(pendingStatus)) ==>
                sent == old(sent) && alerts == old(alerts) && status == old(status) && adminReason == old(adminReason)
                && showReasonModal == old(showReasonModal) && pendingStatus == old(pendingStatus)
      ensures Waiting(old(pendingStatus)) ==> sent == old(sent) + [UpdateCall(orderId, old(pendingStatus).value, old(modalReason))]
      ensures Waiting(old(pendingStatus)) && failure.None? ==>
                status == old(pendingStatus).value && adminReason == old(modalReason)
                && !showReasonModal && pendingStatus == None && alerts == old(alerts)
      ensures Waiting(old(pendingStatus)) && failure.Some? ==>
                status == old(status) && adminReason == old(adminReason)
                && showReasonModal && pendingStatus == old(pendingStatus)
                && alerts == old(alerts) + ["Update failed: " + failure.value]
    {
      if !Waiting(pendingStatus) {
        return;
      }
      saving := true;
      sent := sent + [UpdateCall(orderId, pendingStatus.value, modalReason)];
      if failure.None? {
        status := pendingStatus.value;
        adminReason := modalReason;
        showReasonModal := false;
        pendingStatus := None;
      } else {
        alerts := alerts + ["Update failed: " + failure.value];
      }
      saving := false;
    }

    /** `cancelStatusChange`, lines 205-209: dismissing the dialog. */
    method CancelStatusChange()
      requires Valid()
      modifies this
      ensures Valid()
      ensures !showReasonModal && pendingStatus == None && modalReason == ""
      ensures status == old(status) && sent == old(sent) && alerts == old(alerts)
      ensures adminReason == old(adminReason) && cancelReason == old(cancelReason) && customReason == old(customReason)
    {
      showReasonModal := false;
      pendingStatus := None;
      modalReason := "";
    }

    /** Choosing a cancel reason and typing the custom one. */
    method ChooseCancelReason(choice: string, custom: string)
      requires Valid()
      modifies this
      ensures Valid()
      ensures cancelReason == choice && customReason == custom
      ensures status == old(status) && pendingStatus == old(pendingStatus) && sent == old(sent) && alerts == old(alerts)
      ensures adminReason == old(adminReason) && modalReason == old(modalReason)
      ensures showReasonModal == old(showReasonModal) && saving == old(saving)
    {
      cancelReason := choice;
      customReason := custom;
    }

    /** The Confirm Cancel button, lines 360-383; it exists only while the
        cancel form is open. */
    method ConfirmCancel(failure: Option<string>)
      requires Valid() && Cancelling()
      modifies this
      ensures Valid()
      ensures status == old(status) && pendingStatus == old(pendingStatus) && showReasonModal == old(showReasonModal)
      ensures adminReason == old(adminReason) && cancelReason == old(cancelReason)
              && customReason == old(customReason) && modalReason == old(modalReason)
      ensures var p := CancelReasons.Problem(old(cancelReason), old(customReason));
              p.Some? ==> sent == old(sent) && alerts == old(alerts) + [ProblemMessage(p.value)]
      ensures var p := CancelReasons.Problem(old(cancelReason), old(customReason));
              p.None? ==> sent == old(sent) + [UpdateCall(orderId, Cancelled, CancelReasons.FinalReason(old(cancelReason), old(customReason)))]
                          && alerts == old(alerts) + (if failure.Some? then ["Update failed: " + failure.value] else [])
    {
      var problem := CancelReasons.Problem(cancelReason, customReason);
      if problem.Some? {
        alerts := alerts + [ProblemMessage(problem.value)];
        return;
      }
      saving := true;
      var finalReason := CancelReasons.FinalReason(cancelReason, customReason);
      sent := sent + [UpdateCall(orderId, status, finalReason)];
      if failure.Some? {
        alerts := alerts + ["Update failed: " + failure.value];
      }
      saving := false;
    }
  }

  /** A final order's row stays as it started whatever is selected, so it
      never sends an update: selecting, confirming and dismissing all keep
      `Valid`, whose last clause says so. */
  method FinalRowIgnoresSelections(orderId: Id, serverStatus: string, choices: seq<string>) returns (row: OrderRow)
    requires Final(serverStatus)
    ensures row.status == serverStatus && row.sent == [] && row.pendingStatus.None?
  {
    row := new OrderRow(orderId, serverStatus, "");
    var i := 0;
    while i < |choices|
      invariant 0 <= i <= |choices|
      invariant row.Valid() && row.serverStatus == serverStatus
    {
      row.HandleStatusChange(choices[i]);
      row.ConfirmStatusChange(None);
      i := i + 1;
    }
  }
}
