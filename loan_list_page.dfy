/** The loan list (src/pages/loans/LoanListPage.tsx): the status label and
    colour switches, which row actions are enabled, what the page shows, and
    the delete, return and renew handlers. */
module LoanListPage {
  import opened Wrappers
  import opened Http
  import opened Entities
  import Lists

  // ---------------------------------------------------------------- status switches

  /** The three statuses the switches know. */
  predicate Known(status: string) {
    status == "ACTIVE" || status == "RETURNED" || status == "OVERDUE"
  }

  /** `statusLabel`: Portuguese labels for the known statuses, anything else as given. */
  function StatusLabel(status: string): string {
    match status
    case "ACTIVE" => "Ativo"
    case "RETURNED" => "Devolvido"
    case "OVERDUE" => "Atrasado"
    case _ => status
  }

  /** `statusColor`: the chip colour of each known status, `default` otherwise. */
  function StatusColor(status: string): string {
    match status
    case "ACTIVE" => "primary"
    case "RETURNED" => "success"
    case "OVERDUE" => "error"
    case _ => "default"
  }

  /** A label differs from the status it labels exactly when the status is known. */
  lemma LabelRewritesOnlyKnown(status: string)
    ensures StatusLabel(status) != status <==> Known(status)
  {
  }

  /** The colour is the fallback exactly when the label is the raw status. */
  lemma ColorDefaultIffLabelRaw(status: string)
    ensures StatusColor(status) == "default" <==> StatusLabel(status) == status
  {
  }

  /** Distinct known statuses get distinct labels and distinct colours. */
  lemma KnownStatusesDistinguished(s: string, t: string)
    requires Known(s) && Known(t) && s != t
    ensures StatusLabel(s) != StatusLabel(t) && StatusColor(s) != StatusColor(t)
  {
  }

  // ---------------------------------------------------------------- row actions

  /** No action is running on this row. */
  predicate Idle(loan: LoanDto, actionLoadingId: Option<int>) {
    actionLoadingId != Some(loan.id)
  }

  /** Edit and delete are enabled unless an action is running on the row. */
  predicate EditEnabled(loan: LoanDto, actionLoadingId: Option<int>) {
    Idle(loan, actionLoadingId)
  }

  predicate DeleteEnabled(loan: LoanDto, actionLoadingId: Option<int>) {
    Idle(loan, actionLoadingId)
  }

  /** Return and renew additionally require an `ACTIVE` loan. */
  predicate ReturnEnabled(loan: LoanDto, actionLoadingId: Option<int>) {
    loan.status == "ACTIVE" && Idle(loan, actionLoadingId)
  }

  predicate RenewEnabled(loan: LoanDto, actionLoadingId: Option<int>) {
    loan.status == "ACTIVE" && Idle(loan, actionLoadingId)
  }

  /** Return and renew are enabled exactly when the loan is active and edit is enabled. */
  lemma ReturnRenewNeedActive(loan: LoanDto, actionLoadingId: Option<int>)
    ensures ReturnEnabled(loan, actionLoadingId) <==> loan.status == "ACTIVE" && EditEnabled(loan, actionLoadingId)
    ensures RenewEnabled(loan, actionLoadingId) == ReturnEnabled(loan, actionLoadingId)
  {
  }

  /** A running action disables every button of its own row and of no other. */
  lemma BusyRowOnly(loan: LoanDto, other: LoanDto)
    requires other.id != loan.id
    ensures !EditEnabled(loan, Some(loan.id)) && !DeleteEnabled(loan, Some(loan.id))
    ensures !ReturnEnabled(loan, Some(loan.id)) && !RenewEnabled(loan, Some(loan.id))
    ensures EditEnabled(other, Some(loan.id)) && DeleteEnabled(other, Some(loan.id))
    ensures ReturnEnabled(other, Some(loan.id)) <==> other.status == "ACTIVE"
  {
  }

  // ---------------------------------------------------------------- display

  datatype Content = Spinner | ErrorAlert(message: string) | Table(rows: seq<LoanDto>, emptyNotice: bool)

  /** Loading first, then a non-empty error, then the table, whose "no loans"
      row appears for an empty list. */
  function ContentFor(loading: bool, error: string, loans: seq<LoanDto>): Content {
    if loading then Spinner
    else if error != "" then ErrorAlert(error)
    else Table(loans, |loans| == 0)
  }

  lemma ContentPriority(loading: bool, error: string, loans: seq<LoanDto>)
    ensures ContentFor(loading, error, loans).Spinner? <==> loading
    ensures ContentFor(loading, error, loans).ErrorAlert? <==> !loading && error != ""
    ensures ContentFor(loading, error, loans).Table? <==> !loading && error == ""
    ensures ContentFor(loading, error, loans).ErrorAlert? ==> ContentFor(loading, error, loans).message == error
    ensures ContentFor(loading, error, loans).Table? ==>
      ContentFor(loading, error, loans).rows == loans
      && (ContentFor(loading, error, loans).emptyNotice <==> loans == [])
  {
  }

  // ---------------------------------------------------------------- delete filter

  /** `prev.filter((loan) => loan.id !== id)`. */
  function WithoutLoan(loans: seq<LoanDto>, id: int): seq<LoanDto> {
    Lists.Filter(loans, (l: LoanDto) => l.id != id)
  }

  /** The deleted id is gone, every other loan stays, and nothing new appears. */
  lemma WithoutLoanRemovesExactly(loans: seq<LoanDto>, id: int)
    ensures forall i :: 0 <= i < |WithoutLoan(loans, id)| ==> WithoutLoan(loans, id)[i].id != id
    ensures forall i :: 0 <= i < |WithoutLoan(loans, id)| ==> WithoutLoan(loans, id)[i] in loans
    ensures forall i :: 0 <= i < |loans| && loans[i].id != id ==> loans[i] in WithoutLoan(loans, id)
  {
  }

  /** Deleting splits over the list, so the kept loans keep their order. */
  lemma WithoutLoanKeepsOrder(front: seq<LoanDto>, back: seq<LoanDto>, id: int)
    ensures WithoutLoan(front + back, id) == WithoutLoan(front, id) + WithoutLoan(back, id)
  {
    Lists.FilterAppend(front, back, (l: LoanDto) => l.id != id);
  }

  /** Deleting the same id twice is deleting it once. */
  lemma WithoutLoanTwice(loans: seq<LoanDto>, id: int)
    ensures WithoutLoan(WithoutLoan(loans, id), id) == WithoutLoan(loans, id)
  {
    Lists.FilterIdempotent(loans, (l: LoanDto) => l.id != id);
  }

  /** A delete shortens the list by exactly the number of loans carrying that id. */
  lemma WithoutLoanCount(loans: seq<LoanDto>, id: int)
    ensures |WithoutLoan(loans, id)| + |Lists.Filter(loans, (l: LoanDto) => l.id == id)| == |loans|
  {
    Lists.FilterSplitsLength(loans, (l: LoanDto) => l.id != id, (l: LoanDto) => l.id == id);
  }

  /** Deleting an id no loan has leaves the list as it was. */
  lemma WithoutAbsentLoan(loans: seq<LoanDto>, id: int)
    requires forall i :: 0 <= i < |loans| ==> loans[i].id != id
    ensures WithoutLoan(loans, id) == loans
  {
    Lists.FilterKeepsAll(loans, (l: LoanDto) => l.id != id);
  }

  // ---------------------------------------------------------------- the page

  const LoadError := "Erro ao carregar empréstimos."
  const DeleteSuccess := "Empréstimo excluído com sucesso!"
  const DeleteError := "Erro ao excluir empréstimo."
  const ReturnSuccess := "Empréstimo devolvido com sucesso!"
  const ReturnError := "Erro ao processar devolução."
  const RenewSuccess := "Empréstimo renovado com sucesso!"
  const RenewError := "Erro ao renovar empréstimo."

  class Page {
    var loans: seq<LoanDto>
    var loading: bool
    var error: string
    var success: string
    var actionLoadingId: Option<int>
    var openSnackbar: bool

    constructor()
      ensures loans == [] && loading && error == "" && success == ""
      ensures actionLoadingId == None && !openSnackbar
    {
      loans := [];
      loading := true;
      error := "";
      success := "";
      actionLoadingId := None;
      openSnackbar := false;
    }

    function View(): Content
      reads this
    {
      ContentFor(loading, error, loans)
    }

    /** `loadLoans`: a fetched list replaces the old one and clears the error;
        a failure keeps the list and sets the load error. */
    method LoadLoans(reply: Reply<seq<LoanDto>>)
      modifies this
      ensures !loading
      ensures reply.Ok? ==> loans == reply.value && error == ""
      ensures reply.Fail? ==> loans == old(loans) && error == LoadError
      ensures success == old(success) && actionLoadingId == old(actionLoadingId)
      ensures openSnackbar == old(openSnackbar)
    {
      loading := true;
      match reply {
        case Ok(data) =>
          loans := data;
          error := "";
        case Fail(_) =>
          error := LoadError;
      }
      loading := false;
    }

    /** `handleDelete`: without confirmation nothing happens; otherwise the
        deleted loan is filtered out locally on success. */
    method HandleDelete(id: int, confirmed: bool, reply: Reply<()>)
      modifies this
      ensures !confirmed ==>
        loans == old(loans) && error == old(error) && success == old(success)
        && actionLoadingId == old(actionLoadingId) && openSnackbar == old(openSnackbar)
      ensures confirmed ==> actionLoadingId == None
      ensures confirmed && reply.Ok? ==>
        loans == WithoutLoan(old(loans), id) && success == DeleteSuccess && openSnackbar
        && error == old(error)
      ensures confirmed && reply.Fail? ==>
        loans == old(loans) && error == DeleteError && success == old(success)
        && openSnackbar == old(openSnackbar)
      ensures loading == old(loading)
    {
      if !confirmed {
        return;
      }
      actionLoadingId := Some(id);
      match reply {
        case Ok(_) =>
          loans := WithoutLoan(loans, id);
          success := DeleteSuccess;
          openSnackbar := true;
        case Fail(_) =>
          error := DeleteError;
      }
      actionLoadingId := None;
    }

    /** The shape `handleReturn` and `handleRenew` share: the server call, then
        a reload of the whole list (whose own failure is reported by
        `LoadLoans` and does not undo the success message). */
    method ReloadingAction(id: int, confirmed: bool, reply: Reply<()>, reload: Reply<seq<LoanDto>>,
                           successText: string, failureText: string)
      modifies this
      ensures !confirmed ==>
        loans == old(loans) && error == old(error) && success == old(success) && loading == old(loading)
        && actionLoadingId == old(actionLoadingId) && openSnackbar == old(openSnackbar)
      ensures confirmed ==> actionLoadingId == None
      ensures confirmed && reply.Ok? ==>
        success == successText && openSnackbar && !loading
        && (reload.Ok? ==> loans == reload.value && error == "")
        && (reload.Fail? ==> loans == old(loans) && error == LoadError)
      ensures confirmed && reply.Fail? ==>
        loans == old(loans) && error == failureText && success == old(success)
        && openSnackbar == old(openSnackbar) && loading == old(loading)
    {
      if !confirmed {
        return;
      }
      actionLoadingId := Some(id);
      match reply {
        case Ok(_) =>
          LoadLoans(reload);
          success := successText;
          openSnackbar := true;
        case Fail(_) =>
          error := failureText;
      }
      actionLoadingId := None;
    }

    /** `handleReturn`. */
    method HandleReturn(id: int, confirmed: bool, reply: Reply<()>, reload: Reply<seq<LoanDto>>)
      modifies this
      ensures !confirmed ==>
        loans == old(loans) && error == old(error) && success == old(success) && loading == old(loading)
        && actionLoadingId == old(actionLoadingId) && openSnackbar == old(openSnackbar)
      ensures confirmed ==> actionLoadingId == None
      ensures confirmed && reply.Ok? ==>
        success == ReturnSuccess && openSnackbar && !loading
        && (reload.Ok? ==> loans == reload.value && error == "")
        && (reload.Fail? ==> loans == old(loans) && error == LoadError)
      ensures confirmed && reply.Fail? ==>
        loans == old(loans) && error == ReturnError && success == old(success)
        && openSnackbar == old(openSnackbar) && loading == old(loading)
    {
      ReloadingAction(id, confirmed, reply, reload, ReturnSuccess, ReturnError);
    }

    /** `handleRenew`. */
    method HandleRenew(id: int, confirmed: bool, reply: Reply<()>, reload: Reply<seq<LoanDto>>)
      modifies this
      ensures !confirmed ==>
        loans == old(loans) && error == old(error) && success == old(success) && loading == old(loading)
        && actionLoadingId == old(actionLoadingId) && openSnackbar == old(openSnackbar)
      ensures confirmed ==> actionLoadingId == None
      ensures confirmed && reply.Ok? ==>
        success == RenewSuccess && openSnackbar && !loading
        && (reload.Ok? ==> loans == reload.value && error == "")
        && (reload.Fail? ==> loans == old(loans) && error == LoadError)
      ensures confirmed && reply.Fail? ==>
        loans == old(loans) && error == RenewError && success == old(success)
        && openSnackbar == old(openSnackbar) && loading == old(loading)
    {
      ReloadingAction(id, confirmed, reply, reload, RenewSuccess, RenewError);
    }
  }
}
