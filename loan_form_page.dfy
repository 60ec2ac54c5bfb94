/** The create/edit loan form (src/pages/loans/LoanFormPage.tsx): the user
    and book pickers built from the fetched lists, the edit-load mapping of a
    loan into the form, numeric coercion of the picked ids, and the submit. */
module LoanFormPage {
  import opened Wrappers
  import opened Http
  import opened Text
  import opened Entities
  import Lists
  import FormMode
  import CredentialStore

  // ---------------------------------------------------------------- pickers

  /** An entry of a picker: `{ id, name }` for users, `{ id, title }` for books. */
  datatype Choice = Choice(id: int, caption: string)

  /** The picker entry of one fetched element: none when it has no id. */
  function ChoiceOf<T>(x: T, id: T -> Option<int>, caption: T -> string): seq<Choice> {
    match id(x)
    case Some(k) => [Choice(k, caption(x))]
    case None => []
  }

  /** `xs.filter(x => x.id !== undefined).map(x => ({ id: x.id, ... }))`. */
  function Choices<T>(xs: seq<T>, id: T -> Option<int>, caption: T -> string): (r: seq<Choice>)
    ensures |r| == |Lists.Filter(xs, x => id(x).Some?)|
    decreases |xs|
  {
    if xs == [] then [] else ChoiceOf(xs[0], id, caption) + Choices(xs[1..], id, caption)
  }

  /** Every fetched element with an id has its entry. */
  lemma {:induction false} ChoicesComplete<T>(xs: seq<T>, id: T -> Option<int>, caption: T -> string, j: int)
    requires 0 <= j < |xs| && id(xs[j]).Some?
    ensures Choice(id(xs[j]).value, caption(xs[j])) in Choices(xs, id, caption)
    decreases |xs|
  {
    if j > 0 {
      ChoicesComplete(xs[1..], id, caption, j - 1);
    }
  }

  /** Every entry comes from a fetched element with that id and caption. */
  lemma {:induction false} ChoicesSound<T>(xs: seq<T>, id: T -> Option<int>, caption: T -> string, i: int)
    requires 0 <= i < |Choices(xs, id, caption)|
    ensures exists j :: 0 <= j < |xs| && id(xs[j]) == Some(Choices(xs, id, caption)[i].id)
                        && caption(xs[j]) == Choices(xs, id, caption)[i].caption
    decreases |xs|
  {
    var head := ChoiceOf(xs[0], id, caption);
    var r := Choices(xs, id, caption);
    if i < |head| {
      assert r[i] == head[0];
      assert id(xs[0]) == Some(r[i].id) && caption(xs[0]) == r[i].caption;
    } else {
      ChoicesSound(xs[1..], id, caption, i - |head|);
      var j :| 0 <= j < |xs[1..]| && id(xs[1..][j]) == Some(Choices(xs[1..], id, caption)[i - |head|].id)
               && caption(xs[1..][j]) == Choices(xs[1..], id, caption)[i - |head|].caption;
      assert r[i] == Choices(xs[1..], id, caption)[i - |head|];
      assert xs[1..][j] == xs[j + 1];
    }
  }

  /** The pickers keep the order of the fetched lists. */
  lemma {:induction false} ChoicesAppend<T>(a: seq<T>, b: seq<T>, id: T -> Option<int>, caption: T -> string)
    ensures Choices(a + b, id, caption) == Choices(a, id, caption) + Choices(b, id, caption)
    decreases |a|
  {
    if a == [] {
      assert a + b == b;
    } else {
      assert (a + b)[0] == a[0];
      assert (a + b)[1..] == a[1..] + b;
      ChoicesAppend(a[1..], b, id, caption);
    }
  }

  function UserChoices(users: seq<UserDto>): seq<Choice> {
    Choices(users, (u: UserDto) => u.id, (u: UserDto) => u.name)
  }

  function BookChoices(books: seq<BookDto>): seq<Choice> {
    Choices(books, (b: BookDto) => b.id, (b: BookDto) => b.title)
  }

  /** A user without an id is left out of the picker. */
  lemma UserWithoutIdLeftOut(u: UserDto, rest: seq<UserDto>)
    requires u.id.None?
    ensures UserChoices([u] + rest) == UserChoices(rest)
  {
    assert ([u] + rest)[1..] == rest;
  }

  // ---------------------------------------------------------------- the form record

  /** `Partial<LoanDTO>` as the form holds it: the picked ids are numbers
      (possibly `NaN`) or undefined, the dates are the text of date inputs. */
  datatype LoanDraft = LoanDraft(
    id: Option<int>,
    userId: Option<Num>,
    bookId: Option<Num>,
    loanDate: string,
    expectedReturnDate: string,
    returnDate: string,
    status: string)

  /** The blank form: nothing picked, empty dates, status `ACTIVE`. */
  const InitialLoan := LoanDraft(None, None, None, "", "", "", "ACTIVE")

  datatype Field = UserId | BookId | LoanDate | ExpectedReturnDate | ReturnDate | Status

  /** `date ? date.slice(0, 10) : ''`: the calendar-day part of an ISO timestamp. */
  function DayPart(date: Option<string>): (r: string)
    ensures |r| <= 10
    ensures CredentialStore.Truthy(date) ==> r <= date.value && |r| == if |date.value| < 10 then |date.value| else 10
    ensures !CredentialStore.Truthy(date) ==> r == ""
  {
    if CredentialStore.Truthy(date) then Take(date.value, 10) else ""
  }

  /** A timestamp keeps exactly its first ten characters, the `yyyy-mm-dd` day. */
  lemma DayPartOfTimestamp(day: string, time: string)
    requires |day| == 10
    ensures DayPart(Some(day + time)) == day
  {
    assert (day + time)[..10] == day;
  }

  /** Trimming a second time changes nothing. */
  lemma DayPartIdempotent(date: Option<string>)
    ensures DayPart(Some(DayPart(date))) == DayPart(date)
  {
  }

  /** The edit load: `{ ...data, userId, bookId, dates trimmed, status }`. */
  function DraftOfLoan(data: LoanDto): (r: LoanDraft)
    ensures r.id == Some(data.id) && r.status == data.status
    ensures r.userId == Some(Int(data.userId)) && r.bookId == Some(Int(data.bookId))
    ensures r.loanDate == DayPart(data.loanDate)
    ensures r.expectedReturnDate == DayPart(data.expectedReturnDate)
    ensures r.returnDate == DayPart(data.returnDate)
  {
    LoanDraft(Some(data.id), Some(Int(data.userId)), Some(Int(data.bookId)),
      DayPart(data.loanDate), DayPart(data.expectedReturnDate), DayPart(data.returnDate), data.status)
  }

  /** A loan never returned shows an empty return-date input. */
  lemma OpenLoanHasNoReturnDate(data: LoanDto)
    requires data.returnDate.None?
    ensures DraftOfLoan(data).returnDate == ""
  {
  }

  function Get(d: LoanDraft, f: Field): Option<string> {
    match f
    case UserId => None
    case BookId => None
    case LoanDate => Some(d.loanDate)
    case ExpectedReturnDate => Some(d.expectedReturnDate)
    case ReturnDate => Some(d.returnDate)
    case Status => Some(d.status)
  }

  /** `handleChange`: `userId` and `bookId` go through `Number`, the other
      fields keep the text as typed; only the named field changes. */
  function With(d: LoanDraft, f: Field, value: string): (r: LoanDraft)
    ensures f == UserId ==> r == d.(userId := Some(ToNumber(value)))
    ensures f == BookId ==> r == d.(bookId := Some(ToNumber(value)))
    ensures f != UserId && f != BookId ==>
      Get(r, f) == Some(value) && r.userId == d.userId && r.bookId == d.bookId
      && forall g :: g != f ==> Get(r, g) == Get(d, g)
    ensures r.id == d.id
  {
    match f
    case UserId => d.(userId := Some(ToNumber(value)))
    case BookId => d.(bookId := Some(ToNumber(value)))
    case LoanDate => d.(loanDate := value)
    case ExpectedReturnDate => d.(expectedReturnDate := value)
    case ReturnDate => d.(returnDate := value)
    case Status => d.(status := value)
  }

  /** Picking a user from the picker stores that user's id as a number. */
  lemma PickedUserIdRoundTrips(d: LoanDraft, c: Choice)
    ensures With(d, UserId, IntText(c.id)).userId == Some(Int(c.id))
  {
    NumberOfIntText(c.id);
  }

  // ---------------------------------------------------------------- the page

  const LoadError := "Erro ao carregar dados."
  const SaveError := "Erro ao salvar empréstimo."
  const UpdatedMessage := "Empréstimo atualizado com sucesso!"
  const CreatedMessage := "Empréstimo criado com sucesso!"

  class Page {
    const routeId: Option<string>
    var loan: LoanDraft
    var loading: bool
    var saving: bool
    var error: string
    var success: string
    var users: seq<Choice>
    var books: seq<Choice>
    var openSnackbar: bool

    constructor(routeId: Option<string>)
      ensures this.routeId == routeId && loan == InitialLoan
      ensures !loading && !saving && error == "" && success == ""
      ensures users == [] && books == [] && !openSnackbar
    {
      this.routeId := routeId;
      loan := InitialLoan;
      loading := false;
      saving := false;
      error := "";
      success := "";
      users := [];
      books := [];
      openSnackbar := false;
    }

    /** The load effect: both lists together (either failure fails both), then
        the loan itself on an edit page. */
    method Load(usersReply: Reply<seq<UserDto>>, booksReply: Reply<seq<BookDto>>, loanReply: Reply<LoanDto>)
      returns (loanRequested: bool)
      modifies this
      ensures !loading
      ensures loanRequested <==> usersReply.Ok? && booksReply.Ok? && FormMode.IsEdit(routeId)
      ensures !(usersReply.Ok? && booksReply.Ok?) ==>
        users == old(users) && books == old(books) && loan == old(loan) && error == LoadError
      ensures usersReply.Ok? && booksReply.Ok? ==>
        users == UserChoices(usersReply.value) && books == BookChoices(booksReply.value)
      ensures usersReply.Ok? && booksReply.Ok? && !loanRequested ==> loan == old(loan) && error == old(error)
      ensures loanRequested && loanReply.Ok? ==> loan == DraftOfLoan(loanReply.value) && error == old(error)
      ensures loanRequested && loanReply.Fail? ==> loan == old(loan) && error == LoadError
      ensures saving == old(saving) && success == old(success) && openSnackbar == old(openSnackbar)
    {
      loading := true;
      loanRequested := false;
      if usersReply.Fail? || booksReply.Fail? {
        error := LoadError;
      } else {
        users := UserChoices(usersReply.value);
        books := BookChoices(booksReply.value);
        if FormMode.IsEdit(routeId) {
          loanRequested := true;
          match loanReply {
            case Ok(data) => loan := DraftOfLoan(data);
            case Fail(_) => error := LoadError;
          }
        }
      }
      loading := false;
    }

    /** `handleChange`. */
    method HandleChange(f: Field, value: string)
      modifies this
      ensures loan == With(old(loan), f, value)
      ensures error == old(error) && success == old(success) && users == old(users) && books == old(books)
      ensures loading == old(loading) && saving == old(saving) && openSnackbar == old(openSnackbar)
    {
      loan := With(loan, f, value);
    }

    /** `handleSubmit`: the form record as it stands goes to `update` or
        `create`; each success has its own message. */
    method HandleSubmit(reply: Reply<()>) returns (call: FormMode.SaveCall<LoanDraft>, toList: bool)
      modifies this
      ensures call == FormMode.SaveCallFor(routeId, old(loan))
      ensures toList <==> reply.Ok?
      ensures reply.Ok? ==>
        error == "" && openSnackbar
        && success == (if call.Update? then UpdatedMessage else CreatedMessage)
      ensures reply.Fail? ==> error == SaveError && success == "" && openSnackbar == old(openSnackbar)
      ensures !saving && loan == old(loan)
      ensures loading == old(loading) && users == old(users) && books == old(books)
    {
      saving := true;
      error := "";
      success := "";
      call := FormMode.SaveCallFor(routeId, loan);
      match reply {
        case Ok(_) =>
          success := if call.Update? then UpdatedMessage else CreatedMessage;
          openSnackbar := true;
          toList := true;
        case Fail(_) =>
          error := SaveError;
          toList := false;
      }
      saving := false;
    }
  }
}
