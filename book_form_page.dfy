/** The create/edit book form (src/pages/books/BookFormPage.tsx): the author
    and category lists, the edit-load mapping of a book into the form, the
    field handlers with their numeric coercions, and the submit. */
module BookFormPage {
  import opened Wrappers
  import opened Http
  import opened Text
  import opened Entities
  import Lists
  import FormMode

  // ---------------------------------------------------------------- list bodies

  /** A list endpoint's body: a page object with `content`, or a bare array. */
  datatype ListBody<T> = WithContent(content: seq<T>) | Bare(items: seq<T>)

  /** `res.data.content || res.data`: a page's content, even an empty one, or the array itself. */
  function Unwrap<T>(body: ListBody<T>): seq<T> {
    match body
    case WithContent(content) => content
    case Bare(items) => items
  }

  // ---------------------------------------------------------------- the form record

  /** A numeric field as the form holds it: a number until the user types in
      it, then the text typed (only `categoryId` is converted back). */
  datatype Value = Number(n: Num) | Typed(text: string)

  /** `Partial<BookDTO>` as the form holds it. */
  datatype BookDraft = BookDraft(
    id: Option<int>,
    title: string,
    isbn: string,
    authorIds: seq<Num>,
    categoryId: Num,
    availableQuantity: Value,
    totalQuantity: Value)

  /** The blank form: empty title and ISBN, no authors, category 0, one copy of everything. */
  const InitialBook := BookDraft(None, "", "", [], Int(0), Number(Int(1)), Number(Int(1)))

  /** `data.authors?.map(a => a.id) || []`. */
  function AuthorIdsOf(authors: Option<seq<AuthorDto>>): (r: seq<Num>)
    ensures authors.None? ==> r == []
    ensures authors.Some? ==>
      |r| == |authors.value| && forall i :: 0 <= i < |r| ==> r[i] == Int(authors.value[i].id)
  {
    if authors.None? then [] else Lists.Map(authors.value, (a: AuthorDto) => Int(a.id))
  }

  /** `data.category?.id || 0`. */
  function CategoryIdOf(category: Option<CategoryDto>): Num {
    if category.Some? then Int(category.value.id) else Int(0)
  }

  /** The edit load: `{ ...data, authorIds, categoryId }`. */
  function DraftOfBook(data: BookDto): BookDraft {
    BookDraft(data.id, data.title, data.isbn, AuthorIdsOf(data.authors), CategoryIdOf(data.category),
      Number(Int(data.availableQuantity)), Number(Int(data.totalQuantity)))
  }

  /** The author ids are listed in the order of the book's authors. */
  lemma AuthorIdsKeepOrder(a: seq<AuthorDto>, b: seq<AuthorDto>)
    ensures AuthorIdsOf(Some(a + b)) == AuthorIdsOf(Some(a)) + AuthorIdsOf(Some(b))
  {
    var whole, front, back := AuthorIdsOf(Some(a + b)), AuthorIdsOf(Some(a)), AuthorIdsOf(Some(b));
    assert |whole| == |front + back|;
    forall i | 0 <= i < |whole|
      ensures whole[i] == (front + back)[i]
    {
      if i < |a| {
        assert (a + b)[i] == a[i];
      } else {
        assert (a + b)[i] == b[i - |a|];
      }
    }
  }

  /** A book loaded without authors or category is the blank selection. */
  lemma BareBookHasNoSelection(data: BookDto)
    requires data.authors.None? && data.category.None?
    ensures DraftOfBook(data).authorIds == InitialBook.authorIds
    ensures DraftOfBook(data).categoryId == InitialBook.categoryId
  {
  }

  datatype Field = Title | Isbn | CategoryId | TotalQuantity | AvailableQuantity

  /** `handleChange`: `categoryId` goes through `Number`; the other fields
      keep the text typed; nothing else changes. */
  function With(d: BookDraft, f: Field, value: string): (r: BookDraft)
    ensures r.id == d.id && r.authorIds == d.authorIds
    ensures f == Title ==> r == d.(title := value)
    ensures f == Isbn ==> r == d.(isbn := value)
    ensures f == CategoryId ==> r == d.(categoryId := ToNumber(value))
    ensures f == TotalQuantity ==> r == d.(totalQuantity := Typed(value))
    ensures f == AvailableQuantity ==> r == d.(availableQuantity := Typed(value))
  {
    match f
    case Title => d.(title := value)
    case Isbn => d.(isbn := value)
    case CategoryId => d.(categoryId := ToNumber(value))
    case TotalQuantity => d.(totalQuantity := Typed(value))
    case AvailableQuantity => d.(availableQuantity := Typed(value))
  }

  /** Picking a category from the select stores its id as a number. */
  lemma PickedCategoryRoundTrips(d: BookDraft, c: CategoryDto)
    ensures With(d, CategoryId, IntText(c.id)).categoryId == Int(c.id)
  {
    NumberOfIntText(c.id);
  }

  /** What the multiple select hands over: an array of picked values, or a
      single value (which the handler rejects). */
  datatype SelectValue = Many(picked: seq<string>) | One(text: string)

  /** `Array.isArray(value) ? value.map(Number) : []`. */
  function AuthorIdsFrom(v: SelectValue): (r: seq<Num>)
    ensures v.One? ==> r == []
    ensures v.Many? ==>
      |r| == |v.picked| && forall i :: 0 <= i < |r| ==> r[i] == ToNumber(v.picked[i])
  {
    match v
    case Many(picked) => Lists.Map(picked, ToNumber)
    case One(_) => []
  }

  /** Picking authors by their ids stores exactly those ids, in the order picked. */
  lemma PickedAuthorsRoundTrip(authors: seq<AuthorDto>)
    ensures AuthorIdsFrom(Many(Lists.Map(authors, (a: AuthorDto) => IntText(a.id)))) == AuthorIdsOf(Some(authors))
  {
    var picked := Lists.Map(authors, (a: AuthorDto) => IntText(a.id));
    forall i | 0 <= i < |authors|
      ensures AuthorIdsFrom(Many(picked))[i] == AuthorIdsOf(Some(authors))[i]
    {
      NumberOfIntText(authors[i].id);
    }
  }

  // ---------------------------------------------------------------- the page

  const AuthorsError := "Erro ao carregar autores."
  const CategoriesError := "Erro ao carregar categorias."
  const LoadError := "Erro ao carregar dados."
  const SaveError := "Erro ao salvar livro."

  class Page {
    const routeId: Option<string>
    var book: BookDraft
    var loading: bool
    var saving: bool
    var error: string
    var authors: seq<AuthorDto>
    var categories: seq<CategoryDto>

    constructor(routeId: Option<string>)
      ensures this.routeId == routeId && book == InitialBook
      ensures !loading && !saving && error == "" && authors == [] && categories == []
    {
      this.routeId := routeId;
      book := InitialBook;
      loading := false;
      saving := false;
      error := "";
      authors := [];
      categories := [];
    }

    /** The `/authors` request of the mount effect. */
    method AuthorsLoaded(reply: Reply<ListBody<AuthorDto>>)
      modifies this
      ensures reply.Ok? ==> authors == Unwrap(reply.value) && error == old(error)
      ensures reply.Fail? ==> authors == old(authors) && error == AuthorsError
      ensures book == old(book) && categories == old(categories) && loading == old(loading)
      ensures saving == old(saving)
    {
      match reply {
        case Ok(body) => authors := Unwrap(body);
        case Fail(_) => error := AuthorsError;
      }
    }

    /** The `/categories` request of the mount effect. */
    method CategoriesLoaded(reply: Reply<ListBody<CategoryDto>>)
      modifies this
      ensures reply.Ok? ==> categories == Unwrap(reply.value) && error == old(error)
      ensures reply.Fail? ==> categories == old(categories) && error == CategoriesError
      ensures book == old(book) && authors == old(authors) && loading == old(loading)
      ensures saving == old(saving)
    {
      match reply {
        case Ok(body) => categories := Unwrap(body);
        case Fail(_) => error := CategoriesError;
      }
    }

    /** The book load of the mount effect: only an edit page fetches. */
    method LoadBook(reply: Reply<BookDto>) returns (requested: bool)
      modifies this
      ensures !loading
      ensures requested <==> FormMode.IsEdit(routeId)
      ensures !requested ==> book == old(book) && error == old(error)
      ensures requested && reply.Ok? ==> book == DraftOfBook(reply.value) && error == old(error)
      ensures requested && reply.Fail? ==> book == old(book) && error == LoadError
      ensures authors == old(authors) && categories == old(categories) && saving == old(saving)
    {
      loading := true;
      requested := FormMode.IsEdit(routeId);
      if requested {
        match reply {
          case Ok(data) => book := DraftOfBook(data);
          case Fail(_) => error := LoadError;
        }
      }
      loading := false;
    }

    /** `handleChange`. */
    method HandleChange(f: Field, value: string)
      modifies this
      ensures book == With(old(book), f, value)
      ensures error == old(error) && authors == old(authors) && categories == old(categories)
      ensures loading == old(loading) && saving == old(saving)
    {
      book := With(book, f, value);
    }

    /** `handleAuthorChange`: only `authorIds` changes. */
    method HandleAuthorChange(v: SelectValue)
      modifies this
      ensures book == old(book).(authorIds := AuthorIdsFrom(v))
      ensures error == old(error) && authors == old(authors) && categories == old(categories)
      ensures loading == old(loading) && saving == old(saving)
    {
      book := book.(authorIds := AuthorIdsFrom(v));
    }

    /** `handleSubmit`: the form record goes to `update` or `create`; `toList`
        says whether the page navigates back to the list. */
    method HandleSubmit(reply: Reply<()>) returns (call: FormMode.SaveCall<BookDraft>, toList: bool)
      modifies this
      ensures call == FormMode.SaveCallFor(routeId, old(book))
      ensures toList <==> reply.Ok?
      ensures error == (if reply.Ok? then "" else SaveError)
      ensures !saving && book == old(book)
      ensures loading == old(loading) && authors == old(authors) && categories == old(categories)
    {
      saving := true;
      error := "";
      call := FormMode.SaveCallFor(routeId, book);
      toList := reply.Ok?;
      if reply.Fail? {
        error := SaveError;
      }
      saving := false;
    }
  }
}
