/** The data shapes the core exchanges with the REST API (the files under src/types).
    Only the fields some modelled operation reads or writes are kept. A field
    the TypeScript types declare but the code reads with `?.`, compares with
    `undefined` or tests for truthiness is an `Option` here. */
module Entities {
  import opened Wrappers

  /** The signed-in user's profile (`User` in types/index.ts): what `/users/me`
      returns, what the session holds and what it stores under the "user" key. */
  datatype User = User(
    id: int,
    name: string,
    email: string,
    role: Option<string>,
    avatarUrl: Option<string>)

  /** A row of the user-management endpoints (`UserDTO` in types/user.ts). */
  datatype UserDto = UserDto(
    id: Option<int>,
    name: string,
    email: string,
    role: Option<string>,
    status: Option<string>)

  /** A loan (`LoanDTO` in types/loan.ts); the dates are `string | null`. */
  datatype LoanDto = LoanDto(
    id: int,
    userId: int,
    bookId: int,
    loanDate: Option<string>,
    expectedReturnDate: Option<string>,
    returnDate: Option<string>,
    status: string)

  datatype AuthorDto = AuthorDto(id: int, name: string)

  datatype CategoryDto = CategoryDto(id: int, name: string)

  /** A book (`BookDTO` in types/book.ts) with its nested authors and category. */
  datatype BookDto = BookDto(
    id: Option<int>,
    title: string,
    isbn: string,
    availableQuantity: int,
    totalQuantity: int,
    authors: Option<seq<AuthorDto>>,
    category: Option<CategoryDto>)
}
