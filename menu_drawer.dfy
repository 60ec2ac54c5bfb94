/** The navigation drawer (src/components/LibraryMenuDrawer.tsx): a fixed
    list of sections, the item selected for the current path, and what a
    click does. */
module MenuDrawer {
  import Lists

  datatype Section = Section(caption: string, path: string)

  /** `sections`, in display order. */
  const Sections: seq<Section> := [
    Section("Dashboard", "/dashboard"),
    Section("Livros", "/books"),
    Section("Autores", "/authors"),
    Section("Categorias", "/categories"),
    Section("Empréstimos", "/loans"),
    Section("Usuários", "/users")
  ]

  /** `currentPath.startsWith(section.path)`: a raw text prefix, blind to path segments. */
  predicate Selected(currentPath: string, s: Section) {
    s.path <= currentPath
  }

  /** The items drawn as selected. */
  function SelectedSections(currentPath: string): seq<Section> {
    Lists.Filter(Sections, (s: Section) => Selected(currentPath, s))
  }

  /** Six sections; every path is "/" followed by a character no other path has there. */
  lemma SectionsShape()
    ensures |Sections| == 6
    ensures forall i :: 0 <= i < |Sections| ==> |Sections[i].path| >= 2 && Sections[i].path[0] == '/'
    ensures forall i, j :: 0 <= i < j < |Sections| ==> Sections[i].path[1] != Sections[j].path[1]
  {
  }

  /** No section path is a prefix of another. */
  lemma NoPathPrefixOfAnother(i: int, j: int)
    requires 0 <= i < |Sections| && 0 <= j < |Sections| && i != j
    ensures !(Sections[i].path <= Sections[j].path)
  {
    SectionsShape();
    assert Sections[i].path[1] != Sections[j].path[1];
  }

  /** Hence at most one item is selected, whatever the path. */
  lemma AtMostOneSelected(currentPath: string, i: int, j: int)
    requires 0 <= i < |Sections| && 0 <= j < |Sections|
    requires Selected(currentPath, Sections[i]) && Selected(currentPath, Sections[j])
    ensures i == j
  {
    SectionsShape();
    assert Sections[i].path[1] == currentPath[1] == Sections[j].path[1];
  }

  /** The selection is a text prefix: "/booksX" selects the books section. */
  lemma PrefixNotSegment()
    ensures Selected("/booksX", Sections[1]) && Sections[1].caption == "Livros"
    ensures Selected("/books/12/edit", Sections[1])
  {
  }

  /** What a click does, in order. */
  datatype Effect = Navigate(path: string) | Close

  /** `onNavigate(section.path); onClose();`. */
  function ClickEffects(s: Section): seq<Effect> {
    [Navigate(s.path), Close]
  }

  /** Clicking a section navigates to its path, which selects that section
      and no other, and then closes the drawer. */
  lemma ClickSelectsClicked(i: int)
    requires 0 <= i < |Sections|
    ensures ClickEffects(Sections[i]) == [Navigate(Sections[i].path), Close]
    ensures SelectedSections(Sections[i].path) == [Sections[i]]
  {
    var p := Sections[i].path;
    var keep := (s: Section) => Selected(p, s);
    forall j | 0 <= j < |Sections| && j != i
      ensures !keep(Sections[j])
    {
      NoPathPrefixOfAnother(j, i);
    }
    Lists.FilterUnique(Sections, i, keep);
  }
}
