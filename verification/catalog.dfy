/** The client-side catalogue search (`performSearch`): the search form's
    four inputs narrow a list of catalogue entries one filter at a time. */
module Catalog {
  import opened Wrappers
  import opened Strings
  import opened Lists

  /** A catalogue entry as the client sees it. `kind` is the `type` field
      (`'movie'` or `'series'`); `duration` is in minutes and may be absent. */
  datatype Movie = Movie(
    id: int,
    title: string,
    kind: string,
    year: int,
    genre: string,
    poster: string,
    description: string,
    duration: Option<int>)

  /** The raw values of the search box and the three drop-downs; an empty
      string means "no filter". */
  datatype SearchForm = SearchForm(
    input: string,
    typeFilter: string,
    genreFilter: string,
    yearFilter: string)

  /** The four filters, in the order the search applies them; each one is
      skipped when its input is empty. The query is lower-cased once, and
      so is every title it is compared with. */
  function PerformSearch(items: seq<Movie>, form: SearchForm): (r: seq<Movie>)
    ensures forall m :: m in r <==> m in items && Matches(m, form)
    ensures NoFilters(form) ==> r == items
  {
    var query := ToLower(form.input);
    var r1 := if Truthy(query) then Filter(items, TitleFilter(query)) else items;
    var r2 := if Truthy(form.typeFilter) then Filter(r1, TypeFilter(form.typeFilter)) else r1;
    var r3 := if Truthy(form.genreFilter) then Filter(r2, GenreFilter(form.genreFilter)) else r2;
    if Truthy(form.yearFilter) then Filter(r3, YearFilter(form.yearFilter)) else r3
  }

  function TitleFilter(query: string): Movie -> bool {
    (m: Movie) => Includes(ToLower(m.title), query)
  }

  function TypeFilter(kind: string): Movie -> bool {
    (m: Movie) => m.kind == kind
  }

  function GenreFilter(genre: string): Movie -> bool {
    (m: Movie) => m.genre == genre
  }

  function YearFilter(year: string): Movie -> bool {
    (m: Movie) => IntToString(m.year) == year
  }

  predicate NoFilters(form: SearchForm) {
    form.input == "" && form.typeFilter == "" && form.genreFilter == "" && form.yearFilter == ""
  }

  /** An entry passes every active filter: the lower-cased title contains
      the lower-cased query, the type and genre are equal to the chosen
      ones, and the year prints as the chosen year. */
  predicate Matches(m: Movie, form: SearchForm) {
    var query := ToLower(form.input);
    && (Truthy(query) ==> Includes(ToLower(m.title), query))
    && (Truthy(form.typeFilter) ==> m.kind == form.typeFilter)
    && (Truthy(form.genreFilter) ==> m.genre == form.genreFilter)
    && (Truthy(form.yearFilter) ==> IntToString(m.year) == form.yearFilter)
  }

  /** The search as one pass over the list with the conjoined condition. */
  function SearchReference(items: seq<Movie>, form: SearchForm): seq<Movie>
    decreases |items|
  {
    if |items| == 0 then []
    else if Matches(items[0], form) then [items[0]] + SearchReference(items[1..], form)
    else SearchReference(items[1..], form)
  }

  /** The search commutes with concatenation, so it never reorders entries. */
  lemma PerformSearchAppend(a: seq<Movie>, b: seq<Movie>, form: SearchForm)
    ensures PerformSearch(a + b, form) == PerformSearch(a, form) + PerformSearch(b, form)
  {
    var query := ToLower(form.input);
    var p1 := TitleFilter(query);
    var p2 := TypeFilter(form.typeFilter);
    var p3 := GenreFilter(form.genreFilter);
    var p4 := YearFilter(form.yearFilter);
    var a1 := if Truthy(query) then Filter(a, p1) else a;
    var b1 := if Truthy(query) then Filter(b, p1) else b;
    if Truthy(query) { FilterAppend(a, b, p1); }
    var a2 := if Truthy(form.typeFilter) then Filter(a1, p2) else a1;
    var b2 := if Truthy(form.typeFilter) then Filter(b1, p2) else b1;
    if Truthy(form.typeFilter) { FilterAppend(a1, b1, p2); }
    var a3 := if Truthy(form.genreFilter) then Filter(a2, p3) else a2;
    var b3 := if Truthy(form.genreFilter) then Filter(b2, p3) else b2;
    if Truthy(form.genreFilter) { FilterAppend(a2, b2, p3); }
    if Truthy(form.yearFilter) { FilterAppend(a3, b3, p4); }
  }

  /** Applying the four filters one after another is the same as the
      single pass with their conjunction. */
  lemma {:induction false} PerformSearchIsSinglePass(items: seq<Movie>, form: SearchForm)
    ensures PerformSearch(items, form) == SearchReference(items, form)
    decreases |items|
  {
    if |items| > 0 {
      assert items == [items[0]] + items[1..];
      PerformSearchAppend([items[0]], items[1..], form);
      PerformSearchIsSinglePass(items[1..], form);
      PerformSearchSingle(items[0], form);
    }
  }

  /** A one-entry list keeps its entry exactly when it matches. */
  lemma PerformSearchSingle(m: Movie, form: SearchForm)
    ensures PerformSearch([m], form) == if Matches(m, form) then [m] else []
  {
    var one := PerformSearch([m], form);
    if Matches(m, form) {
      assert m in one;
    } else {
      assert m !in one;
    }
  }

  /** With a year chosen from the drop-down (the year printed as a string),
      exactly the entries of that year pass the year filter. */
  lemma YearFilterIsYearEquality(m: Movie, form: SearchForm, year: int)
    requires form.yearFilter == IntToString(year)
    ensures Matches(m, form) <==> Matches(m, form.(yearFilter := "")) && m.year == year
  {
    IntToStringInjective(m.year, year);
  }

  /** The three entries the search page offers, with the source's posters
      and descriptions; their catalogue rating is not part of `Movie`. */
  function MockResults(): seq<Movie> {
    [ Movie(101, "Matrix", "movie", 1999, "sci-fi",
            "https://via.placeholder.com/200x300/9C27B0/white?text=Matrix",
            "Programista komputerowy zostaje wciągnięty w rewolucję przeciwko maszynom.", None),
      Movie(102, "Stranger Things", "series", 2016, "horror",
            "https://via.placeholder.com/200x300/F44336/white?text=Stranger+Things",
            "Grupa dzieci walczy z nadprzyrodzonymi siłami w małym miasteczku.", None),
      Movie(103, "Avengers: Endgame", "movie", 2019, "action",
            "https://via.placeholder.com/200x300/3F51B5/white?text=Endgame",
            "Superbohaterowie próbują odwrócić skutki działań Thanosa.", None) ]
  }

  /** Of the three entries only "Matrix" has a title containing "matrix";
      the other two titles lack its letter 'x'. */
  lemma MatrixQueryMatches()
    ensures Matches(MockResults()[0], SearchForm("matrix", "", "", ""))
  {
    assert ToLower("matrix") == "matrix";
    assert ToLower(MockResults()[0].title) == "matrix";
  }

  lemma StrangerThingsDoesNotMatchMatrix()
    ensures !Matches(MockResults()[1], SearchForm("matrix", "", "", ""))
  {
    assert ToLower("matrix") == "matrix";
    assert ToLower(MockResults()[1].title) == "stranger things";
    MissingCharNotIncluded(ToLower(MockResults()[1].title), "matrix", 5);
  }

  lemma EndgameDoesNotMatchMatrix()
    ensures !Matches(MockResults()[2], SearchForm("matrix", "", "", ""))
  {
    assert ToLower("matrix") == "matrix";
    assert ToLower(MockResults()[2].title) == "avengers: endgame";
    MissingCharNotIncluded(ToLower(MockResults()[2].title), "matrix", 5);
  }

  /** Searching for "matrix" among them finds only "Matrix". */
  lemma SearchMatrixExample()
    ensures PerformSearch(MockResults(), SearchForm("matrix", "", "", "")) == [MockResults()[0]]
  {
    var items := MockResults();
    var form := SearchForm("matrix", "", "", "");
    MatrixQueryMatches();
    StrangerThingsDoesNotMatchMatrix();
    EndgameDoesNotMatchMatrix();
    assert SearchReference(items[3..], form) == [];
    assert SearchReference(items[2..], form) == [];
    assert SearchReference(items[1..], form) == [];
    PerformSearchIsSinglePass(items, form);
  }
}
