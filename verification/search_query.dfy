/** The SQL text and parameter list that `GET /api/movies/search` builds
    from the request's query string, one optional clause at a time. The
    query string's values are `undefined` or strings. */
module SearchQuery {
  import opened Wrappers
  import opened Strings

  datatype SearchRequest = SearchRequest(
    query: Option<string>,
    kind: Option<string>,
    genre: Option<string>,
    year: Option<string>)

  datatype Query = Query(sql: string, params: seq<string>)

  /** The pieces of SQL the builder glues together: a base query, one
      clause per filter, and a tail. */
  datatype Fragments = Fragments(
    base: string,
    title: string,
    kind: string,
    genre: string,
    year: string,
    tail: string)

  /** The route's fragments. The query starts from every movie under an
      always-true condition, so that each filter can be appended as an `AND`
      clause; each clause is a condition followed by one placeholder; the
      results come sorted by title, at most 50 of them. */
  const Select: string := "SELECT * FROM movies"
  const AlwaysTrue: string := " WHERE 1=1"
  const TitleCondition: string := " AND title LIKE "
  const TypeCondition: string := " AND type = "
  const GenreCondition: string := " AND genre LIKE "
  const YearCondition: string := " AND YEAR(release_date) = "
  const OrderByTitle: string := " ORDER BY title"
  const Limit50: string := " LIMIT 50"

  function SearchFragments(): Fragments {
    Fragments(
      Select + AlwaysTrue,
      TitleCondition + "?",
      TypeCondition + "?",
      GenreCondition + "?",
      YearCondition + "?",
      OrderByTitle + Limit50)
  }

  /** The `LIKE` pattern `%value%`: the value anywhere in the column. */
  function Contains(value: string): string {
    "%" + value + "%"
  }

  /** The number of `?` placeholders in a piece of SQL. */
  function Placeholders(sql: string): nat
    decreases |sql|
  {
    if |sql| == 0 then 0 else (if sql[0] == '?' then 1 else 0) + Placeholders(sql[1..])
  }

  lemma {:induction false} PlaceholdersAppend(a: string, b: string)
    ensures Placeholders(a + b) == Placeholders(a) + Placeholders(b)
    decreases |a|
  {
    if |a| == 0 {
      assert a + b == b;
    } else {
      assert (a + b)[1..] == a[1..] + b;
      PlaceholdersAppend(a[1..], b);
    }
  }

  /** The base and the tail bind nothing; each clause binds one value. */
  predicate PlaceholdersFit(f: Fragments) {
    && Placeholders(f.base) == 0 && Placeholders(f.tail) == 0
    && Placeholders(f.title) == 1 && Placeholders(f.kind) == 1
    && Placeholders(f.genre) == 1 && Placeholders(f.year) == 1
  }

  /** One `if (value) { sql += clause; params.push(param) }` step. */
  function AddClause(q: Query, value: Option<string>, clause: string, param: string): (r: Query)
    requires Placeholders(clause) == 1
    requires Placeholders(q.sql) == |q.params|
    ensures Placeholders(r.sql) == |r.params|
    ensures q.sql <= r.sql
    ensures TruthyOpt(value) ==> r == Query(q.sql + clause, q.params + [param])
    ensures !TruthyOpt(value) ==> r == q
  {
    if TruthyOpt(value) then
      PlaceholdersAppend(q.sql, clause);
      Query(q.sql + clause, q.params + [param])
    else q
  }

  function Active(value: Option<string>): nat {
    if TruthyOpt(value) then 1 else 0
  }

  /** The builder over given fragments: the base query, the clauses for
      title, type, genre and year in that order, then the tail. */
  function Build(f: Fragments, req: SearchRequest): (q: Query)
    requires PlaceholdersFit(f)
    ensures Placeholders(q.sql) == |q.params|
    ensures f.base <= q.sql
    ensures |q.sql| >= |f.tail| && q.sql[|q.sql| - |f.tail|..] == f.tail
    ensures |q.params| == Active(req.query) + Active(req.kind) + Active(req.genre) + Active(req.year)
  {
    var q0 := Query(f.base, []);
    var q1 := AddClause(q0, req.query, f.title, Contains(req.query.GetOr("")));
    var q2 := AddClause(q1, req.kind, f.kind, req.kind.GetOr(""));
    var q3 := AddClause(q2, req.genre, f.genre, Contains(req.genre.GetOr("")));
    var q4 := AddClause(q3, req.year, f.year, req.year.GetOr(""));
    PlaceholdersAppend(q4.sql, f.tail);
    Appended(q4.sql, f.tail);
    PrefixTransitive(f.base, q1.sql, q2.sql);
    PrefixTransitive(f.base, q2.sql, q3.sql);
    PrefixTransitive(f.base, q3.sql, q4.sql);
    PrefixTransitive(f.base, q4.sql, q4.sql + f.tail);
    Query(q4.sql + f.tail, q4.params)
  }

  lemma PrefixTransitive(a: string, b: string, c: string)
    requires a <= b && b <= c
    ensures a <= c
  {
    assert c[..|b|][..|a|] == c[..|a|];
  }

  lemma Appended(a: string, b: string)
    ensures a <= a + b
    ensures (a + b)[|a + b| - |b|..] == b
  {
  }

  /** The route's query: as many placeholders as parameters, one parameter
      per filter that is set, always the base query's head and the tail. */
  function BuildSearch(req: SearchRequest): (q: Query)
    ensures Placeholders(q.sql) == |q.params|
    ensures |q.params| == Active(req.query) + Active(req.kind) + Active(req.genre) + Active(req.year)
    ensures SearchFragments().base <= q.sql
    ensures |q.sql| >= |SearchFragments().tail|
    ensures q.sql[|q.sql| - |SearchFragments().tail|..] == SearchFragments().tail
  {
    SearchPlaceholdersFit();
    Build(SearchFragments(), req)
  }

  // ---------------------------------------------------------------------------
  // The shape of the query

  /** The clauses of the filters that are set, in the builder's order. */
  function Middle(f: Fragments, req: SearchRequest): string {
    (if TruthyOpt(req.query) then f.title else "") +
    (if TruthyOpt(req.kind) then f.kind else "") +
    (if TruthyOpt(req.genre) then f.genre else "") +
    (if TruthyOpt(req.year) then f.year else "")
  }

  function Optional<T>(present: bool, x: T): seq<T> {
    if present then [x] else []
  }

  /** The parameters in clause order: the title pattern, the type, the genre
      pattern, the year, each only when its filter is set. */
  function BoundParams(req: SearchRequest): seq<string> {
    Optional(TruthyOpt(req.query), Contains(req.query.GetOr(""))) +
    Optional(TruthyOpt(req.kind), req.kind.GetOr("")) +
    Optional(TruthyOpt(req.genre), Contains(req.genre.GetOr(""))) +
    Optional(TruthyOpt(req.year), req.year.GetOr(""))
  }

  lemma Regroup<T>(a: seq<T>, b: seq<T>, c: seq<T>, d: seq<T>, e: seq<T>)
    ensures a + (b + c + d + e) == a + b + c + d + e
  {
  }

  /** One builder step appends the clause and its parameter, or nothing. */
  lemma AddClauseShape(q: Query, value: Option<string>, clause: string, param: string)
    requires Placeholders(clause) == 1 && Placeholders(q.sql) == |q.params|
    ensures AddClause(q, value, clause, param) ==
      Query(q.sql + (if TruthyOpt(value) then clause else ""), q.params + Optional(TruthyOpt(value), param))
  {
    if !TruthyOpt(value) {
      assert q.sql + "" == q.sql && q.params + [] == q.params;
    }
  }

  /** The builder's steps add up to the base, the clauses of the filters
      that are set, and the tail, with the parameters in clause order. */
  lemma BuildShape(f: Fragments, req: SearchRequest)
    requires PlaceholdersFit(f)
    ensures Build(f, req) == Query(f.base + Middle(f, req) + f.tail, BoundParams(req))
  {
    var q0 := Query(f.base, []);
    var q1 := AddClause(q0, req.query, f.title, Contains(req.query.GetOr("")));
    var q2 := AddClause(q1, req.kind, f.kind, req.kind.GetOr(""));
    var q3 := AddClause(q2, req.genre, f.genre, Contains(req.genre.GetOr("")));
    var q4 := AddClause(q3, req.year, f.year, req.year.GetOr(""));
    AddClauseShape(q0, req.query, f.title, Contains(req.query.GetOr("")));
    AddClauseShape(q1, req.kind, f.kind, req.kind.GetOr(""));
    AddClauseShape(q2, req.genre, f.genre, Contains(req.genre.GetOr("")));
    AddClauseShape(q3, req.year, f.year, req.year.GetOr(""));
    var c1, c2 := if TruthyOpt(req.query) then f.title else "", if TruthyOpt(req.kind) then f.kind else "";
    var c3, c4 := if TruthyOpt(req.genre) then f.genre else "", if TruthyOpt(req.year) then f.year else "";
    var p1 := Optional(TruthyOpt(req.query), Contains(req.query.GetOr("")));
    var p2 := Optional(TruthyOpt(req.kind), req.kind.GetOr(""));
    var p3 := Optional(TruthyOpt(req.genre), Contains(req.genre.GetOr("")));
    var p4 := Optional(TruthyOpt(req.year), req.year.GetOr(""));
    assert q4 == Query(f.base + c1 + c2 + c3 + c4, [] + p1 + p2 + p3 + p4);
    Regroup(f.base, c1, c2, c3, c4);
    Regroup([], p1, p2, p3, p4);
    assert Middle(f, req) == c1 + c2 + c3 + c4;
    assert BoundParams(req) == [] + (p1 + p2 + p3 + p4);
  }

  /** With no filter set the query is
      `SELECT * FROM movies WHERE 1=1 ORDER BY title LIMIT 50`, with no
      parameters. */
  lemma NoFilterQuery(req: SearchRequest)
    requires !TruthyOpt(req.query) && !TruthyOpt(req.kind) && !TruthyOpt(req.genre) && !TruthyOpt(req.year)
    ensures BuildSearch(req) == Query(Select + AlwaysTrue + (OrderByTitle + Limit50), [])
  {
    SearchPlaceholdersFit();
    BuildShape(SearchFragments(), req);
    assert Middle(SearchFragments(), req) == "";
    assert SearchFragments().base + "" == SearchFragments().base;
  }

  // ---------------------------------------------------------------------------
  // Reading the clauses back

  /** Which of the four clauses a query contains. */
  datatype Clauses = Clauses(title: bool, kind: bool, genre: bool, year: bool)

  /** Takes `clause` off the front of `s` if it is there. */
  function Take(s: string, clause: string): (bool, string) {
    if clause <= s then (true, s[|clause|..]) else (false, s)
  }

  /** Reads a query of the builder's shape: the base, any of the four
      clauses in order, the tail; anything else is rejected. */
  function ParseClauses(f: Fragments, sql: string): Option<Clauses> {
    if |sql| < |f.base| + |f.tail| || !(f.base <= sql) || sql[|sql| - |f.tail|..] != f.tail then None
    else ParseMiddle(f, sql[|f.base|..|sql| - |f.tail|])
  }

  /** Reads the clauses between the base and the tail. */
  function ParseMiddle(f: Fragments, middle: string): Option<Clauses> {
    var (title, s1) := Take(middle, f.title);
    var (kind, s2) := Take(s1, f.kind);
    var (genre, s3) := Take(s2, f.genre);
    var (year, s4) := Take(s3, f.year);
    if s4 == "" then Some(Clauses(title, kind, genre, year)) else None
  }

  /** Two clauses disagree at some position they both have. */
  ghost predicate Differ(c: string, d: string) {
    exists i :: 0 <= i < |c| && i < |d| && c[i] != d[i]
  }

  /** No clause can be mistaken for the start of another. */
  ghost predicate Separable(f: Fragments) {
    && |f.title| > 0 && |f.kind| > 0 && |f.genre| > 0 && |f.year| > 0
    && Differ(f.title, f.kind) && Differ(f.title, f.genre) && Differ(f.title, f.year)
    && Differ(f.kind, f.genre) && Differ(f.kind, f.year) && Differ(f.genre, f.year)
  }

  /** A clause is not found in front of a different clause. */
  lemma TakeAbsent(c: string, d: string, rest: string)
    requires Differ(c, d)
    ensures Take(d + rest, c) == (false, d + rest)
  {
    var i :| 0 <= i < |c| && i < |d| && c[i] != d[i];
    assert (d + rest)[i] == d[i];
  }

  lemma TakePresent(c: string, rest: string)
    ensures Take(c + rest, c) == (true, rest)
  {
    assert (c + rest)[|c|..] == rest;
  }

  lemma Framed(a: string, m: string, b: string)
    ensures a <= a + m + b
    ensures (a + m + b)[|a + m + b| - |b|..] == b
    ensures (a + m + b)[|a|..|a + m + b| - |b|] == m
  {
  }

  function Prepend(present: bool, clause: string, rest: string): string {
    if present then clause + rest else rest
  }

  /** `Take` finds the clause exactly when it is there, as long as what
      follows is empty or starts with a different clause. */
  lemma TakeOptional(present: bool, c: string, rest: string, next: string, after: string)
    requires |c| > 0
    requires rest == "" || (rest == next + after && Differ(c, next))
    ensures Take(Prepend(present, c, rest), c) == (present, rest)
  {
    if present {
      TakePresent(c, rest);
    } else if rest != "" {
      TakeAbsent(c, next, after);
    }
  }

  /** The clauses of the filters that are set, read back. */
  lemma ParseMiddleClauses(f: Fragments, t: bool, k: bool, g: bool, y: bool)
    requires Separable(f)
    ensures ParseMiddle(f, Prepend(t, f.title, Prepend(k, f.kind, Prepend(g, f.genre, Prepend(y, f.year, "")))))
         == Some(Clauses(t, k, g, y))
  {
    var s3 := Prepend(y, f.year, "");
    var s2 := Prepend(g, f.genre, s3);
    var s1 := Prepend(k, f.kind, s2);
    assert y ==> s3 == f.year + "";
    TakeOptional(y, f.year, "", "", "");
    TakeOptional(g, f.genre, s3, f.year, "");
    if k {
      TakeOptional(t, f.title, s1, f.kind, s2);
    } else if g {
      TakeOptional(t, f.title, s1, f.genre, s3);
    } else {
      TakeOptional(t, f.title, s1, f.year, "");
    }
    if g {
      TakeOptional(k, f.kind, s2, f.genre, s3);
    } else {
      TakeOptional(k, f.kind, s2, f.year, "");
    }
  }

  lemma PrependConcat(present: bool, clause: string, rest: string)
    ensures Prepend(present, clause, rest) == (if present then clause else "") + rest
  {
    if !present {
      assert "" + rest == rest;
    }
  }

  lemma Nest(a: string, b: string, c: string, d: string)
    ensures a + b + c + d == a + (b + (c + (d + "")))
  {
    assert d + "" == d;
  }

  lemma MiddleNested(f: Fragments, req: SearchRequest)
    ensures Middle(f, req) ==
      Prepend(TruthyOpt(req.query), f.title, Prepend(TruthyOpt(req.kind), f.kind,
        Prepend(TruthyOpt(req.genre), f.genre, Prepend(TruthyOpt(req.year), f.year, ""))))
  {
    var r4 := Prepend(TruthyOpt(req.year), f.year, "");
    var r3 := Prepend(TruthyOpt(req.genre), f.genre, r4);
    var r2 := Prepend(TruthyOpt(req.kind), f.kind, r3);
    PrependConcat(TruthyOpt(req.year), f.year, "");
    PrependConcat(TruthyOpt(req.genre), f.genre, r4);
    PrependConcat(TruthyOpt(req.kind), f.kind, r3);
    PrependConcat(TruthyOpt(req.query), f.title, r2);
    Nest(if TruthyOpt(req.query) then f.title else "", if TruthyOpt(req.kind) then f.kind else "",
         if TruthyOpt(req.genre) then f.genre else "", if TruthyOpt(req.year) then f.year else "");
  }

  /** A clause is in the SQL exactly when its filter is set. */
  lemma ParseBuild(f: Fragments, req: SearchRequest)
    requires PlaceholdersFit(f) && Separable(f)
    ensures ParseClauses(f, Build(f, req).sql) ==
      Some(Clauses(TruthyOpt(req.query), TruthyOpt(req.kind), TruthyOpt(req.genre), TruthyOpt(req.year)))
  {
    BuildShape(f, req);
    Framed(f.base, Middle(f, req), f.tail);
    MiddleNested(f, req);
    ParseMiddleClauses(f, TruthyOpt(req.query), TruthyOpt(req.kind), TruthyOpt(req.genre), TruthyOpt(req.year));
  }

  /** For the route: each `AND` clause is present exactly when its request
      value is truthy. */
  lemma SearchClausesPresent(req: SearchRequest)
    ensures ParseClauses(SearchFragments(), BuildSearch(req).sql) ==
      Some(Clauses(TruthyOpt(req.query), TruthyOpt(req.kind), TruthyOpt(req.genre), TruthyOpt(req.year)))
  {
    SearchPlaceholdersFit();
    SearchSeparable();
    ParseBuild(SearchFragments(), req);
  }

  /** For the route: the query is the base, the set filters' clauses and the
      tail; the parameters are bound in the order title, type, genre, year,
      with the title and genre wrapped as `%…%` patterns. */
  lemma SearchShape(req: SearchRequest)
    ensures BuildSearch(req) ==
      Query(SearchFragments().base + Middle(SearchFragments(), req) + SearchFragments().tail, BoundParams(req))
  {
    SearchPlaceholdersFit();
    BuildShape(SearchFragments(), req);
  }

  // ---------------------------------------------------------------------------
  // The route's fragments, one fact at a time

  lemma {:induction false} NoPlaceholders(s: string)
    requires '?' !in s
    ensures Placeholders(s) == 0
    decreases |s|
  {
    if |s| > 0 {
      NoPlaceholders(s[1..]);
    }
  }

  /** A clause is a condition followed by a single placeholder. */
  lemma OnePlaceholder(clause: string, condition: string)
    requires clause == condition + "?" && '?' !in condition
    ensures Placeholders(clause) == 1
  {
    NoPlaceholders(condition);
    PlaceholdersAppend(condition, "?");
  }

  lemma BasePlaceholders()
    ensures Placeholders(SearchFragments().base) == 0
  {
    NoPlaceholders(SearchFragments().base);
  }

  lemma TailPlaceholders()
    ensures Placeholders(SearchFragments().tail) == 0
  {
    NoPlaceholders(SearchFragments().tail);
  }

  lemma TitlePlaceholders()
    ensures Placeholders(SearchFragments().title) == 1
  {
    OnePlaceholder(SearchFragments().title, TitleCondition);
  }

  lemma TypePlaceholders()
    ensures Placeholders(SearchFragments().kind) == 1
  {
    OnePlaceholder(SearchFragments().kind, TypeCondition);
  }

  lemma GenrePlaceholders()
    ensures Placeholders(SearchFragments().genre) == 1
  {
    OnePlaceholder(SearchFragments().genre, GenreCondition);
  }

  lemma YearPlaceholders()
    ensures Placeholders(SearchFragments().year) == 1
  {
    OnePlaceholder(SearchFragments().year, YearCondition);
  }

  lemma SearchPlaceholdersFit()
    ensures PlaceholdersFit(SearchFragments())
  {
    BasePlaceholders();
    TailPlaceholders();
    TitlePlaceholders();
    TypePlaceholders();
    GenrePlaceholders();
    YearPlaceholders();
  }

  lemma SearchSeparable()
    ensures Separable(SearchFragments())
  {
    var f := SearchFragments();
    assert f.title[6] == 'i' && f.kind[6] == 'y';
    assert f.title[5] == 't' && f.kind[5] == 't' && f.genre[5] == 'g' && f.year[5] == 'Y';
    assert Differ(f.title, f.kind);
    assert Differ(f.title, f.genre);
    assert Differ(f.title, f.year);
    assert Differ(f.kind, f.genre);
    assert Differ(f.kind, f.year);
    assert Differ(f.genre, f.year);
  }
}
