# movie-tracker, modelled in Dafny

A model of the logic inside the movie-tracker web application: the
browser-side dashboard (`js/app.js`) and the Express server
(`server.js`). Around the DOM code and the database calls sit a few pure
computations, and the model covers those:

- **Catalogue search** (`performSearch`). Four optional filters narrow the
  catalogue list: title substring (case-insensitive), type, genre and year.
  Modelled in `catalog.dfy`, using JavaScript string behaviour from
  `strings.dfy`: truthiness, `toLowerCase`, `includes`, `split`,
  `substring` and `Number.prototype.toString`.
- **Watch list** (`watchlist.dfy`):
  - the statistics tiles (`updateStats`): movie and series counts, hours
    watched, mean rating;
  - the recent-activity panel (`displayRecentActivity`): sort newest first,
    show five. The sort is in place, so it reorders the watch list itself;
  - the "add to watched" handler (`addToWatched`).

  Viewing dates are ISO `YYYY-MM-DD` strings, ordered as in
  `date_order.dfy`.
- **Charts** (`histogram.dfy`): the counting loops behind the genre bar
  chart and the per-month line chart.
- **Star widget** (`rating.dfy`): `setRating`, `highlightStars`, the
  click/hover/leave wiring, and the `★★★☆☆` line of the activity panel.
- **Server search query** (`search_query.dfy`): the SQL text and parameter
  list that `GET /api/movies/search` builds clause by clause.
- **Authentication** (`auth.dfy`): the bearer-token middleware
  `authenticateToken` and the register and login routes.
  - Password hashes are opaque strings; `bcrypt.compare` is a function
    parameter.
  - A signed token is kept symbolically: its claims, its secret, and its
    issue and expiry times. Reading a token out of its wire form is a
    function parameter.
  - The `users` table is a sequence of rows plus the next auto-increment id.

`lists.dfy` holds the generic helpers: `filter`, a `reduce`-style sum, and
their algebra. `wrappers.dfy` holds `Option`.

The clock (`new Date()`), the environment (`process.env.JWT_SECRET`) and
the request body become plain parameters.

## Model

| member | source | states |
|---|---|---|
| Catalog.PerformSearch | js/app.js:294-313 | an entry is in the result iff it is in the input and passes every active filter; with all four inputs empty the input comes back unchanged |
| Catalog.PerformSearchIsSinglePass | js/app.js:294-313 | the four successive filters give the same list, in the same order, as one pass keeping the entries that satisfy the conjunction of the active filters |
| Catalog.PerformSearchAppend | js/app.js:294-313 | searching a concatenation is concatenating the searches: entries are never reordered |
| Catalog.PerformSearchSingle | js/app.js:297-313 | a one-entry list keeps its entry exactly when it matches |
| Catalog.YearFilterIsYearEquality | js/app.js:311-313 | when the year filter is a year's printed form, an entry passes it iff its year is that year |
| Catalog.MatrixQueryMatches | js/app.js:297-301 | for the query "matrix", the title "Matrix" matches |
| Catalog.StrangerThingsDoesNotMatchMatrix | js/app.js:297-301 | "stranger things" does not contain "matrix" |
| Catalog.EndgameDoesNotMatchMatrix | js/app.js:297-301 | "avengers: endgame" does not contain "matrix" |
| Catalog.SearchMatrixExample | js/app.js:261-313 | searching the three mock results for "matrix" with no other filter yields only entry 101, "Matrix" |
| Strings.ToLower | js/app.js:255 | lower-casing keeps the length and maps each character to its lower-case form |
| Strings.IncludesIff | js/app.js:299 | `includes` holds iff the substring occurs at some position |
| Strings.MissingCharNotIncluded | js/app.js:299 | a string lacking one of the needle's characters does not include the needle |
| Strings.IntToStringInjective | js/app.js:312 | two integers print the same iff they are equal |
| Strings.ParseDigitsOfDigits | js/app.js:312 | reading back the printed digits of a natural number gives the number |
| Strings.Split | server.js:41 | `split` returns at least one part and no part contains the separator |
| Strings.JoinSplit | server.js:41 | joining the parts of a split with the separator restores the string |
| Strings.SplitAfterHead | server.js:41 | splitting `head sep rest` (head without separator) gives `head` followed by the parts of `rest` |
| Strings.Prefix | js/app.js:572 | `substring(0, n)` is a prefix of the string of length `min(n, length)` |
| DateOrder.LeReflexive | js/app.js:222 | every date is no later than itself |
| DateOrder.LeTotal | js/app.js:222 | any two dates are comparable |
| DateOrder.LeTransitive | js/app.js:222 | the date order is transitive |
| DateOrder.LeAntisymmetric | js/app.js:222 | dates each no later than the other are equal |
| WatchList.CountKind | js/app.js:241-242 | the length of the list filtered by kind is the number of entries of that kind |
| WatchList.MeanRating | js/app.js:244-246 | the mean is 0 for an empty list; otherwise it times the number of entries is the total of the ratings, and it lies between the lowest and the highest rating |
| WatchList.UpdateStats | js/app.js:240-246 | the movie tile is the number of entries typed movie and the series tile the number typed series, together at most the list length; hours are the minutes plus 30, divided by 60 and rounded down; the mean rating is 0 for an empty list, otherwise the total of the ratings shared out over the entries, between the lowest and the highest rating |
| WatchList.MinutesToHours | js/app.js:243 | `Math.round(minutes / 60)` equals `(minutes + 30) div 60` |
| WatchList.MovieSeriesPartition | js/app.js:241-242 | the movie count plus the series count is the count of entries of either kind |
| WatchList.AverageWithinBounds | js/app.js:244-246 | for a non-empty list the mean rating lies between the lowest and the highest rating |
| WatchList.MeanBetween | js/app.js:244-246 | a sum of `n` terms between `lo` and `hi`, divided by `n`, is between `lo` and `hi` |
| WatchList.StatsPermutationInvariant | js/app.js:240-246 | any reordering of the list leaves all four tiles unchanged |
| WatchList.Insert | js/app.js:222 | inserting adds exactly one copy of the entry to the multiset of entries |
| WatchList.InsertKeepsOrder | js/app.js:222 | inserting into a newest-first list keeps it newest first |
| WatchList.SortNewestFirst | js/app.js:221-222 | the sorted list is a permutation of the input with no entry dated after an earlier one |
| WatchList.InsertSameDay | js/app.js:222 | among entries of one day, the inserted entry comes first and the others keep their order |
| WatchList.SortIsStable | js/app.js:222 | the entries of any one day appear in the sorted list in their original order |
| WatchList.DisplayRecentActivity | js/app.js:217-223 | the list is left a newest-first permutation of itself; the panel shows its first `min(5, n)` entries, newest first, and every entry not shown is dated no later than the last one shown |
| WatchList.NewWatchedItem | js/app.js:393-399 | the new entry copies the catalogue's id, title, type, year, genre, poster and description and takes the current rating, the review text and today's date; its duration is the entry's when present and non-zero, otherwise 120 |
| WatchList.Append | js/app.js:401 | `push` adds exactly one entry at the end and leaves the earlier entries unchanged |
| WatchList.AppendStats | js/app.js:401-402 | appending an entry adds one to the count of its kind and its minutes to the total |
| WatchList.AddToWatched | js/app.js:388-403 | the current rating is unchanged; the list gains exactly the new entry (as a multiset) and ends newest first; the tiles are those of the new list, the count of the entry's kind grows by one, and the total minutes grow by its duration; the panel shows the first `min(5, n)` entries of the re-sorted list |
| Histogram.Tally | js/app.js:542-544 | the counting loop has a key iff it occurs in the input, and each count is the number of its occurrences |
| Histogram.TallyTotal | js/app.js:542-544 | the counts add up to the number of keys counted |
| Histogram.KeyOccurrences | js/app.js:542-544 | a key occurs as often as there are entries carrying it |
| Histogram.Chart | js/app.js:542-544 | a key is charted iff some entry carries it; its count is the number of entries with that key; the counts sum to the number of entries |
| Histogram.GenreChart | js/app.js:538-544 | the genre chart has exactly the genres present, each with the number of entries of that genre, summing to the list length |
| Histogram.MonthOf | js/app.js:572 | the month key is a prefix of the viewing date, seven characters long for a full date |
| Histogram.MonthChart | js/app.js:567-574 | the month chart has exactly the months present, each with the number of entries viewed that month, summing to the list length |
| Rating.HighlightStars | js/app.js:378-386 | star `i` is active iff `i < rating`; the row keeps its length |
| Rating.HighlightedCount | js/app.js:378-386 | the number of lit stars is the rating clamped to the row |
| Rating.SetRating | js/app.js:373-376 | the rating is stored and exactly the first `rating` stars are lit; a rating of 0 clears the row |
| Rating.ClickStar | js/app.js:76-79 | clicking star `index` stores `index + 1` and, in a row of unchanged length, lights exactly stars `0..index` |
| Rating.HoverStar | js/app.js:80-82 | hovering lights exactly stars `0..index` of the same row, without changing the stored rating |
| Rating.LeaveStars | js/app.js:85-87 | leaving the row restores the highlight of the stored rating |
| Rating.StarLine | js/app.js:233 | the line exists iff the rating is between 0 and 5 (otherwise `repeat` throws); it has five characters, the first `rating` full stars and the rest empty stars |
| SearchQuery.AddClause | server.js:195-213 | one step appends the clause and pushes its parameter iff the value is truthy, otherwise changes nothing; placeholders still match parameters |
| SearchQuery.Build | server.js:192-215 | placeholders equal parameters; the SQL starts with the base and ends with the tail; one parameter per truthy filter |
| SearchQuery.BuildSearch | server.js:187-215 | the route's SQL has as many `?` as parameters, starts with `SELECT * FROM movies WHERE 1=1`, ends with ` ORDER BY title LIMIT 50`, and binds one parameter per truthy filter |
| SearchQuery.BuildShape | server.js:192-215 | the SQL is the base, the clauses of the truthy filters in the order title, type, genre, year, and the tail; the parameters follow the same order, with title and genre as `%value%` and type and year verbatim |
| SearchQuery.SearchShape | server.js:192-215 | the same shape for the route's own SQL fragments |
| SearchQuery.NoFilterQuery | server.js:192-215 | with no filter set the SQL is `SELECT * FROM movies WHERE 1=1 ORDER BY title LIMIT 50` and there are no parameters |
| SearchQuery.ParseBuild | server.js:195-213 | reading the built SQL back finds each clause exactly when its filter is truthy |
| SearchQuery.SearchClausesPresent | server.js:195-213 | for the route, each `AND` clause is in the SQL exactly when its request value is truthy |
| SearchQuery.SearchPlaceholdersFit | server.js:192-215 | the base and tail have no placeholder and each clause exactly one |
| Auth.JwtSecret | server.js:47 | the secret the middleware, register and login all use: the environment value when truthy, otherwise `'secret'` |
| Auth.Sign | server.js:81-85 | a token carries the user's id and name and expires 24 hours after issue |
| Auth.Verify | server.js:47-48 | verification succeeds iff the secret matches and the token has not expired, and then yields the token's payload |
| Auth.SignedTokenLifetime | server.js:121-125 | a freshly signed token verifies exactly until 86400 seconds after issue |
| Auth.BearerToken | server.js:40-41 | a token found in the header is non-empty and contains no space |
| Auth.BearerTokenOfHeader | server.js:40-41 | `<scheme> <token>` yields the token |
| Auth.BearerTokenSecondPart | server.js:40-45 | the token is the second space-separated part even when more parts follow; an empty second part (two spaces after the scheme) yields no token, hence 401 |
| Auth.NoBearerToken | server.js:40-45 | a missing header or one without a space yields no token |
| Auth.Authenticate | server.js:39-52 | no token: 401 and `next` not called; token that fails to decode or verify: 403 and `next` not called; otherwise `req.user` is the payload and `next` is called exactly once |
| Auth.IssuedTokenAuthenticates | server.js:39-52 | a token the server issued, sent as `Bearer <token>`, passes until it expires and is refused with 403 afterwards |
| Auth.Register | server.js:57-93 | an email or username already taken gives 400 `User already exists` and the table is unchanged; otherwise exactly one row is appended with the next id and the 201 response carries a token for it and only id, username and email |
| Auth.RegisterKeepsConsistent | server.js:63-79 | registration keeps emails and usernames unique and ids below the next id |
| Auth.Login | server.js:100-139 | 200 iff the first row with the email has a hash matching the password; every 401 is the same `Invalid credentials` response |
| Auth.LoginFailuresAlike | server.js:110-119 | an unknown email and a wrong password give the identical response |
| Auth.LoginSuccess | server.js:121-138 | a successful login signs the row's id and name for 24 hours and returns the row without its hash |
| Auth.LoginTokenAuthenticates | server.js:39-52 | the token a login returns, sent back as a bearer token within 24 hours under the same environment, lets the request through with the user's id and name |
| Auth.UnsetSecretAcceptsDefault | server.js:47 | with `JWT_SECRET` unset or empty, an unexpired token gets through exactly when it was signed with `'secret'` |
| Auth.RegisterThenLogin | server.js:57-138 | after a registration, logging in with the same email and a password matching the stored hash succeeds as the new user |

## Left out

- The DOM: rendering, modals, notifications, `setTimeout` animations and
  the mobile menu (`js/app.js:21-105`, `318-371`, `410-440`).
- Theme toggling and `localStorage`: browser storage, not logic.
- The premiere calendar (`generateCalendar`, `generateCalendarDays`,
  `changeMonth`). It depends on local-time versus UTC `Date` behaviour, and
  `changeMonth` is a stub.
- `loadMockData` and `generateYearOptions`: constant data and DOM options.
- Chart.js rendering. The order of `Object.keys` is not modelled because a
  chart is a map, with no key order. Keys that collide with
  `Object.prototype` names (such as `constructor`) are not modelled either:
  `genres[key] || 0` would read an inherited value for them.
- `loadTypeChart`: it counts movies and series exactly as the statistics
  tiles do, and that counting is modelled there.
- `toFixed(1)` on the mean rating and `formatDate`'s locale output: number
  and locale formatting.
- `displaySearchResults`: the catalogue's fractional ratings (`4.5`) and
  their `Math.floor` star line. `Movie` carries no rating, because the
  watch-list entry replaces it with the dialog's rating.
- `openMovieModal`'s reset of the rating and review. `AddToWatched` takes
  the current rating and the review text as they stand.
- Strings.ToLower: only ASCII letters are lower-cased. JavaScript's
  Unicode case mapping, for example of Polish titles, is not modelled.
- DateOrder.Le: dates compare as strings, which matches `new Date(b) -
  new Date(a)` for well-formed `YYYY-MM-DD` dates. Invalid dates, where the
  comparator yields `NaN`, are not modelled.
- WatchList.UpdateStats: the mean rating is an exact rational. Floating-point
  rounding of the division is not modelled.
- WatchList.AddToWatched: `modal.currentMovie` is assumed present. Opening
  the dialog is what sets it.
- Every `500 Server error` path and the connection lifecycle, including
  the early returns that skip `connection.end()`. Database and network
  failures are I/O; the malformed request bodies that also end there are
  the next line.
- Auth.Register and Auth.Login: the body fields `username`, `email` and
  `password` are assumed to be present strings. In the routes a missing
  field sends `undefined` to `connection.execute` (`server.js:63-66`,
  `105-108`) or to `bcrypt.hash`/`bcrypt.compare` (`73`, `115`), which
  throw, and the `catch` answers 500 (`94-97`, `140-143`).
- bcrypt and jwt internals. Hashing is a given hash string for the
  request, `bcrypt.compare` is a parameter, and the token's wire form is
  read by a `decode` parameter.
- Auth.Register: requests are modelled one at a time. In the route the
  existence check (`server.js:63-66`) and the insert (`76-79`) are separated
  by `await bcrypt.hash`, so they are not atomic. Two concurrent
  registrations with the same email or username can both pass the check.
  Uniqueness then rests on a database constraint that the code shown does
  not create, and a violated constraint would give 500, not 400.
  `Auth.RegisterKeepsConsistent` holds only for registrations applied in
  sequence.
- Auth.Register and Auth.Login: email and username comparisons are exact
  equality. MySQL's collation (case- and trailing-space-insensitive by
  default) is not modelled. Column defaults of `avatar_url` and
  `theme_preference` are absent values.
- The query-string values of `GET /api/movies/search` are strings or
  absent. Express's repeated keys, which arrive as arrays, are not
  modelled. Neither are SQL `LIKE` matching and query execution.
- The profile routes, the multer upload configuration and the truncated
  `POST /api/movies` handler (`server.js:146-184`, `26-36`, `227-233`).
  They pass values straight through to SQL, configure I/O, or are
  incomplete.

Behaviour of the code worth stating plainly:

- a watched entry has no `status` field;
- there is no upsert and no remove;
- `addToWatched` pushes unconditionally, so the same title can be on the
  list twice;
- after `addToWatched` the whole list is left sorted newest first, because
  the handler redraws the recent-activity panel and that sorts
  `watchedMovies` in place;
- the statistics tiles show movie and series counts and a mean rating, as
  well as the hours.
