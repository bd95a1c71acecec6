# MLB odds tracker: a Dafny model of odds extraction and display

The tracker scrapes a sportsbook-comparison site's baseball pages. Each page embeds its data as
JSON in a `<script id="__NEXT_DATA__">` element. The scraper finds the FanDuel sportsbook among the
page's books and reads FanDuel's opening and current odds for every game: moneyline, run line and
totals. It builds one row per game, and a Streamlit dashboard formats the odds and splits the games
into a "today" tab and a "tomorrow" tab.

This project models the pure core of the two files.

- `mlb_odds_scraper.py`:
  - locating the embedded payload (`extract_next_data`);
  - the navigation from a parsed page to its odds table, and the page URL for each bet type
    (the pure parts of `fetch_odds_data`);
  - the first-match search for FanDuel (`find_fanduel_sportsbook_id`);
  - the per-game odds record (`extract_fanduel_odds`);
  - the row-building loops of `get_games_for_dates`.
- `streamlit_app.py`: `format_odds` and the date filter that fills the two tabs.

The two files are modelled separately. The dashboard reads column names that the scraper does not
produce (`rl_opening_away_odds` against `rl_opening_away`, and so on), so nothing links the models.

## How the model reads Python

- JSON values are the datatype `PyJson.Json`. `JNull` stands for Python's `None`, both for an
  explicit `null` and for a `.get` whose key is missing.
- An exception that escapes a piece of code is `Result.Raised`. Python truthiness is
  `PyJson.Truthy`.
- `.get` on anything but a dict raises. A list or dict used as a key raises, because it is
  unhashable.
- `extract_fanduel_odds` catches every exception and returns the record as it stands at that
  point. So an opening entry is filled entirely or not at all. And a current entry that is
  truthy but not a dict raises after the opening half was filled, which survives.
- In `get_games_for_dates`, only the per-game `try` catches. A moneyline table that is truthy
  but not a dict raises out of the whole call. So do a malformed sportsbooks list or book, and a
  `gameRows` value that cannot be iterated. The model returns `Raised` for these.
- The three `fetch_odds_data` results of each date are inputs (`GameRows.DayTables`).
  `GetGamesForDates` is the imperative loop; `AllRows` is its specification.
- `extract_fanduel_odds` and `find_fanduel_sportsbook_id` are likewise methods. They are proved
  equal to the functions `FanDuelOddsOf` and `FirstFanDuelId`, and the lemmas state what those
  functions promise.
- Iterating a JSON object yields its keys, which are strings.
  - A non-empty `sportsbooks` object therefore raises on its first key, since a str has no `.get`.
  - A `gameRows` object yields only keys that the per-game handler skips, so it produces no rows.
  - Both outcomes are modelled exactly, without the key order.

Two behaviours of the code are worth stating plainly:

- The FanDuel test is a substring test on the lower-cased name, not a case-insensitive
  equality. Any name containing "fanduel" in any ASCII case matches.
- A date whose sportsbooks list holds no FanDuel book contributes no rows at all. It does not
  contribute rows of null odds.

## Model

| member | source | states |
|---|---|---|
| `Text.IndexFrom` | mlb_odds_scraper.py:57-58 | the index found is an occurrence of the pattern, and no earlier position at or after the start is one; None means no occurrence at all from the start |
| `Text.ContainsExactly` | mlb_odds_scraper.py:115 | `pat in s` holds exactly when the pattern occurs somewhere in `s` |
| `NextData.NextDataPayload` | mlb_odds_scraper.py:57-61 | a payload is found only when the page contains both the opening and the closing tag, and the payload and the two tags together are no longer than the page |
| `NextData.ExtractNextData` | mlb_odds_scraper.py:54-66 | no payload gives None; otherwise the result is whatever the parser makes of the payload |
| `NextData.PayloadBetweenFirstTags` | mlb_odds_scraper.py:57-61 | with the first opening tag at p and the nearest closing tag after it at q, the payload is exactly the text between them |
| `NextData.NoPayloadWithoutOpenTag` | mlb_odds_scraper.py:58-63 | a page without the opening tag gives None |
| `NextData.NoPayloadWithoutCloseTag` | mlb_odds_scraper.py:58-63 | a first opening tag with no closing tag after it gives None |
| `NextData.PayloadHoldsNoCloseTag` | mlb_odds_scraper.py:57 | the match is non-greedy: the payload never contains `</script>` |
| `NextData.OddsTableModel` | mlb_odds_scraper.py:88-103 | a non-None table model only ever comes from a page that parsed to a truthy value |
| `NextData.OddsTableModelTakesFirstTable` | mlb_odds_scraper.py:94-99 | the first odds table's `oddsTableModel` is returned and later tables are ignored |
| `NextData.NoTablesNoModel` | mlb_odds_scraper.py:95-97 | an empty list of odds tables gives None |
| `NextData.UrlFor` | mlb_odds_scraper.py:71-77 | every page URL starts with the site's MLB odds path and ends with the date |
| `NextData.UnknownBetTypeFetchesMoneyline` | mlb_odds_scraper.py:77 | a bet type outside moneyline, runline and totals fetches the moneyline page |
| `NextData.BetTypesFetchDistinctPages` | mlb_odds_scraper.py:71-75 | the three bet types fetch three different pages |
| `FanDuel.Verdict` | mlb_odds_scraper.py:114-116 | a book matches only if it is a dict, and then yields its `id` entry (None when absent); the test raises exactly when the book is not a dict or has a name that is not a str |
| `FanDuel.FirstFanDuelId` | mlb_odds_scraper.py:112-117 | a non-None result is the id of some FanDuel book in the list; an exception comes from some malformed book in the list |
| `FanDuel.FirstFanDuelIdIsFirstMatch` | mlb_odds_scraper.py:112-117 | the id of the first book whose lower-cased name contains "fanduel" is returned; None when no book matches; a malformed book before any match raises |
| `FanDuel.NamelessBookNeverMatches` | mlb_odds_scraper.py:115 | a book without a name is never FanDuel |
| `FanDuel.CapitalisedNameMatches` | mlb_odds_scraper.py:115 | the name "FanDuel" matches, because the test lower-cases the name first |
| `FanDuel.NameCaseIgnored` | mlb_odds_scraper.py:115 | for every name, the name and its lower-cased form give the same verdict, so the test ignores ASCII case |
| `FanDuel.FindFanDuelSportsbookId` | mlb_odds_scraper.py:112-117 | the loop with early return yields exactly the first-match result |
| `FanDuel.FanDuelOddsOf` | mlb_odds_scraper.py:119-175 | a record with any field set comes from a dict game row and a known bet type; only the run line sets a spread and only totals set a total |
| `FanDuel.ExtractFanDuelOdds` | mlb_odds_scraper.py:119-175 | filling the all-None record field by field, with a caught exception returning the record as it stands, gives exactly the specified odds record |
| `FanDuel.UnknownBetTypeHasNoOdds` | mlb_odds_scraper.py:121-170 | a bet type other than moneyline, runline or totals leaves all eight fields None |
| `FanDuel.MissingSportsbookHasNoOdds` | mlb_odds_scraper.py:121-127 | a sportsbook id that is not a key of `sportsbookData` leaves all eight fields None, whatever the bet type |
| `FanDuel.MoneylineReadsHomeAndAway` | mlb_odds_scraper.py:129-140 | moneyline: team1 is `homeOdds`, team2 is `awayOdds` of each phase; total and spread stay None |
| `FanDuel.RunlineReadsOddsAndSpread` | mlb_odds_scraper.py:142-155 | run line: team1 `homeOdds`, team2 `awayOdds`, spread `homeSpread`; total stays None |
| `FanDuel.TotalsReadsOverUnderAndLine` | mlb_odds_scraper.py:157-170 | totals: team1 `overOdds`, team2 `underOdds`, total `total`; spread stays None |
| `FanDuel.EmptyOpeningLeavesCurrent` | mlb_odds_scraper.py:131-140 | a missing or empty opening entry leaves only the opening half None; the current half is still filled |
| `FanDuel.MalformedCurrentKeepsOpening` | mlb_odds_scraper.py:134-175 | a truthy current entry that is not a dict raises after the opening half was filled; the opening half is kept and the current half stays None |
| `GameRows.BooksOf` | mlb_odds_scraper.py:114 | iterating the sportsbooks yields as many items as `len` counts; it raises only on a dict (a non-empty one yields str keys, which have no `.get`) or on a value with no `len` |
| `GameRows.GamesOf` | mlb_odds_scraper.py:205 | `enumerate` succeeds exactly on values that have a `len` (str, list, dict); a list or str yields as many games as `len` counts |
| `GameRows.GameInfoOf` | mlb_odds_scraper.py:208-215 | building `game_info` succeeds exactly when the game row is a dict whose team entries, where present, are dicts |
| `GameRows.CompanionOdds` | mlb_odds_scraper.py:221-230 | a falsy table gives all-None odds without raising; a truthy table that is not a dict raises; a dict without `gameRows` reads as an empty list and gives all-None odds |
| `GameRows.AssembleRow` | mlb_odds_scraper.py:233-251 | the row carries the date, and run-line or totals odds left at their `{}` default give None in every column they feed |
| `GameRows.RowOf` | mlb_odds_scraper.py:206-257 | a row is produced only for a game row that is a dict, and it carries the date being processed |
| `GameRows.DateRows` | mlb_odds_scraper.py:185-257 | a date yields rows only when its moneyline table is truthy, and every row it yields carries that date |
| `GameRows.AllRows` | mlb_odds_scraper.py:177-259 | the call raises exactly when the processing of some date raises |
| `GameRows.JoinAllRaised` | mlb_odds_scraper.py:182-259 | concatenating the dates' results raises exactly when one of them raised |
| `GameRows.RaisedPrefixRaises` | mlb_odds_scraper.py:182-200 | once processing a date raises, the whole call raises |
| `GameRows.AllRowsAppend` | mlb_odds_scraper.py:182-205 | dates are processed in order: the rows for `a + b` are those for `a` followed by those for `b`, and if either raises the call raises |
| `GameRows.SingleDate` | mlb_odds_scraper.py:180-259 | for a single date, the call returns exactly that date's rows |
| `GameRows.RowsOfGamesTagged` | mlb_odds_scraper.py:205-253 | the inner loop yields at most one row per game row, each tagged with that date |
| `GameRows.OneRowPerGame` | mlb_odds_scraper.py:205-257 | when no game's `try` raises, there is exactly one row per game, in game order, row i built from game row i |
| `GameRows.NoMoneylineNoRows` | mlb_odds_scraper.py:186-188 | a date without moneyline data contributes no rows |
| `GameRows.NoFanDuelNoRows` | mlb_odds_scraper.py:194-200 | a date whose sportsbooks contain no FanDuel entry contributes no rows |
| `GameRows.FalsyFanDuelIdNoRows` | mlb_odds_scraper.py:196-198 | a date whose first FanDuel book has a missing, null or empty id contributes no rows |
| `GameRows.MissingGameRowsNoRows` | mlb_odds_scraper.py:203-205 | a moneyline table with no `gameRows` key reads as an empty list: when no sportsbook is malformed, the date contributes no rows and does not raise |
| `GameRows.OneRowPerMoneylineGame` | mlb_odds_scraper.py:194-253 | provided no game's `try` raises, a date whose first FanDuel book has an id contributes one row per moneyline game row, in order, each tagged with the date |
| `GameRows.WellFormedGameYieldsRow` | mlb_odds_scraper.py:206-230 | a game row that is a dict, with dict team entries and companion tables that are falsy or whose `gameRows` (missing meaning empty) is a list, is never skipped |
| `GameRows.GameInfoColumns` | mlb_odds_scraper.py:208-215 | the game-info columns are `startTime` and each team's `name` and `abbreviation`, each defaulting to the empty str when the key or the team entry is missing |
| `GameRows.MoneylineColumns` | mlb_odds_scraper.py:233-238 | the `ml_*_away` columns read team2 and `ml_*_home` team1 of the game's own moneyline odds |
| `GameRows.RunlineColumnsAligned` | mlb_odds_scraper.py:224-244 | the run-line columns of game i come from game row i of the run-line table when i is within its length, and are None otherwise, including for a table with no `gameRows` key |
| `GameRows.TotalsColumnsAligned` | mlb_odds_scraper.py:228-250 | the totals columns of game i come from game row i of the totals table when i is within its length (over is team1, under is team2), and are None otherwise, including for a table with no `gameRows` key |
| `GameRows.CompanionGameOdds` | mlb_odds_scraper.py:221-230 | the guarded lookup of game i in the run-line or totals table yields exactly the specified companion odds |
| `GameRows.ProcessGame` | mlb_odds_scraper.py:206-257 | the body of the per-game `try` yields exactly the specified row, or None when it raises |
| `GameRows.AppendGameRows` | mlb_odds_scraper.py:205-257 | the inner loop over a date's game rows appends exactly the specified rows, in order, skipping games whose `try` raised |
| `GameRows.AppendDateRows` | mlb_odds_scraper.py:182-257 | one pass of the outer loop appends exactly that date's rows to the rows so far, or raises when that date raises |
| `GameRows.GetGamesForDates` | mlb_odds_scraper.py:177-259 | the loop over the dates returns exactly the specified row list, or raises |
| `Decimal.NatToDigits` | streamlit_app.py:72-74 | at least one decimal digit, and a leading zero only for zero |
| `Decimal.DigitsValueOfNatToDigits` | streamlit_app.py:72-74 | the printed digits denote the number |
| `Decimal.IntToString` | streamlit_app.py:74 | a minus sign exactly for negative numbers; "0" exactly for zero |
| `Decimal.ParseInt` | streamlit_app.py:70 | a plain string of decimal digits converts to the number those digits denote |
| `Decimal.ParseIntToString` | streamlit_app.py:70 | `int(str(n)) == n` |
| `Decimal.ParseIntSigned` | streamlit_app.py:70-72 | `int("+" + str(n)) == n` for positive n |
| `Dashboard.AsInt` | streamlit_app.py:66-75 | conversion fails exactly for a missing value or text that is not an integer; an int converts to itself, and a float to an integer less than 1 away from it |
| `Dashboard.Trunc` | streamlit_app.py:70 | `int()` of a float truncates toward zero |
| `Dashboard.Signed` | streamlit_app.py:71-74 | a "+" exactly for positive odds, "-" exactly for negative ones, "0" for zero |
| `Dashboard.FormatOdds` | streamlit_app.py:64-76 | never empty, and "Unavailable" exactly when the value is missing or does not convert to an integer |
| `Dashboard.MissingIsUnavailable` | streamlit_app.py:66-67 | a missing value formats to "Unavailable" |
| `Dashboard.PositiveOddsGetPlus` | streamlit_app.py:70-72 | a positive integer formats to "+" followed by its digits |
| `Dashboard.ZeroOddsUnsigned` | streamlit_app.py:71-74 | zero formats to "0" with no sign |
| `Dashboard.NegativeOddsPlain` | streamlit_app.py:73-74 | a negative integer formats to "-" followed by the digits of its magnitude |
| `Dashboard.FormatOddsSign` | streamlit_app.py:71-74 | the first character is "+" exactly for positive odds and "-" exactly for negative odds |
| `Dashboard.FormatOddsRoundTrip` | streamlit_app.py:69-74 | formatted odds read back as the integer they came from |
| `Dashboard.TextOddsFormatLikeInts` | streamlit_app.py:69-74 | odds stored as the text of an integer format like that integer |
| `Dashboard.FloatOddsTruncate` | streamlit_app.py:70 | a float formats like its truncation toward zero |
| `Dashboard.UnparseableTextIsUnavailable` | streamlit_app.py:75-76 | text that is not an integer formats to "Unavailable" |
| `Dashboard.GamesOn` | streamlit_app.py:164 | the filtered rows are exactly the rows whose date equals the given date |
| `Dashboard.GamesOnAppend` | streamlit_app.py:164 | the filter keeps the original order: it distributes over concatenation |
| `Dashboard.GamesOnSingle` | streamlit_app.py:164 | a single row is kept exactly when its date matches |
| `Dashboard.SplitByDay` | streamlit_app.py:164-165 | today's tab holds only rows dated 2025-07-25 and tomorrow's only rows dated 2025-07-26; no row is in both, and the tabs never hold more rows than the input |
| `Dashboard.SplitCountBound` | streamlit_app.py:164-165 | the two tabs together hold at most as many rows as the input |

## Left out

- HTTP and anti-detection plumbing is I/O and randomness: the session, headers, user-agent
  rotation, `safe_delay`, timeouts, `raise_for_status` and the request exceptions
  (mlb_odds_scraper.py:11-52, 79-90, 105-110).
- `fetch_odds_data` is not modelled as one function, because its core is a network call. Its
  pure parts are `NextData.UrlFor` and `NextData.OddsTableModel`, and its results are the inputs
  of `GameRows.GetGamesForDates`.
- `json.loads` is a foreign call. It is the `parse` parameter of `NextData.ExtractNextData`.
- The regular-expression engine is not modelled; the search-and-slice it performs here is.
- JSON `NaN` and `Infinity` literals are not modelled. Other JSON floats are reals.
- Logging is a side effect only and is not modelled.
- pandas is not modelled: no `DataFrame` construction, no `to_csv`, no `pd.isna`. Rows are
  records and tables are sequences.
- `get_today_tomorrow_games` reads the wall clock. It only passes today's and tomorrow's dates
  to `get_games_for_dates`, whose dates are inputs here.
- `format_spread` and `format_total` go through Python's float formatting, which is not modelled.
- Streamlit rendering is UI only: `display_game_card`, the tabs, markdown and `st.dataframe`.
- `create_test_data` is fixture data.
- Text.Lower: lower-cases ASCII letters only. Python's `str.lower` also maps other letters, but
  none of them becomes a letter of "fanduel", so the FanDuel test gives the same answer.
- Decimal.ParseInt: accepts only ASCII digits and ASCII whitespace. Python's `int()` also
  accepts underscores between digits, non-ASCII digits and other Unicode whitespace. CPython
  (3.11 on, and the 3.7.14/3.8.14/3.9.14/3.10.7 releases) also raises ValueError for a string
  of more than 4300 digits, so `format_odds` shows "Unavailable" for it; the model parses it.
- Decimal.IntToString: does not model CPython's 4300-digit limit on `str()` of an int. Above it
  `f"+{odds}"` and `str(odds)` raise ValueError and `format_odds` shows "Unavailable"; the model
  prints the digits. No odds value comes near that size.
- Dashboard.AsInt: does not model an infinite float. Python's `int()` raises OverflowError for
  one, which `format_odds` does not catch. Cells holding booleans or other objects are not
  modelled either.
- Dashboard.GamesOn: a table with no `date` column at all, such as an empty frame, raises a
  KeyError in the source, but the model returns two empty tabs. Rows here always have their
  columns, as the dashboard's fixture rows do.
