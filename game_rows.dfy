/** The row-building loops of MLBOddsScraper.get_games_for_dates, with the
    three fetch_odds_data results of each date given as inputs. */
module GameRows {
  import opened Wrappers
  import opened PyJson
  import opened FanDuel

  /** What fetch_odds_data returned for one date and each bet type (JNull
      where it returned None). */
  datatype DayTables = DayTables(date: string, moneyline: Json, runline: Json, totals: Json)

  /** One element of `all_games`; JNull is None. */
  datatype GameRow = GameRow(
    date: string,
    gameTime: Json, awayTeam: Json, homeTeam: Json, awayAbbr: Json, homeAbbr: Json,
    mlOpeningAway: Json, mlOpeningHome: Json, mlCurrentAway: Json, mlCurrentHome: Json,
    rlOpeningSpread: Json, rlOpeningAway: Json, rlOpeningHome: Json,
    rlCurrentSpread: Json, rlCurrentAway: Json, rlCurrentHome: Json,
    totalOpening: Json, totalOpeningOver: Json, totalOpeningUnder: Json,
    totalCurrent: Json, totalCurrentOver: Json, totalCurrentUnder: Json)

  /** `for book in sportsbooks`: a list yields its elements, a str its
      characters (each a str, on which `.get` raises); a dict yields its keys,
      all strs, so a non-empty dict raises on the first one; anything else is
      not iterable. */
  function BooksOf(v: Json): (r: Result<seq<Json>>)
    ensures r.Ok? ==> Len(v) == Ok(|r.value|)
    ensures r.Raised? ==> v.JObj? || Len(v).Raised?
  {
    match v
    case JArr(xs) => Ok(xs)
    case JStr(s) => Ok(Chars(s))
    case JObj(m) => if m == map[] then Ok([]) else Raised
    case _ => Raised
  }

  /** `enumerate(game_rows)`: as for BooksOf, except that a dict's keys are
      strs that the per-game handler skips one by one, so a dict yields no
      game at all. */
  function GamesOf(v: Json): (r: Result<seq<Json>>)
    ensures r.Ok? <==> Len(v).Ok?
    ensures r.Ok? && !v.JObj? ==> Len(v) == Ok(|r.value|)
  {
    match v
    case JArr(xs) => Ok(xs)
    case JStr(s) => Ok(Chars(s))
    case JObj(_) => Ok([])
    case _ => Raised
  }

  /** A field of the home or away team entry of a game row, the empty str when missing. */
  function TeamField(gameRow: Json, team: string, key: string): Result<Json>
  {
    match Get(gameRow, team, EmptyObj)
    case Raised => Raised
    case Ok(t) => Get(t, key, JStr(""))
  }

  /** The run-line or totals odds of game i: taken from the table's game row i
      when the table is non-empty and has at least i + 1 rows, all None
      otherwise. */
  function CompanionOdds(table: Json, i: nat, id: Json, betType: string): (r: Result<BookOdds>)
    ensures !Truthy(table) ==> r == Ok(NoOdds)
    ensures Truthy(table) && !table.JObj? ==> r.Raised?
    ensures table.JObj? && "gameRows" !in table.fields ==> r == Ok(NoOdds)
  {
    if !Truthy(table) then Ok(NoOdds)
    else
      match Get(table, "gameRows", JArr([]))
      case Raised => Raised
      case Ok(rows) =>
        match Len(rows)
        case Raised => Raised
        case Ok(n) =>
          if i < n then
            match Item(rows, i)
            case Raised => Raised
            case Ok(g) => Ok(FanDuelOddsOf(g, id, betType))
          else Ok(NoOdds)
  }

  /** The `game_data` dict: `*_away` reads team2 and `*_home` team1;
      `total_*_over` reads team1 and `total_*_under` team2. */
  function AssembleRow(date: string, info: GameInfo, ml: BookOdds, rl: BookOdds, tot: BookOdds): (r: GameRow)
    ensures r.date == date
    ensures rl == NoOdds ==> r.rlOpeningSpread == r.rlOpeningAway == r.rlOpeningHome == JNull
    ensures rl == NoOdds ==> r.rlCurrentSpread == r.rlCurrentAway == r.rlCurrentHome == JNull
    ensures tot == NoOdds ==> r.totalOpening == r.totalOpeningOver == r.totalOpeningUnder == JNull
    ensures tot == NoOdds ==> r.totalCurrent == r.totalCurrentOver == r.totalCurrentUnder == JNull
  {
    GameRow(date, info.time, info.away, info.home, info.awayAbbr, info.homeAbbr,
            ml.opening.team2, ml.opening.team1, ml.current.team2, ml.current.team1,
            rl.opening.spread, rl.opening.team2, rl.opening.team1,
            rl.current.spread, rl.current.team2, rl.current.team1,
            tot.opening.total, tot.opening.team1, tot.opening.team2,
            tot.current.total, tot.current.team1, tot.current.team2)
  }

  /** A team entry of a game row, an empty dict when absent. */
  function TeamOf(fields: map<string, Json>, team: string): Json
  {
    if team in fields then fields[team] else EmptyObj
  }

  /** The `game_info` dict. */
  datatype GameInfo = GameInfo(time: Json, away: Json, home: Json, awayAbbr: Json, homeAbbr: Json)

  /** `game_info`, or None when building it raised: a game row that is not a
      dict, or a team entry that is present but not a dict. */
  function GameInfoOf(gameRow: Json): (r: Option<GameInfo>)
    ensures r.Some? <==> gameRow.JObj? && TeamOf(gameRow.fields, "awayTeam").JObj?
                                       && TeamOf(gameRow.fields, "homeTeam").JObj?
  {
    var time := Get(gameRow, "startTime", JStr(""));
    var away := TeamField(gameRow, "awayTeam", "name");
    var home := TeamField(gameRow, "homeTeam", "name");
    var awayAbbr := TeamField(gameRow, "awayTeam", "abbreviation");
    var homeAbbr := TeamField(gameRow, "homeTeam", "abbreviation");
    if time.Raised? || away.Raised? || home.Raised? || awayAbbr.Raised? || homeAbbr.Raised? then None
    else Some(GameInfo(time.value, away.value, home.value, awayAbbr.value, homeAbbr.value))
  }

  /** The row appended for game i, or None when the per-game `try` raised and
      the game was skipped. */
  function RowOf(date: string, gameRow: Json, i: nat, id: Json, runline: Json, totals: Json): (r: Option<GameRow>)
    ensures r.Some? ==> gameRow.JObj? && r.value.date == date
  {
    match (GameInfoOf(gameRow), CompanionOdds(runline, i, id, "runline"), CompanionOdds(totals, i, id, "totals"))
    case (Some(info), Ok(rl), Ok(tot)) =>
      Some(AssembleRow(date, info, FanDuelOddsOf(gameRow, id, "moneyline"), rl, tot))
    case _ => None
  }

  /** The rows the inner loop appends for a date's game rows, in order. */
  function RowsOfGames(date: string, games: seq<Json>, id: Json, runline: Json, totals: Json): seq<GameRow>
    decreases |games|
  {
    if games == [] then []
    else
      var n := |games| - 1;
      RowsOfGames(date, games[..n], id, runline, totals)
        + match RowOf(date, games[n], n, id, runline, totals) case Some(row) => [row] case None => []
  }

  /** The rows one date contributes, or Raised when an exception escapes
      get_games_for_dates while that date is processed. */
  function DateRows(day: DayTables): (r: Result<seq<GameRow>>)
    ensures r.Ok? && r.value != [] ==> Truthy(day.moneyline)
    ensures r.Ok? ==> forall k :: 0 <= k < |r.value| ==> r.value[k].date == day.date
  {
    if !Truthy(day.moneyline) then Ok([])
    else
      match Get(day.moneyline, "sportsbooks", JArr([]))
      case Raised => Raised
      case Ok(sportsbooks) =>
        match BooksOf(sportsbooks)
        case Raised => Raised
        case Ok(books) =>
          match FirstFanDuelId(books)
          case Raised => Raised
          case Ok(id) =>
            if !Truthy(id) then Ok([])
            else
              match GamesOf(Get(day.moneyline, "gameRows", JArr([])).value)
              case Raised => Raised
              case Ok(games) =>
                RowsOfGamesTagged(day.date, games, id, day.runline, day.totals);
                Ok(RowsOfGames(day.date, games, id, day.runline, day.totals))
  }

  function Join<T>(x: Result<seq<T>>, y: Result<seq<T>>): Result<seq<T>>
  {
    if x.Ok? && y.Ok? then Ok(x.value + y.value) else Raised
  }

  /** The concatenation of the parts in order, or Raised if any part raised. */
  function JoinAll<T>(parts: seq<Result<seq<T>>>): Result<seq<T>>
  {
    if parts == [] then Ok([])
    else Join(JoinAll(parts[..|parts| - 1]), parts[|parts| - 1])
  }

  function DateResults(days: seq<DayTables>): (r: seq<Result<seq<GameRow>>>)
    ensures |r| == |days| && forall d :: 0 <= d < |days| ==> r[d] == DateRows(days[d])
  {
    seq(|days|, d requires 0 <= d < |days| => DateRows(days[d]))
  }

  /** What get_games_for_dates returns (as a list of rows), or Raised. */
  function AllRows(days: seq<DayTables>): (r: Result<seq<GameRow>>)
    ensures r.Raised? <==> exists d :: 0 <= d < |days| && DateResults(days)[d].Raised?
  {
    JoinAllRaised(DateResults(days));
    JoinAll(DateResults(days))
  }

  /** The join raises exactly when one of its parts does. */
  lemma {:induction false} JoinAllRaised<T>(parts: seq<Result<seq<T>>>)
    ensures JoinAll(parts).Raised? <==> exists i :: 0 <= i < |parts| && parts[i].Raised?
    decreases |parts|
  {
    if parts != [] {
      var init := parts[..|parts| - 1];
      JoinAllRaised(init);
      assert forall i :: 0 <= i < |init| ==> init[i] == parts[i];
    }
  }

  /** Once a part raises, the whole join raises. */
  lemma {:induction false} RaisedPrefixRaises<T>(parts: seq<Result<seq<T>>>, k: nat)
    requires k <= |parts| && JoinAll(parts[..k]) == Raised
    ensures JoinAll(parts) == Raised
    decreases |parts|
  {
    if k == |parts| {
      assert parts[..k] == parts;
    } else {
      var init := parts[..|parts| - 1];
      assert init[..k] == parts[..k];
      RaisedPrefixRaises(init, k);
    }
  }

  /** The join of `a + b` is the join of `a` followed by the join of `b`. */
  lemma {:induction false} JoinAllAppend<T>(a: seq<Result<seq<T>>>, b: seq<Result<seq<T>>>)
    ensures JoinAll(a + b) == Join(JoinAll(a), JoinAll(b))
    decreases |b|
  {
    if b == [] {
      assert a + b == a;
      if JoinAll(a).Ok? {
        assert JoinAll(a).value + [] == JoinAll(a).value;
      }
    } else {
      var init := b[..|b| - 1];
      assert (a + b)[..|a + b| - 1] == a + init;
      assert (a + b)[|a + b| - 1] == b[|b| - 1];
      JoinAllAppend(a, init);
      var x, y, z := JoinAll(a), JoinAll(init), b[|b| - 1];
      if x.Ok? && y.Ok? && z.Ok? {
        assert x.value + y.value + z.value == x.value + (y.value + z.value);
      }
    }
  }

  /** Dates are processed in order: the rows of `a + b` are the rows of `a`
      followed by the rows of `b`, and if either raises the whole call does. */
  lemma AllRowsAppend(a: seq<DayTables>, b: seq<DayTables>)
    ensures AllRows(a + b) == Join(AllRows(a), AllRows(b))
  {
    DateResultsAppend(a, b);
    JoinAllAppend(DateResults(a), DateResults(b));
  }

  lemma DateResultsAppend(a: seq<DayTables>, b: seq<DayTables>)
    ensures DateResults(a + b) == DateResults(a) + DateResults(b)
  {
  }

  /** A single date yields exactly its own rows. */
  lemma SingleDate(day: DayTables)
    ensures AllRows([day]) == DateRows(day)
  {
    var parts := DateResults([day]);
    assert parts[..0] == [];
    assert JoinAll(parts) == Join(JoinAll(parts[..0]), parts[0]);
    if DateRows(day).Ok? {
      assert [] + DateRows(day).value == DateRows(day).value;
    }
  }

  /** At most one row per game row, and every row carries the date it was
      fetched for. */
  lemma {:induction false} RowsOfGamesTagged(date: string, games: seq<Json>, id: Json, runline: Json, totals: Json)
    ensures |RowsOfGames(date, games, id, runline, totals)| <= |games|
    ensures forall k :: 0 <= k < |RowsOfGames(date, games, id, runline, totals)| ==>
              RowsOfGames(date, games, id, runline, totals)[k].date == date
    decreases |games|
  {
    if games != [] {
      RowsOfGamesTagged(date, games[..|games| - 1], id, runline, totals);
    }
  }

  /** When no game raises, there is exactly one row per game, in game order. */
  lemma {:induction false} OneRowPerGame(date: string, games: seq<Json>, id: Json, runline: Json, totals: Json)
    requires forall i :: 0 <= i < |games| ==> RowOf(date, games[i], i, id, runline, totals).Some?
    ensures |RowsOfGames(date, games, id, runline, totals)| == |games|
    ensures forall i :: 0 <= i < |games| ==>
              RowsOfGames(date, games, id, runline, totals)[i] == RowOf(date, games[i], i, id, runline, totals).value
    decreases |games|
  {
    if games != [] {
      var n := |games| - 1;
      var init := games[..n];
      forall i | 0 <= i < |init|
        ensures RowOf(date, init[i], i, id, runline, totals).Some?
      {
        assert init[i] == games[i];
      }
      OneRowPerGame(date, init, id, runline, totals);
      var prev := RowsOfGames(date, init, id, runline, totals);
      var last := RowOf(date, games[n], n, id, runline, totals).value;
      assert RowsOfGames(date, games, id, runline, totals) == prev + [last];
      forall i | 0 <= i < |games|
        ensures (prev + [last])[i] == RowOf(date, games[i], i, id, runline, totals).value
      {
        if i < n {
          assert init[i] == games[i];
        }
      }
    }
  }

  /** A date with no moneyline table contributes no rows. */
  lemma NoMoneylineNoRows(day: DayTables)
    requires !Truthy(day.moneyline)
    ensures DateRows(day) == Ok([])
  {
  }

  /** A date whose sportsbooks list has no FanDuel entry contributes no rows. */
  lemma NoFanDuelNoRows(day: DayTables, books: seq<Json>)
    requires Get(day.moneyline, "sportsbooks", JArr([])) == Ok(JArr(books))
    requires forall j :: 0 <= j < |books| ==> Verdict(books[j]) == OtherBook
    ensures DateRows(day) == Ok([])
  {
    FirstFanDuelIdIsFirstMatch(books, |books|);
  }

  /** A date whose first FanDuel book has a missing, null or empty id
      contributes no rows: the `if not fanduel_id` guard skips it. */
  lemma FalsyFanDuelIdNoRows(day: DayTables, books: seq<Json>, k: nat)
    requires Get(day.moneyline, "sportsbooks", JArr([])) == Ok(JArr(books))
    requires k < |books| && Verdict(books[k]).FanDuelBook? && !Truthy(Verdict(books[k]).id)
    requires forall j :: 0 <= j < k ==> Verdict(books[j]) == OtherBook
    ensures DateRows(day) == Ok([])
  {
    FirstFanDuelIdIsFirstMatch(books, k);
  }

  /** A date whose first FanDuel book has an id contributes one row per
      moneyline game row, in order, each tagged with the date, provided no
      game's `try` raises. */
  lemma OneRowPerMoneylineGame(day: DayTables, books: seq<Json>, k: nat, games: seq<Json>)
    requires Get(day.moneyline, "sportsbooks", JArr([])) == Ok(JArr(books))
    requires k < |books| && Verdict(books[k]).FanDuelBook? && Truthy(Verdict(books[k]).id)
    requires forall j :: 0 <= j < k ==> Verdict(books[j]) == OtherBook
    requires Get(day.moneyline, "gameRows", JArr([])) == Ok(JArr(games))
    requires forall i :: 0 <= i < |games| ==>
               RowOf(day.date, games[i], i, Verdict(books[k]).id, day.runline, day.totals).Some?
    ensures DateRows(day).Ok? && |DateRows(day).value| == |games|
    ensures forall i :: 0 <= i < |games| ==>
              DateRows(day).value[i] == RowOf(day.date, games[i], i, Verdict(books[k]).id, day.runline, day.totals).value
    ensures forall i :: 0 <= i < |games| ==> DateRows(day).value[i].date == day.date
  {
    var id := Verdict(books[k]).id;
    FirstFanDuelIdIsFirstMatch(books, k);
    assert Truthy(day.moneyline);
    OneRowPerGame(day.date, games, id, day.runline, day.totals);
  }

  /** A moneyline table without a gameRows key contributes no rows and does
      not raise when no sportsbook is malformed, so the dates after it are
      still processed. */
  lemma MissingGameRowsNoRows(day: DayTables, books: seq<Json>)
    requires Get(day.moneyline, "sportsbooks", JArr([])) == Ok(JArr(books))
    requires "gameRows" !in day.moneyline.fields
    requires forall j :: 0 <= j < |books| ==> !Verdict(books[j]).RaisesOnBook?
    ensures DateRows(day) == Ok([])
  {
    assert FirstFanDuelId(books).Ok?;
    assert RowsOfGames(day.date, [], FirstFanDuelId(books).value, day.runline, day.totals) == [];
  }

  /** A game row that is a dict, whose team entries are dicts when present,
      and whose run-line and totals tables are empty or hold a list of game
      rows, is never skipped. */
  lemma WellFormedGameYieldsRow(date: string, gameRow: map<string, Json>, i: nat, id: Json,
                                runline: Json, totals: Json)
    requires "awayTeam" in gameRow ==> gameRow["awayTeam"].JObj?
    requires "homeTeam" in gameRow ==> gameRow["homeTeam"].JObj?
    requires Truthy(runline) ==> Get(runline, "gameRows", JArr([])).Ok? && Get(runline, "gameRows", JArr([])).value.JArr?
    requires Truthy(totals) ==> Get(totals, "gameRows", JArr([])).Ok? && Get(totals, "gameRows", JArr([])).value.JArr?
    ensures RowOf(date, JObj(gameRow), i, id, runline, totals).Some?
  {
  }

  /** The game-info columns: the start time, and the name and abbreviation of
      each team, each read with the empty str as default. */
  lemma GameInfoColumns(date: string, gameRow: map<string, Json>, i: nat, id: Json, runline: Json, totals: Json)
    requires RowOf(date, JObj(gameRow), i, id, runline, totals).Some?
    ensures var row := RowOf(date, JObj(gameRow), i, id, runline, totals).value;
            var away := TeamOf(gameRow, "awayTeam").fields;
            var home := TeamOf(gameRow, "homeTeam").fields;
            && row.gameTime == (if "startTime" in gameRow then gameRow["startTime"] else JStr(""))
            && row.awayTeam == (if "name" in away then away["name"] else JStr(""))
            && row.homeTeam == (if "name" in home then home["name"] else JStr(""))
            && row.awayAbbr == (if "abbreviation" in away then away["abbreviation"] else JStr(""))
            && row.homeAbbr == (if "abbreviation" in home then home["abbreviation"] else JStr(""))
  {
  }

  /** The moneyline columns of a row come from the game row itself. */
  lemma MoneylineColumns(date: string, gameRow: Json, i: nat, id: Json, runline: Json, totals: Json)
    requires RowOf(date, gameRow, i, id, runline, totals).Some?
    ensures var row := RowOf(date, gameRow, i, id, runline, totals).value;
            var ml := FanDuelOddsOf(gameRow, id, "moneyline");
            && row.date == date
            && row.mlOpeningAway == ml.opening.team2 && row.mlOpeningHome == ml.opening.team1
            && row.mlCurrentAway == ml.current.team2 && row.mlCurrentHome == ml.current.team1
  {
  }

  /** The companion odds of game i, once the table's game rows are known. */
  lemma CompanionOddsFromRows(table: Json, i: nat, id: Json, betType: string, rows: seq<Json>)
    requires !Truthy(table) ==> rows == []
    requires Truthy(table) ==> Get(table, "gameRows", JArr([])) == Ok(JArr(rows))
    ensures CompanionOdds(table, i, id, betType)
            == Ok(if i < |rows| then FanDuelOddsOf(rows[i], id, betType) else NoOdds)
  {
  }

  /** The run-line columns of game i come from game row i of the run-line
      table when that row exists, and are None otherwise. */
  lemma RunlineColumnsAligned(date: string, gameRow: Json, i: nat, id: Json,
                              runline: Json, totals: Json, rows: seq<Json>)
    requires RowOf(date, gameRow, i, id, runline, totals).Some?
    requires !Truthy(runline) ==> rows == []
    requires Truthy(runline) ==> Get(runline, "gameRows", JArr([])) == Ok(JArr(rows))
    ensures var row := RowOf(date, gameRow, i, id, runline, totals).value;
            if i < |rows| then
              var rl := FanDuelOddsOf(rows[i], id, "runline");
              && row.rlOpeningSpread == rl.opening.spread && row.rlOpeningAway == rl.opening.team2
              && row.rlOpeningHome == rl.opening.team1 && row.rlCurrentSpread == rl.current.spread
              && row.rlCurrentAway == rl.current.team2 && row.rlCurrentHome == rl.current.team1
            else
              && row.rlOpeningSpread == JNull && row.rlOpeningAway == JNull && row.rlOpeningHome == JNull
              && row.rlCurrentSpread == JNull && row.rlCurrentAway == JNull && row.rlCurrentHome == JNull
  {
    CompanionOddsFromRows(runline, i, id, "runline", rows);
    var rl := CompanionOdds(runline, i, id, "runline").value;
    var tot := CompanionOdds(totals, i, id, "totals").value;
    assert RowOf(date, gameRow, i, id, runline, totals).value
        == AssembleRow(date, GameInfoOf(gameRow).value, FanDuelOddsOf(gameRow, id, "moneyline"), rl, tot);
  }

  /** The totals columns of game i come from game row i of the totals table
      when that row exists (over is team1, under is team2), None otherwise. */
  lemma TotalsColumnsAligned(date: string, gameRow: Json, i: nat, id: Json,
                             runline: Json, totals: Json, rows: seq<Json>)
    requires RowOf(date, gameRow, i, id, runline, totals).Some?
    requires !Truthy(totals) ==> rows == []
    requires Truthy(totals) ==> Get(totals, "gameRows", JArr([])) == Ok(JArr(rows))
    ensures var row := RowOf(date, gameRow, i, id, runline, totals).value;
            if i < |rows| then
              var tot := FanDuelOddsOf(rows[i], id, "totals");
              && row.totalOpening == tot.opening.total && row.totalOpeningOver == tot.opening.team1
              && row.totalOpeningUnder == tot.opening.team2 && row.totalCurrent == tot.current.total
              && row.totalCurrentOver == tot.current.team1 && row.totalCurrentUnder == tot.current.team2
            else
              && row.totalOpening == JNull && row.totalOpeningOver == JNull && row.totalOpeningUnder == JNull
              && row.totalCurrent == JNull && row.totalCurrentOver == JNull && row.totalCurrentUnder == JNull
  {
    CompanionOddsFromRows(totals, i, id, "totals", rows);
    var rl := CompanionOdds(runline, i, id, "runline").value;
    var tot := CompanionOdds(totals, i, id, "totals").value;
    assert RowOf(date, gameRow, i, id, runline, totals).value
        == AssembleRow(date, GameInfoOf(gameRow).value, FanDuelOddsOf(gameRow, id, "moneyline"), rl, tot);
  }

  /** The odds of game i in the run-line or totals table, read only when the table is truthy and has more than i game rows. */
  method CompanionGameOdds(table: Json, i: nat, id: Json, betType: string) returns (odds: Result<BookOdds>)
    ensures odds == CompanionOdds(table, i, id, betType)
  {
    if !Truthy(table) {
      return Ok(NoOdds);
    }
    var rows := Get(table, "gameRows", JArr([]));
    if rows.Raised? {
      return Raised;
    }
    var n := Len(rows.value);
    if n.Raised? {
      return Raised;
    }
    if i < n.value {
      var game := Item(rows.value, i);
      if game.Raised? {
        return Raised;
      }
      var extracted := ExtractFanDuelOdds(game.value, id, betType);
      return Ok(extracted);
    }
    return Ok(NoOdds);
  }

  /** The body of the per-game `try`; None when it raised (the handler logs
      and skips the game). */
  method ProcessGame(date: string, gameRow: Json, i: nat, fanduelId: Json, runlineData: Json, totalsData: Json)
    returns (row: Option<GameRow>)
    ensures row == RowOf(date, gameRow, i, fanduelId, runlineData, totalsData)
  {
    var gameInfo := GameInfoOf(gameRow);
    if gameInfo.None? {
      return None;
    }
    var moneylineOdds := ExtractFanDuelOdds(gameRow, fanduelId, "moneyline");
    var runlineOdds := CompanionGameOdds(runlineData, i, fanduelId, "runline");
    if runlineOdds.Raised? {
      return None;
    }
    var totalsOdds := CompanionGameOdds(totalsData, i, fanduelId, "totals");
    if totalsOdds.Raised? {
      return None;
    }
    assert CompanionOdds(runlineData, i, fanduelId, "runline") == runlineOdds;
    assert CompanionOdds(totalsData, i, fanduelId, "totals") == totalsOdds;
    assert RowOf(date, gameRow, i, fanduelId, runlineData, totalsData) == Some(AssembleRow(date, gameInfo.value, moneylineOdds, runlineOdds.value, totalsOdds.value));
    return Some(AssembleRow(date, gameInfo.value, moneylineOdds, runlineOdds.value, totalsOdds.value));
  }

  /** One pass of get_games_for_dates's outer loop: skip the date when there
      is no moneyline table or no FanDuel id, otherwise append one row per
      game whose `try` succeeds. Raised is an exception escaping the loop. */
  method AppendDateRows(allGames: seq<GameRow>, day: DayTables) returns (r: Result<seq<GameRow>>)
    ensures r == Join(Ok(allGames), DateRows(day))
  {
    assert allGames + [] == allGames;
    if !Truthy(day.moneyline) {
      return Ok(allGames);
    }
    var sportsbooks := Get(day.moneyline, "sportsbooks", JArr([]));
    if sportsbooks.Raised? {
      return Raised;
    }
    var books := BooksOf(sportsbooks.value);
    if books.Raised? {
      return Raised;
    }
    var fanduelId := FindFanDuelSportsbookId(books.value);
    if fanduelId.Raised? {
      return Raised;
    }
    if !Truthy(fanduelId.value) {
      return Ok(allGames);
    }
    var gameRows := GamesOf(Get(day.moneyline, "gameRows", JArr([])).value);
    if gameRows.Raised? {
      return Raised;
    }
    var rows := AppendGameRows(allGames, day.date, gameRows.value, fanduelId.value, day.runline, day.totals);
    return Ok(rows);
  }

  /** The inner loop of get_games_for_dates: each game row in turn, appending
      its row unless the per-game `try` raised. */
  method AppendGameRows(allGames: seq<GameRow>, date: string, games: seq<Json>, id: Json, runline: Json, totals: Json)
    returns (rows: seq<GameRow>)
    ensures rows == allGames + RowsOfGames(date, games, id, runline, totals)
  {
    rows := allGames;
    for i := 0 to |games|
      invariant rows == allGames + RowsOfGames(date, games[..i], id, runline, totals)
    {
      var row := ProcessGame(date, games[i], i, id, runline, totals);
      AppendStep(allGames, rows, date, games, i, id, runline, totals);
      if row.Some? {
        rows := rows + [row.value];
      }
    }
    assert games[..|games|] == games;
  }

  /** One pass of the inner loop keeps the accumulated rows in step with
      RowsOfGames. */
  lemma AppendStep(allGames: seq<GameRow>, rows: seq<GameRow>, date: string, games: seq<Json>, i: nat,
                   id: Json, runline: Json, totals: Json)
    requires i < |games|
    requires rows == allGames + RowsOfGames(date, games[..i], id, runline, totals)
    ensures RowOf(date, games[i], i, id, runline, totals).None? ==>
              rows == allGames + RowsOfGames(date, games[..i + 1], id, runline, totals)
    ensures RowOf(date, games[i], i, id, runline, totals).Some? ==>
              rows + [RowOf(date, games[i], i, id, runline, totals).value]
              == allGames + RowsOfGames(date, games[..i + 1], id, runline, totals)
  {
    RowsOfGamesStep(date, games, i, id, runline, totals);
    var prev := RowsOfGames(date, games[..i], id, runline, totals);
    match RowOf(date, games[i], i, id, runline, totals)
    case None =>
      assert prev + [] == prev;
    case Some(row) =>
      assert allGames + prev + [row] == allGames + (prev + [row]);
  }

  /** Taking one more game row appends its row, if any. */
  lemma RowsOfGamesStep(date: string, games: seq<Json>, i: nat, id: Json, runline: Json, totals: Json)
    requires i < |games|
    ensures RowsOfGames(date, games[..i + 1], id, runline, totals)
            == RowsOfGames(date, games[..i], id, runline, totals)
               + match RowOf(date, games[i], i, id, runline, totals) case Some(row) => [row] case None => []
  {
    assert games[..i + 1][..i] == games[..i];
  }

  /** get_games_for_dates: the dates in order, each contributing its rows;
      an exception escaping one date ends the whole call. */
  method GetGamesForDates(days: seq<DayTables>) returns (r: Result<seq<GameRow>>)
    ensures r == AllRows(days)
  {
    ghost var parts := DateResults(days);
    var allGames: seq<GameRow> := [];
    for d := 0 to |days|
      invariant JoinAll(parts[..d]) == Ok(allGames)
    {
      assert parts[..d + 1][..d] == parts[..d];
      assert JoinAll(parts[..d + 1]) == Join(JoinAll(parts[..d]), DateRows(days[d]));
      var next := AppendDateRows(allGames, days[d]);
      if next.Raised? {
        RaisedPrefixRaises(parts, d + 1);
        return Raised;
      }
      allGames := next.value;
    }
    assert parts[..|days|] == parts;
    return Ok(allGames);
  }
}
