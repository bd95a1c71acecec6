/** Finding FanDuel among a date's sportsbooks and reading its opening and
    current odds from one game row (MLBOddsScraper.find_fanduel_sportsbook_id
    and MLBOddsScraper.extract_fanduel_odds). */
module FanDuel {
  import opened Wrappers
  import opened PyJson
  import opened Text

  /** What one pass of find_fanduel_sportsbook_id's loop does with a book. */
  datatype BookVerdict = OtherBook | FanDuelBook(id: Json) | RaisesOnBook

  /** How one book fares in the FanDuel test: its name, lower-cased, must contain "fanduel", and its id is then returned.
      A book that is not a dict, or whose name is not a str, raises. */
  function Verdict(book: Json): (r: BookVerdict)
    ensures r.FanDuelBook? ==> book.JObj? && r.id == Field(book.fields, "id")
    ensures r.RaisesOnBook? <==> !book.JObj? || ("name" in book.fields && !book.fields["name"].JStr?)
  {
    match Get(book, "name", JStr(""))
    case Raised => RaisesOnBook
    case Ok(name) =>
      if !name.JStr? then RaisesOnBook
      else if Contains(Lower(name.s), "fanduel") then FanDuelBook(Field(book.fields, "id"))
      else OtherBook
  }

  /** The verdict on each book, in order. */
  function Verdicts(books: seq<Json>): (v: seq<BookVerdict>)
    ensures |v| == |books| && forall i :: 0 <= i < |books| ==> v[i] == Verdict(books[i])
  {
    seq(|books|, i requires 0 <= i < |books| => Verdict(books[i]))
  }

  /** The value find_fanduel_sportsbook_id returns (Ok(JNull) is None): a
      non-None id is the id of some FanDuel book, and an exception comes from
      some malformed book. */
  function FirstFanDuelId(books: seq<Json>): (r: Result<Json>)
    ensures r.Ok? && r.value != JNull ==> FanDuelBook(r.value) in Verdicts(books)
    ensures r.Raised? ==> RaisesOnBook in Verdicts(books)
  {
    if books == [] then Ok(JNull)
    else
      match Verdict(books[0])
      case RaisesOnBook => Raised
      case FanDuelBook(id) => Ok(id)
      case OtherBook =>
        assert Verdicts(books[1..]) == Verdicts(books)[1..];
        FirstFanDuelId(books[1..])
  }

  /** The search stops at the first book that is not an ordinary non-FanDuel
      book: the first FanDuel book gives its id, a malformed book raises, and
      with no FanDuel book at all the result is None. */
  lemma {:induction false} FirstFanDuelIdIsFirstMatch(books: seq<Json>, k: nat)
    requires k <= |books|
    requires forall j :: 0 <= j < k ==> Verdict(books[j]) == OtherBook
    ensures k == |books| ==> FirstFanDuelId(books) == Ok(JNull)
    ensures k < |books| && Verdict(books[k]).FanDuelBook? ==>
              FirstFanDuelId(books) == Ok(Verdict(books[k]).id)
    ensures k < |books| && Verdict(books[k]).RaisesOnBook? ==> FirstFanDuelId(books) == Raised
  {
    if k > 0 {
      assert Verdict(books[0]) == OtherBook;
      forall j | 0 <= j < k - 1
        ensures Verdict(books[1..][j]) == OtherBook
      {
        assert books[1..][j] == books[j + 1];
      }
      FirstFanDuelIdIsFirstMatch(books[1..], k - 1);
    }
  }

  /** A book without a name never matches; the match ignores ASCII case. */
  lemma NamelessBookNeverMatches(book: map<string, Json>)
    requires "name" !in book
    ensures Verdict(JObj(book)) == OtherBook
  {
    assert !OccursAt(Lower(""), "fanduel", 0);
  }

  /** The test ignores ASCII case in general: a name and its lower-cased form
      give the same verdict. */
  lemma NameCaseIgnored(book: map<string, Json>, name: string)
    ensures Verdict(JObj(book["name" := JStr(name)])) == Verdict(JObj(book["name" := JStr(Lower(name))]))
  {
    assert Lower(Lower(name)) == Lower(name);
  }

  /** One instance of NameCaseIgnored: the site's own spelling matches. */
  lemma CapitalisedNameMatches(book: map<string, Json>)
    requires "name" in book && book["name"] == JStr("FanDuel")
    ensures Verdict(JObj(book)) == FanDuelBook(Field(book, "id"))
  {
    assert Lower("FanDuel") == "fanduel";
    assert OccursAt(Lower("FanDuel"), "fanduel", 0);
  }

  /** find_fanduel_sportsbook_id: a loop with an early return. */
  method FindFanDuelSportsbookId(sportsbooks: seq<Json>) returns (r: Result<Json>)
    ensures r == FirstFanDuelId(sportsbooks)
  {
    for i := 0 to |sportsbooks|
      invariant FirstFanDuelId(sportsbooks[i..]) == FirstFanDuelId(sportsbooks)
    {
      var book := sportsbooks[i];
      var name := Get(book, "name", JStr(""));
      if name.Raised? || !name.value.JStr? {
        return Raised;
      }
      if Contains(Lower(name.value.s), "fanduel") {
        return Ok(Field(book.fields, "id"));
      }
      assert sportsbooks[i..][1..] == sportsbooks[i + 1..];
    }
    return Ok(JNull);
  }

  datatype BetType = Moneyline | Runline | Totals

  function BetTypeOf(name: string): Option<BetType>
  {
    if name == "moneyline" then Some(Moneyline)
    else if name == "runline" then Some(Runline)
    else if name == "totals" then Some(Totals)
    else None
  }

  /** The key under a sportsbook's data that holds each bet type. */
  function MarketKey(t: BetType): string
  {
    match t
    case Moneyline => "ml"
    case Runline => "ps"
    case Totals => "total"
  }

  /** One of the two halves (opening, current) of extract_fanduel_odds's
      result; JNull is None. */
  datatype PhaseOdds = PhaseOdds(team1: Json, team2: Json, total: Json, spread: Json)

  const NoPhase := PhaseOdds(JNull, JNull, JNull, JNull)

  datatype BookOdds = BookOdds(opening: PhaseOdds, current: PhaseOdds)

  const NoOdds := BookOdds(NoPhase, NoPhase)

  /** The game row's entry for the sportsbook id inside its sportsbookData, an empty dict when either is missing. */
  function SportsbookEntry(gameRow: Json, id: Json): Result<Json>
  {
    match Get(gameRow, "sportsbookData", EmptyObj)
    case Raised => Raised
    case Ok(data) => GetByKey(data, id, EmptyObj)
  }

  /** The opening or current entry of one market in a sportsbook entry, an empty dict when missing. */
  function PhaseEntry(book: Json, t: BetType, phase: string): Result<Json>
  {
    match Get(book, MarketKey(t), EmptyObj)
    case Raised => Raised
    case Ok(market) => Get(market, phase, EmptyObj)
  }

  /** The entry for one phase of one bet type of a game row. */
  function Entry(gameRow: Json, id: Json, t: BetType, phase: string): Result<Json>
  {
    match SportsbookEntry(gameRow, id)
    case Raised => Raised
    case Ok(book) => PhaseEntry(book, t, phase)
  }

  /** The assignments made when the opening (or current) entry is truthy: nothing for
      an empty entry, all fields or none at all otherwise, since the first
      `.get` already raises on an entry that is not a dict. */
  function FillPhase(entry: Json, t: BetType): Result<PhaseOdds>
  {
    if !Truthy(entry) then Ok(NoPhase)
    else if !entry.JObj? then Raised
    else
      var f := entry.fields;
      match t
      case Moneyline =>
        Ok(NoPhase.(team1 := Field(f, "homeOdds"), team2 := Field(f, "awayOdds")))
      case Runline =>
        Ok(NoPhase.(team1 := Field(f, "homeOdds"), team2 := Field(f, "awayOdds"),
                    spread := Field(f, "homeSpread")))
      case Totals =>
        Ok(NoPhase.(team1 := Field(f, "overOdds"), team2 := Field(f, "underOdds"),
                    total := Field(f, "total")))
  }

  /** The record extract_fanduel_odds returns. An exception anywhere is caught
      and returns what was filled so far: both entries are looked up before
      either is used, and the opening half is filled before the current one. */
  function FanDuelOddsOf(gameRow: Json, id: Json, betType: string): (r: BookOdds)
    ensures r != NoOdds ==> gameRow.JObj? && BetTypeOf(betType).Some?
    ensures r.opening.spread != JNull || r.current.spread != JNull ==> betType == "runline"
    ensures r.opening.total != JNull || r.current.total != JNull ==> betType == "totals"
  {
    match SportsbookEntry(gameRow, id)
    case Raised => NoOdds
    case Ok(book) =>
      match BetTypeOf(betType)
      case None => NoOdds
      case Some(t) =>
        match (PhaseEntry(book, t, "opening"), PhaseEntry(book, t, "current"))
        case (Ok(opening), Ok(current)) =>
          (match FillPhase(opening, t)
           case Raised => NoOdds
           case Ok(o) =>
             BookOdds(o, match FillPhase(current, t) case Ok(c) => c case Raised => NoPhase))
        case _ => NoOdds
  }

  /** extract_fanduel_odds: start from the all-None record and assign field by
      field. Each early return is an exception caught by the handler, which
      returns the record as it stands. */
  method ExtractFanDuelOdds(gameRow: Json, sportsbookId: Json, betType: string)
    returns (odds: BookOdds)
    ensures odds == FanDuelOddsOf(gameRow, sportsbookId, betType)
  {
    odds := NoOdds;
    var book := SportsbookEntry(gameRow, sportsbookId);
    if book.Raised? {
      return;
    }
    var t := BetTypeOf(betType);
    if t.None? {
      return;
    }
    var opening := PhaseEntry(book.value, t.value, "opening");
    if opening.Raised? {
      return;
    }
    var current := PhaseEntry(book.value, t.value, "current");
    if current.Raised? {
      return;
    }
    match t.value
    case Moneyline =>
      if Truthy(opening.value) {
        if !opening.value.JObj? {
          return;
        }
        var f := opening.value.fields;
        odds := odds.(opening := odds.opening.(team1 := Field(f, "homeOdds")));
        odds := odds.(opening := odds.opening.(team2 := Field(f, "awayOdds")));
      }
      if Truthy(current.value) {
        if !current.value.JObj? {
          return;
        }
        var f := current.value.fields;
        odds := odds.(current := odds.current.(team1 := Field(f, "homeOdds")));
        odds := odds.(current := odds.current.(team2 := Field(f, "awayOdds")));
      }
    case Runline =>
      if Truthy(opening.value) {
        if !opening.value.JObj? {
          return;
        }
        var f := opening.value.fields;
        odds := odds.(opening := odds.opening.(team1 := Field(f, "homeOdds")));
        odds := odds.(opening := odds.opening.(team2 := Field(f, "awayOdds")));
        odds := odds.(opening := odds.opening.(spread := Field(f, "homeSpread")));
      }
      if Truthy(current.value) {
        if !current.value.JObj? {
          return;
        }
        var f := current.value.fields;
        odds := odds.(current := odds.current.(team1 := Field(f, "homeOdds")));
        odds := odds.(current := odds.current.(team2 := Field(f, "awayOdds")));
        odds := odds.(current := odds.current.(spread := Field(f, "homeSpread")));
      }
    case Totals =>
      if Truthy(opening.value) {
        if !opening.value.JObj? {
          return;
        }
        var f := opening.value.fields;
        odds := odds.(opening := odds.opening.(team1 := Field(f, "overOdds")));
        odds := odds.(opening := odds.opening.(team2 := Field(f, "underOdds")));
        odds := odds.(opening := odds.opening.(total := Field(f, "total")));
      }
      if Truthy(current.value) {
        if !current.value.JObj? {
          return;
        }
        var f := current.value.fields;
        odds := odds.(current := odds.current.(team1 := Field(f, "overOdds")));
        odds := odds.(current := odds.current.(team2 := Field(f, "underOdds")));
        odds := odds.(current := odds.current.(total := Field(f, "total")));
      }
  }

  /** A bet type other than moneyline, runline and totals yields all None. */
  lemma UnknownBetTypeHasNoOdds(gameRow: Json, id: Json, betType: string)
    requires BetTypeOf(betType).None?
    ensures FanDuelOddsOf(gameRow, id, betType) == NoOdds
  {
  }

  /** A sportsbook id that is not a key of `sportsbookData` (or a game row
      without `sportsbookData`) yields all None, whatever the bet type. */
  lemma MissingSportsbookHasNoOdds(gameRow: map<string, Json>, id: Json, betType: string)
    requires "sportsbookData" in gameRow ==> gameRow["sportsbookData"].JObj?
    requires "sportsbookData" in gameRow && id.JStr? ==> id.s !in gameRow["sportsbookData"].fields
    ensures FanDuelOddsOf(JObj(gameRow), id, betType) == NoOdds
  {
  }

  /** Moneyline: team1 is the home odds, team2 the away odds, no line. */
  lemma MoneylineReadsHomeAndAway(gameRow: Json, id: Json,
                                  opening: map<string, Json>, current: map<string, Json>)
    requires Entry(gameRow, id, Moneyline, "opening") == Ok(JObj(opening)) && opening != map[]
    requires Entry(gameRow, id, Moneyline, "current") == Ok(JObj(current)) && current != map[]
    ensures FanDuelOddsOf(gameRow, id, "moneyline") ==
            BookOdds(PhaseOdds(Field(opening, "homeOdds"), Field(opening, "awayOdds"), JNull, JNull),
                     PhaseOdds(Field(current, "homeOdds"), Field(current, "awayOdds"), JNull, JNull))
  {
  }

  /** Run line: team1 and team2 as for the moneyline, and the home spread. */
  lemma RunlineReadsOddsAndSpread(gameRow: Json, id: Json,
                                  opening: map<string, Json>, current: map<string, Json>)
    requires Entry(gameRow, id, Runline, "opening") == Ok(JObj(opening)) && opening != map[]
    requires Entry(gameRow, id, Runline, "current") == Ok(JObj(current)) && current != map[]
    ensures FanDuelOddsOf(gameRow, id, "runline") ==
            BookOdds(PhaseOdds(Field(opening, "homeOdds"), Field(opening, "awayOdds"),
                               JNull, Field(opening, "homeSpread")),
                     PhaseOdds(Field(current, "homeOdds"), Field(current, "awayOdds"),
                               JNull, Field(current, "homeSpread")))
  {
  }

  /** Totals: team1 is the over odds, team2 the under odds, and the line. */
  lemma TotalsReadsOverUnderAndLine(gameRow: Json, id: Json,
                                    opening: map<string, Json>, current: map<string, Json>)
    requires Entry(gameRow, id, Totals, "opening") == Ok(JObj(opening)) && opening != map[]
    requires Entry(gameRow, id, Totals, "current") == Ok(JObj(current)) && current != map[]
    ensures FanDuelOddsOf(gameRow, id, "totals") ==
            BookOdds(PhaseOdds(Field(opening, "overOdds"), Field(opening, "underOdds"),
                               Field(opening, "total"), JNull),
                     PhaseOdds(Field(current, "overOdds"), Field(current, "underOdds"),
                               Field(current, "total"), JNull))
  {
  }

  /** The two halves are filled independently: a missing or empty opening
      entry leaves only the opening half None. */
  lemma EmptyOpeningLeavesCurrent(gameRow: Json, id: Json, betType: string, current: map<string, Json>)
    requires BetTypeOf(betType).Some?
    requires Entry(gameRow, id, BetTypeOf(betType).value, "opening") == Ok(EmptyObj)
    requires Entry(gameRow, id, BetTypeOf(betType).value, "current") == Ok(JObj(current))
    ensures FanDuelOddsOf(gameRow, id, betType).opening == NoPhase
    ensures FanDuelOddsOf(gameRow, id, betType).current ==
            FillPhase(JObj(current), BetTypeOf(betType).value).value
  {
  }

  /** A current entry that is not a dict raises after the opening half was
      assigned: the opening half survives, the current half stays None. */
  lemma MalformedCurrentKeepsOpening(gameRow: Json, id: Json, betType: string,
                                     opening: map<string, Json>, current: Json)
    requires BetTypeOf(betType).Some?
    requires Entry(gameRow, id, BetTypeOf(betType).value, "opening") == Ok(JObj(opening))
    requires Entry(gameRow, id, BetTypeOf(betType).value, "current") == Ok(current)
    requires Truthy(current) && !current.JObj?
    ensures FanDuelOddsOf(gameRow, id, betType) ==
            BookOdds(FillPhase(JObj(opening), BetTypeOf(betType).value).value, NoPhase)
  {
  }
}
