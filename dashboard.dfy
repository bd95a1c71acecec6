/** The dashboard's odds formatting and its split of the games into the
    "today" and "tomorrow" tabs (format_odds and the date filter in main). */
module Dashboard {
  import opened Wrappers
  import opened Decimal

  /** A value read from a DataFrame cell: Missing is None or NaN. */
  datatype Cell = Missing | IntCell(n: int) | FloatCell(x: real) | TextCell(s: string)

  const Unavailable := "Unavailable"

  /** `int(x)` for a float: truncation toward zero. */
  function Trunc(x: real): (n: int)
    ensures 0.0 <= x ==> n as real <= x < n as real + 1.0
    ensures x < 0.0 ==> n as real - 1.0 < x <= n as real
  {
    if 0.0 <= x then x.Floor else -((-x).Floor)
  }

  /** `int(value)`, or None where it raises ValueError or TypeError. */
  function AsInt(c: Cell): (r: Option<int>)
    ensures r.None? <==> c.Missing? || (c.TextCell? && ParseInt(c.s).None?)
    ensures c.IntCell? ==> r == Some(c.n)
    ensures c.FloatCell? && r.Some? ==> (r.value as real - c.x) * (r.value as real - c.x) < 1.0
  {
    match c
    case Missing => None
    case IntCell(n) => Some(n)
    case FloatCell(x) => Some(Trunc(x))
    case TextCell(s) => ParseInt(s)
  }

  /** Odds as displayed: a plus sign before positive odds, the plain integer otherwise. */
  function Signed(n: int): (r: string)
    ensures |r| >= 1
    ensures r[0] == '+' <==> n > 0
    ensures r[0] == '-' <==> n < 0
    ensures n == 0 ==> r == "0"
  {
    if n > 0 then "+" + IntToString(n) else IntToString(n)
  }

  /** format_odds: never empty, and "Unavailable" exactly when the value is
      missing or does not convert to an integer. */
  function FormatOdds(c: Cell): (r: string)
    ensures |r| > 0
    ensures r == Unavailable <==> AsInt(c).None?
  {
    if c.Missing? then Unavailable
    else
      match AsInt(c)
      case None => Unavailable
      case Some(odds) => Signed(odds)
  }

  lemma MissingIsUnavailable()
    ensures FormatOdds(Missing) == Unavailable
  {
  }

  /** A positive integer gets a "+" before its digits. */
  lemma PositiveOddsGetPlus(n: int)
    requires n > 0
    ensures FormatOdds(IntCell(n)) == "+" + NatToDigits(n)
  {
  }

  /** Zero prints as "0", without a sign. */
  lemma ZeroOddsUnsigned()
    ensures FormatOdds(IntCell(0)) == "0"
  {
  }

  /** A negative integer prints as "-" and the digits of its magnitude. */
  lemma NegativeOddsPlain(n: int)
    requires n < 0
    ensures FormatOdds(IntCell(n)) == "-" + NatToDigits(-n)
  {
  }

  /** The sign character says whether the odds are positive or negative. */
  lemma FormatOddsSign(n: int)
    ensures FormatOdds(IntCell(n))[0] == '+' <==> n > 0
    ensures FormatOdds(IntCell(n))[0] == '-' <==> n < 0
  {
    if n == 0 {
      assert FormatOdds(IntCell(n)) == "0";
    }
  }

  /** The formatted odds read back as the same integer. */
  lemma FormatOddsRoundTrip(c: Cell, n: int)
    requires AsInt(c) == Some(n)
    ensures ParseInt(FormatOdds(c)) == Some(n)
  {
    if n > 0 {
      ParseIntSigned(n);
    } else {
      ParseIntToString(n);
    }
  }

  /** Odds stored as text format like the integer they spell. */
  lemma TextOddsFormatLikeInts(n: int)
    ensures FormatOdds(TextCell(IntToString(n))) == FormatOdds(IntCell(n))
  {
    ParseIntToString(n);
  }

  /** A float is truncated toward zero before formatting. */
  lemma FloatOddsTruncate(x: real)
    ensures FormatOdds(FloatCell(x)) == FormatOdds(IntCell(Trunc(x)))
  {
  }

  /** Text that is not an integer is unavailable. */
  lemma UnparseableTextIsUnavailable(s: string)
    requires ParseInt(s).None?
    ensures FormatOdds(TextCell(s)) == Unavailable
  {
  }

  /** A DataFrame row, by column name. */
  type Game = map<string, Cell>

  /** The date test applied to one row. */
  predicate OnDate(g: Game, date: string)
  {
    "date" in g && g["date"] == TextCell(date)
  }

  /** The date filter of a table: the rows on that date, in their original order. */
  function GamesOn(games: seq<Game>, date: string): (r: seq<Game>)
    ensures |r| <= |games|
    ensures forall g :: g in r <==> g in games && OnDate(g, date)
    decreases |games|
  {
    if games == [] then []
    else
      var rest := GamesOn(games[..|games| - 1], date);
      var last := games[|games| - 1];
      assert forall g :: g in games <==> g in games[..|games| - 1] || g == last;
      if OnDate(last, date) then rest + [last] else rest
  }

  /** Filtering preserves order: it distributes over concatenation. */
  lemma {:induction false} GamesOnAppend(a: seq<Game>, b: seq<Game>, date: string)
    ensures GamesOn(a + b, date) == GamesOn(a, date) + GamesOn(b, date)
    decreases |b|
  {
    if b == [] {
      assert a + b == a;
    } else {
      var init := b[..|b| - 1];
      assert (a + b)[..|a + b| - 1] == a + init;
      assert (a + b)[|a + b| - 1] == b[|b| - 1];
      GamesOnAppend(a, init, date);
    }
  }

  /** A single row is kept exactly when it is on the date. */
  lemma GamesOnSingle(g: Game, date: string)
    ensures GamesOn([g], date) == if OnDate(g, date) then [g] else []
  {
    assert [g][..0] == [];
  }

  const Today := "2025-07-25"
  const Tomorrow := "2025-07-26"

  /** The two tabs: today's games and tomorrow's games. No row is in both,
      and every row of either tab comes from the input. */
  function SplitByDay(games: seq<Game>): (tabs: (seq<Game>, seq<Game>))
    ensures forall g :: g in tabs.0 ==> g in games && OnDate(g, Today)
    ensures forall g :: g in tabs.1 ==> g in games && OnDate(g, Tomorrow)
    ensures forall g :: g in tabs.0 ==> g !in tabs.1
    ensures |tabs.0| + |tabs.1| <= |games|
  {
    SplitCountBound(games);
    (GamesOn(games, Today), GamesOn(games, Tomorrow))
  }

  /** The two tabs together never hold more rows than the input. */
  lemma {:induction false} SplitCountBound(games: seq<Game>)
    ensures |GamesOn(games, Today)| + |GamesOn(games, Tomorrow)| <= |games|
    decreases |games|
  {
    if games != [] {
      SplitCountBound(games[..|games| - 1]);
    }
  }
}
