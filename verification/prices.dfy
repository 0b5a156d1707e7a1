/**
 * Historical quotes. Each instrument's series is a table from day ordinal to
 * the opening and closing price of that day; a date absent from the table is
 * a day without trading, not a price of zero.
 */
module Prices {
  import opened Wrappers
  import opened Errors
  import opened Calendar

  datatype Quote = Quote(open: real, close: real)

  type PriceTable = map<int, Quote>

  function Quoted(q: Quote, s: Session): real
  {
    match s
    case Open => q.open
    case Close => q.close
  }

  /**
   * The prices of all instruments at a tick, in declaration order: each
   * instrument's quote for the tick's date and session. The lookup fails,
   * naming the date, as soon as one instrument has no row for that date.
   */
  function PricesAt(tables: seq<PriceTable>, start: int, tick: int): (r: Result<seq<real>, Error>)
    ensures r.Success? <==> forall i :: 0 <= i < |tables| ==> DayOf(start, tick) in tables[i]
    ensures r.Failure? ==> r.error == PriceUnavailable(DayOf(start, tick))
    ensures r.Success? ==> |r.value| == |tables|
    ensures r.Success? ==> forall i :: 0 <= i < |tables| ==>
      r.value[i] == Quoted(tables[i][DayOf(start, tick)], SessionOf(tick))
  {
    var day := DayOf(start, tick);
    if forall i :: 0 <= i < |tables| ==> day in tables[i]
    then Success(seq(|tables|, i requires 0 <= i < |tables| && day in tables[i] => Quoted(tables[i][day], SessionOf(tick))))
    else Failure(PriceUnavailable(day))
  }

  /**
   * The calendar search consults only the first instrument's dates. When
   * every other instrument lists at least those dates, a successful advance
   * always lands on a tick where every price is available.
   */
  lemma AdvanceFindsPrices(tables: seq<PriceTable>, start: int, tick: int)
    requires |tables| >= 1
    requires forall i :: 0 <= i < |tables| ==> tables[0].Keys <= tables[i].Keys
    requires Advance(tables[0].Keys, start, tick).Success?
    ensures PricesAt(tables, start, Advance(tables[0].Keys, start, tick).value).Success?
  {
  }
}
