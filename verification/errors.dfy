/** The conditions that abort an operation of the trading environment. */
module Errors {

  datatype Error =
    | InvalidDateRange                  // the end date precedes the start date
    | NoInstruments                     // the instrument list is empty, so there is no reference series
    | PriceUnavailable(day: int)        // an instrument has no quote for the current date
    | CalendarSearchExhausted(day: int) // no listed date within the calendar search's limit
}
