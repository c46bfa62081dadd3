/** The period entity the dial displays (src/entities/TimePeriod/model/types.ts). */
module TimePeriod {

  /** One historical event: its year and its description. */
  datatype HistoricalEvent = HistoricalEvent(year: int, description: string)

  /** A labelled range of years with its events; never changed once loaded. */
  datatype Period = Period(
    id: string,
    yearFrom: int,
    yearTo: int,
    categoryLabel: string,   // `label` is a Dafny keyword
    events: seq<HistoricalEvent>)
}
