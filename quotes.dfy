/**
 * The values exchanged between the mock price provider and the pages.
 *
 * A quoted price is a decimal with two fractional digits (the provider
 * formats it with `toFixed(2)` and the page reads it back with
 * `parseFloat`); it is held here as an integer number of hundredths.
 */
module Quotes {

  /** One instrument's quote: display name, price in hundredths, unit. */
  datatype Quote = Quote(name: string, price: int, unit: string)

  /**
   * A snapshot of current prices. The four instrument keys are the four
   * fields of the record, so a snapshot can never be partially populated.
   */
  datatype Snapshot = Snapshot(au9999: Quote, au999: Quote, au100: Quote, international: Quote)

  datatype Direction = Up | Down

  /** A trend indicator: direction, change in hundredths of a percent, sign glyph. */
  datatype Trend = Trend(trend: Direction, change: int, direction: string)

  /** A week of mock history: day labels and prices (hundredths), oldest first. */
  datatype Historical = Historical(dates: seq<string>, prices: seq<int>)
}
