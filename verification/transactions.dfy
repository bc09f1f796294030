/** The transaction record both statement parsers produce. */
module Transactions {

  import opened Calendar

  datatype Direction = Debit | Credit

  /** One parsed statement line. The parsers leave `category` empty and `tags` empty;
      the date is kept as a calendar day (its ISO-string form is not modelled). */
  datatype Transaction = Transaction(
    date: CalendarDate,
    description: string,
    amount: real,
    kind: Direction,
    category: string,
    tags: seq<string>)

  /** The parsers' fallback description. */
  const DefaultDescription: string := "Bank Transaction"
}
