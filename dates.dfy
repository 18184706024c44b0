/** Calendar dates and datetimes, abstracted to what the filters compare. */
module Dates {

  /** A calendar date as a day number (days since a fixed epoch): `date` objects
      compare exactly as their day numbers do. */
  type Date = int

  const MicrosecondsPerDay: nat := 86_400_000_000

  type TimeOfDay = t: nat | t < MicrosecondsPerDay

  /** A `datetime`: the calendar date plus the time of day in microseconds. */
  datatype Datetime = Datetime(day: Date, timeOfDay: TimeOfDay) {

    /** Python's `datetime.date()`: the time of day is dropped. */
    function DatePart(): Date
    {
      day
    }
  }
}
