/**
 * The period selector (components/DateRangeSelector.tsx): two date fields
 * whose change handlers keep the pair in order and report every new pair to
 * the owner through `onDateRangeChange`. The report is the handler's result.
 */
module DateRangeSelector {
  import opened Lex
  import opened DateRange

  class DateRangeSelector {
    var start: string
    var end: string

    function Current(): Range
      reads this
    {
      Range(start, end)
    }

    constructor (startDate: string, endDate: string)
      ensures start == startDate && end == endDate
    {
      start := startDate;
      end := endDate;
    }

    /** The start field changed; returns the pair passed to `onDateRangeChange`. */
    method HandleStartDateChange(newStartDate: string) returns (reported: Range)
      modifies this
      ensures Current() == WithStart(old(Current()), newStartDate)
      ensures Less(old(end), newStartDate) ==> end == newStartDate
      ensures !Less(old(end), newStartDate) ==> end == old(end)
      ensures reported == Current() && Ordered(reported)
    {
      start := newStartDate;
      if Less(end, newStartDate) {
        end := newStartDate;
        reported := Range(newStartDate, newStartDate);
      } else {
        reported := Range(newStartDate, end);
      }
    }

    /** The end field changed; returns the pair passed to `onDateRangeChange`. */
    method HandleEndDateChange(newEndDate: string) returns (reported: Range)
      modifies this
      ensures Current() == WithEnd(old(Current()), newEndDate)
      ensures Less(newEndDate, old(start)) ==> start == newEndDate
      ensures !Less(newEndDate, old(start)) ==> start == old(start)
      ensures reported == Current() && Ordered(reported)
    {
      end := newEndDate;
      if Less(newEndDate, start) {
        start := newEndDate;
        reported := Range(newEndDate, newEndDate);
      } else {
        reported := Range(start, newEndDate);
      }
    }
  }
}
