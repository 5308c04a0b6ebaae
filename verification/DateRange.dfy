/**
 * The start/end date pair that the period selector and the export form
 * keep. Setting one end of the range drags the other along when the new
 * value would cross it, so the stored pair is always in order.
 */
module DateRange {
  import opened Lex

  datatype Range = Range(start: string, end: string)

  predicate Ordered(r: Range)
  {
    LessEq(r.start, r.end)
  }

  /** The range after the start is set to `newStart`: if it is after the end (`newStart > end`), the end moves to it. */
  function WithStart(r: Range, newStart: string): (r': Range)
    ensures r'.start == newStart
    ensures Ordered(r')
  {
    LessIrreflexive(newStart);
    LessAsymmetric(r.end, newStart);
    LessTrichotomy(r.end, newStart);
    if Less(r.end, newStart) then Range(newStart, newStart) else Range(newStart, r.end)
  }

  /** The range after the end is set to `newEnd`: if it is before the start (`newEnd < start`), the start moves to it. */
  function WithEnd(r: Range, newEnd: string): (r': Range)
    ensures r'.end == newEnd
    ensures Ordered(r')
  {
    LessIrreflexive(newEnd);
    LessAsymmetric(newEnd, r.start);
    LessTrichotomy(newEnd, r.start);
    if Less(newEnd, r.start) then Range(newEnd, newEnd) else Range(r.start, newEnd)
  }

  /** The end changes exactly when the new start is after it. */
  lemma {:induction false} WithStartMovesEndIffCrossed(r: Range, newStart: string)
    ensures WithStart(r, newStart).end != r.end <==> Less(r.end, newStart)
  {
    LessIrreflexive(newStart);
  }

  /** The start changes exactly when the new end is before it. */
  lemma {:induction false} WithEndMovesStartIffCrossed(r: Range, newEnd: string)
    ensures WithEnd(r, newEnd).start != r.start <==> Less(newEnd, r.start)
  {
    LessIrreflexive(newEnd);
  }
}
