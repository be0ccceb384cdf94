/**
 * The calendar date a workout is created on, as the description reads it:
 * `date.getMonth()` indexes a fixed table of English month names and
 * `date.getDate()` is the day of the month.
 */
module Calendar {

  /** The twelve-entry `months` table of `_setDescription`. */
  const MonthNames: seq<string> :=
    ["January", "February", "March", "April", "May", "June",
     "July", "August", "September", "October", "November", "December"]

  /** What `Date.prototype.getMonth` returns. */
  type MonthIndex = m: int | 0 <= m < 12

  /** What `Date.prototype.getDate` returns. */
  type DayOfMonth = d: int | 1 <= d <= 31 witness 1

  /** The part of the creation `Date` that the description depends on. */
  datatype CalendarDate = CalendarDate(month: MonthIndex, day: DayOfMonth)

  /** `months[m]`: a non-empty name. */
  function MonthName(m: MonthIndex): (name: string)
    ensures |name| > 0
  {
    MonthNames[m]
  }

  /** Every month name is made only of letters. */
  lemma MonthNameLetters(m: MonthIndex)
    ensures forall i :: 0 <= i < |MonthName(m)| ==> ('A' <= MonthName(m)[i] <= 'Z' || 'a' <= MonthName(m)[i] <= 'z')
  {
  }

  /** The inverse of the month table: the index of a month name, if it is one. */
  function MonthNumber(name: string): (m: int)
    ensures -1 <= m < 12
    ensures 0 <= m ==> MonthName(m) == name
  {
    if name == "January" then 0
    else if name == "February" then 1
    else if name == "March" then 2
    else if name == "April" then 3
    else if name == "May" then 4
    else if name == "June" then 5
    else if name == "July" then 6
    else if name == "August" then 7
    else if name == "September" then 8
    else if name == "October" then 9
    else if name == "November" then 10
    else if name == "December" then 11
    else -1
  }

  /** Every month name reads back as its own index. */
  lemma MonthNumberOfName(m: MonthIndex)
    ensures MonthNumber(MonthName(m)) == m
  {
  }

  /** No two months share a name. */
  lemma MonthNameInjective(a: MonthIndex, b: MonthIndex)
    requires MonthName(a) == MonthName(b)
    ensures a == b
  {
    MonthNumberOfName(a);
    MonthNumberOfName(b);
  }
}
