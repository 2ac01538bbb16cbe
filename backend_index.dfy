/**
 * The main mock backend (`backend/index.js`): the JQL search endpoint over a
 * fixture of three issues without root causes, and the ticket endpoint that
 * turns a date pair into a JQL query for it.
 */
module BackendIndex {
  import opened Wrappers
  import opened JsStrings
  import opened Seqs
  import opened Tickets
  import opened Jql

  const Jsd101: Issue := Issue("1", "JSD-101", "Mocked ticket 1", "Open", "2025-09-01T10:00:00.000Z", None)
  const Jsd102: Issue := Issue("2", "JSD-102", "Mocked ticket 2", "Closed", "2025-09-05T14:30:00.000Z", None)
  const Jsd103: Issue := Issue("3", "JSD-103", "Mocked ticket 3", "In Progress", "2025-09-07T09:15:00.000Z", None)

  /** The mock issue database, in fixture order. */
  const MockIssues: seq<Issue> := [Jsd101, Jsd102, Jsd103]

  /**
   * Where each issue falls with respect to the window from "2025-09-01" to
   * "2025-09-05": JSD-101 is inside; JSD-102, created on the end day after
   * midnight, sorts after the bare end date; JSD-103 is two days late.
   */
  lemma FirstWeekWindow(lo: string, hi: string)
    requires lo == "2025-09-01" && hi == "2025-09-05"
    ensures InWindowOf(lo, hi)(MockIssues[0])
    ensures !InWindowOf(lo, hi)(MockIssues[1])
    ensures !InWindowOf(lo, hi)(MockIssues[2])
  {
    DayWindow(Jsd101.created, lo, hi);
    DayWindow(Jsd102.created, lo, hi);
    DayWindow(Jsd103.created, lo, hi);
  }

  /**
   * Asking for the tickets from "2025-09-01" to "2025-09-05" gives exactly
   * JSD-101.
   */
  lemma FirstWeek(startDate: string, endDate: string)
    requires startDate == "2025-09-01" && endDate == "2025-09-05"
    ensures TicketsForRange(MockIssues, startDate, endDate) == [Jsd101]
  {
    FirstWeekWindow(startDate, endDate);
    FilterOne(MockIssues, InWindowOf(startDate, endDate), 0);
    assert !EndsWith(startDate, EndPattern[..11]);
    TicketsForRangeFilter(MockIssues, startDate, endDate);
  }
}
