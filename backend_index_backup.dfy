/**
 * The backup backend (`backend/index_backup.js`): the same search and ticket
 * endpoints as the main backend over a richer fixture of twenty issues, each
 * with a root cause.
 */
module BackendIndexBackup {
  import opened Wrappers
  import opened JsStrings
  import opened Seqs
  import opened Tickets
  import opened Jql

  const Jsd104: Issue := Issue("4", "JSD-104",
    "Increasing response time in API endpoints leading to timeouts",
    "Open", "2025-09-02T11:20:00.000Z",
    Some("Java application memory management failure"))

  const Jsd105: Issue := Issue("5", "JSD-105",
    "Batch jobs failing to complete before business hours",
    "In Progress", "2025-09-03T08:45:00.000Z",
    Some("Log volume exceeding disk capacity on servers"))

  const Jsd106: Issue := Issue("6", "JSD-106",
    "Unauthorized access attempt detected on admin portal",
    "High Priority", "2025-09-04T16:10:00.000Z",
    Some("Partial implementation of security updates"))

  const Jsd107: Issue := Issue("7", "JSD-107",
    "OutOfMemoryError causing database connection pool exhaustion",
    "Open", "2025-09-05T13:25:00.000Z",
    Some("Persistent memory leakage in Java services"))

  const Jsd108: Issue := Issue("8", "JSD-108",
    "Backup job failing due to insufficient disk space",
    "In Progress", "2025-09-02T22:30:00.000Z",
    Some("Server storage consumed by excessive logging"))

  const Jsd109: Issue := Issue("9", "JSD-109",
    "Vulnerability in login page allowing credential harvesting",
    "Critical", "2025-09-06T07:15:00.000Z",
    Some("Incomplete security patch deployment"))

  const Jsd110: Issue := Issue("10", "JSD-110",
    "Gradual performance degradation in user session management",
    "Open", "2025-09-03T15:40:00.000Z",
    Some("Memory allocation issues in Java codebase"))

  const Jsd111: Issue := Issue("11", "JSD-111",
    "Monitoring alerts not being sent due to log directory overflow",
    "Resolved", "2025-09-04T09:50:00.000Z",
    Some("Excessive log generation filling storage space"))

  const Jsd112: Issue := Issue("12", "JSD-112",
    "SSL certificate validation bypassed on API gateway",
    "In Progress", "2025-09-05T14:20:00.000Z",
    Some("Security updates not fully implemented"))

  const Jsd113: Issue := Issue("13", "JSD-113",
    "Heap dumps generated repeatedly causing service disruption",
    "Open", "2025-09-06T10:35:00.000Z",
    Some("Java runtime memory containment issues"))

  const Jsd114: Issue := Issue("14", "JSD-114",
    "Database queries timing out due to log file contention",
    "In Progress", "2025-09-07T12:15:00.000Z",
    Some("Disk saturation from logging activity"))

  const Jsd115: Issue := Issue("15", "JSD-115",
    "Cross-site scripting vulnerability in search functionality",
    "Open", "2025-09-01T17:45:00.000Z",
    Some("Unfinished security vulnerability remediation"))

  const Jsd116: Issue := Issue("16", "JSD-116",
    "Microservice containers restarting due to memory pressure",
    "In Progress", "2025-09-02T14:10:00.000Z",
    Some("Inefficient memory handling in Java components"))

  const Jsd117: Issue := Issue("17", "JSD-117",
    "Report generation failures due to disk space exhaustion",
    "Resolved", "2025-09-03T11:30:00.000Z",
    Some("Storage capacity overwhelmed by log files"))

  const Jsd118: Issue := Issue("18", "JSD-118",
    "Outdated authentication library allowing session hijacking",
    "Critical", "2025-09-04T16:25:00.000Z",
    Some("Gaps in security patch implementation"))

  const Jsd119: Issue := Issue("19", "JSD-119",
    "JVM long GC pauses causing transaction timeouts",
    "Open", "2025-09-05T09:40:00.000Z",
    Some("Memory leak patterns in Java application stack"))

  const Jsd120: Issue := Issue("20", "JSD-120",
    "Configuration backup process failing due to insufficient space",
    "In Progress", "2025-09-06T13:55:00.000Z",
    Some("Uncontrolled log growth consuming disk resources"))

  const Jsd121: Issue := Issue("21", "JSD-121",
    "SQL injection vulnerability in customer profile page",
    "Open", "2025-09-07T10:05:00.000Z",
    Some("Security patches applied incompletely"))

  const Jsd122: Issue := Issue("22", "JSD-122",
    "Application server failover triggered by repeated memory exhaustion",
    "Critical", "2025-09-08T08:30:00.000Z",
    Some("Java heap space memory leak"))

  const Jsd123: Issue := Issue("23", "JSD-123",
    "Alerting system overwhelmed by log volume spikes",
    "In Progress", "2025-09-01T15:20:00.000Z",
    Some("Excessive logging overwhelming server storage"))

  /** The mock issue database, JSD-104 to JSD-123, in fixture order. */
  const MockIssues: seq<Issue> := [
    Jsd104, Jsd105, Jsd106, Jsd107, Jsd108,
    Jsd109, Jsd110, Jsd111, Jsd112, Jsd113,
    Jsd114, Jsd115, Jsd116, Jsd117, Jsd118,
    Jsd119, Jsd120, Jsd121, Jsd122, Jsd123
  ]

  /**
   * Where each issue falls with respect to the window from "2025-09-06" to
   * "2025-09-07": inside exactly when it was created on 6 September.
   */
  lemma Window104(lo: string, hi: string)
    requires lo == "2025-09-06" && hi == "2025-09-07"
    ensures !InWindowOf(lo, hi)(Jsd104)
  {
    DayWindow(Jsd104.created, lo, hi);
  }

  lemma Window105(lo: string, hi: string)
    requires lo == "2025-09-06" && hi == "2025-09-07"
    ensures !InWindowOf(lo, hi)(Jsd105)
  {
    DayWindow(Jsd105.created, lo, hi);
  }

  lemma Window106(lo: string, hi: string)
    requires lo == "2025-09-06" && hi == "2025-09-07"
    ensures !InWindowOf(lo, hi)(Jsd106)
  {
    DayWindow(Jsd106.created, lo, hi);
  }

  lemma Window107(lo: string, hi: string)
    requires lo == "2025-09-06" && hi == "2025-09-07"
    ensures !InWindowOf(lo, hi)(Jsd107)
  {
    DayWindow(Jsd107.created, lo, hi);
  }

  lemma Window108(lo: string, hi: string)
    requires lo == "2025-09-06" && hi == "2025-09-07"
    ensures !InWindowOf(lo, hi)(Jsd108)
  {
    DayWindow(Jsd108.created, lo, hi);
  }

  lemma Window109(lo: string, hi: string)
    requires lo == "2025-09-06" && hi == "2025-09-07"
    ensures InWindowOf(lo, hi)(Jsd109)
  {
    DayWindow(Jsd109.created, lo, hi);
  }

  lemma Window110(lo: string, hi: string)
    requires lo == "2025-09-06" && hi == "2025-09-07"
    ensures !InWindowOf(lo, hi)(Jsd110)
  {
    DayWindow(Jsd110.created, lo, hi);
  }

  lemma Window111(lo: string, hi: string)
    requires lo == "2025-09-06" && hi == "2025-09-07"
    ensures !InWindowOf(lo, hi)(Jsd111)
  {
    DayWindow(Jsd111.created, lo, hi);
  }

  lemma Window112(lo: string, hi: string)
    requires lo == "2025-09-06" && hi == "2025-09-07"
    ensures !InWindowOf(lo, hi)(Jsd112)
  {
    DayWindow(Jsd112.created, lo, hi);
  }

  lemma Window113(lo: string, hi: string)
    requires lo == "2025-09-06" && hi == "2025-09-07"
    ensures InWindowOf(lo, hi)(Jsd113)
  {
    DayWindow(Jsd113.created, lo, hi);
  }

  lemma Window114(lo: string, hi: string)
    requires lo == "2025-09-06" && hi == "2025-09-07"
    ensures !InWindowOf(lo, hi)(Jsd114)
  {
    DayWindow(Jsd114.created, lo, hi);
  }

  lemma Window115(lo: string, hi: string)
    requires lo == "2025-09-06" && hi == "2025-09-07"
    ensures !InWindowOf(lo, hi)(Jsd115)
  {
    DayWindow(Jsd115.created, lo, hi);
  }

  lemma Window116(lo: string, hi: string)
    requires lo == "2025-09-06" && hi == "2025-09-07"
    ensures !InWindowOf(lo, hi)(Jsd116)
  {
    DayWindow(Jsd116.created, lo, hi);
  }

  lemma Window117(lo: string, hi: string)
    requires lo == "2025-09-06" && hi == "2025-09-07"
    ensures !InWindowOf(lo, hi)(Jsd117)
  {
    DayWindow(Jsd117.created, lo, hi);
  }

  lemma Window118(lo: string, hi: string)
    requires lo == "2025-09-06" && hi == "2025-09-07"
    ensures !InWindowOf(lo, hi)(Jsd118)
  {
    DayWindow(Jsd118.created, lo, hi);
  }

  lemma Window119(lo: string, hi: string)
    requires lo == "2025-09-06" && hi == "2025-09-07"
    ensures !InWindowOf(lo, hi)(Jsd119)
  {
    DayWindow(Jsd119.created, lo, hi);
  }

  lemma Window120(lo: string, hi: string)
    requires lo == "2025-09-06" && hi == "2025-09-07"
    ensures InWindowOf(lo, hi)(Jsd120)
  {
    DayWindow(Jsd120.created, lo, hi);
  }

  lemma Window121(lo: string, hi: string)
    requires lo == "2025-09-06" && hi == "2025-09-07"
    ensures !InWindowOf(lo, hi)(Jsd121)
  {
    DayWindow(Jsd121.created, lo, hi);
  }

  lemma Window122(lo: string, hi: string)
    requires lo == "2025-09-06" && hi == "2025-09-07"
    ensures !InWindowOf(lo, hi)(Jsd122)
  {
    DayWindow(Jsd122.created, lo, hi);
  }

  lemma Window123(lo: string, hi: string)
    requires lo == "2025-09-06" && hi == "2025-09-07"
    ensures !InWindowOf(lo, hi)(Jsd123)
  {
    DayWindow(Jsd123.created, lo, hi);
  }

  /**
   * A filter over twenty elements that accepts the elements at 5, 9 and 16
   * and rejects every other one.
   */
  lemma FilterFixtureShape(s: seq<Issue>, p: Issue -> bool)
    requires |s| == 20
    requires p(s[5]) && p(s[9]) && p(s[16])
    requires !p(s[0]) && !p(s[1]) && !p(s[2]) && !p(s[3]) && !p(s[4]) && !p(s[6])
    requires !p(s[7]) && !p(s[8]) && !p(s[10]) && !p(s[11]) && !p(s[12]) && !p(s[13])
    requires !p(s[14]) && !p(s[15]) && !p(s[17]) && !p(s[18]) && !p(s[19])
    ensures Filter(s, p) == [s[5], s[9], s[16]]
  {
    FilterThree(s, p, 5, 9, 16);
  }

  /** The window over positions 0 to 4 of the fixture. */
  lemma SixthChunk0(lo: string, hi: string)
    requires lo == "2025-09-06" && hi == "2025-09-07"
    ensures !InWindowOf(lo, hi)(MockIssues[0])
    ensures !InWindowOf(lo, hi)(MockIssues[1])
    ensures !InWindowOf(lo, hi)(MockIssues[2])
    ensures !InWindowOf(lo, hi)(MockIssues[3])
    ensures !InWindowOf(lo, hi)(MockIssues[4])
  {
    Window104(lo, hi); Window105(lo, hi); Window106(lo, hi); Window107(lo, hi); Window108(lo, hi);
  }

  /** The window over positions 5 to 9 of the fixture. */
  lemma SixthChunk1(lo: string, hi: string)
    requires lo == "2025-09-06" && hi == "2025-09-07"
    ensures InWindowOf(lo, hi)(MockIssues[5])
    ensures !InWindowOf(lo, hi)(MockIssues[6])
    ensures !InWindowOf(lo, hi)(MockIssues[7])
    ensures !InWindowOf(lo, hi)(MockIssues[8])
    ensures InWindowOf(lo, hi)(MockIssues[9])
  {
    Window109(lo, hi); Window110(lo, hi); Window111(lo, hi); Window112(lo, hi); Window113(lo, hi);
  }

  /** The window over positions 10 to 14 of the fixture. */
  lemma SixthChunk2(lo: string, hi: string)
    requires lo == "2025-09-06" && hi == "2025-09-07"
    ensures !InWindowOf(lo, hi)(MockIssues[10])
    ensures !InWindowOf(lo, hi)(MockIssues[11])
    ensures !InWindowOf(lo, hi)(MockIssues[12])
    ensures !InWindowOf(lo, hi)(MockIssues[13])
    ensures !InWindowOf(lo, hi)(MockIssues[14])
  {
    Window114(lo, hi); Window115(lo, hi); Window116(lo, hi); Window117(lo, hi); Window118(lo, hi);
  }

  /** The window over positions 15 to 19 of the fixture. */
  lemma SixthChunk3(lo: string, hi: string)
    requires lo == "2025-09-06" && hi == "2025-09-07"
    ensures !InWindowOf(lo, hi)(MockIssues[15])
    ensures InWindowOf(lo, hi)(MockIssues[16])
    ensures !InWindowOf(lo, hi)(MockIssues[17])
    ensures !InWindowOf(lo, hi)(MockIssues[18])
    ensures !InWindowOf(lo, hi)(MockIssues[19])
  {
    Window119(lo, hi); Window120(lo, hi); Window121(lo, hi); Window122(lo, hi); Window123(lo, hi);
  }

  /** The day-6 window applied to the whole fixture. */
  lemma SixthFilter(lo: string, hi: string)
    requires lo == "2025-09-06" && hi == "2025-09-07"
    ensures Filter(MockIssues, InWindowOf(lo, hi)) == [Jsd109, Jsd113, Jsd120]
  {
    SixthChunk0(lo, hi);
    SixthChunk1(lo, hi);
    SixthChunk2(lo, hi);
    SixthChunk3(lo, hi);
    FilterFixtureShape(MockIssues, InWindowOf(lo, hi));
  }

  /**
   * Asking for the tickets from "2025-09-06" to "2025-09-07" gives JSD-109,
   * JSD-113 and JSD-120, in fixture order: the issues of 6 September. The
   * issues of 7 September, JSD-114 and JSD-121, are outside, since a
   * timestamp sorts after the bare end date it begins with.
   */
  lemma SixthOfSeptember(startDate: string, endDate: string)
    requires startDate == "2025-09-06" && endDate == "2025-09-07"
    ensures TicketsForRange(MockIssues, startDate, endDate) == [Jsd109, Jsd113, Jsd120]
  {
    SixthFilter(startDate, endDate);
    assert !EndsWith(startDate, EndPattern[..11]);
    TicketsForRangeFilter(MockIssues, startDate, endDate);
  }
}
