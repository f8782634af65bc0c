/**
 * The admin dashboard: the time left until a post's deadline, the user and
 * post search, the reported-post count and the statistics fallback.
 */
module AdminPage {
  import opened Wrappers
  import Strings
  import Seqs

  const MinuteMs := 60000
  const HourMs := 3600000
  const DayMs := 86400000

  /** The branch `getTimeUntilDeadline` takes, with the whole units it shows. */
  datatype Remaining = Expired | Days(days: nat) | Hours(hours: nat) | Minutes(minutes: nat)

  /**
   * The time left for a millisecond difference `diff` between the deadline
   * and now: expired when not positive, else whole days if there is at least
   * one, else whole hours if at least one, else whole minutes (floored).
   */
  function RemainingTime(diff: int): (r: Remaining)
    ensures r.Expired? <==> diff <= 0
    ensures r.Days? <==> diff >= DayMs
    ensures r.Hours? <==> HourMs <= diff < DayMs
    ensures r.Minutes? <==> 0 < diff < HourMs
    ensures r.Days? ==> r.days >= 1 && r.days * DayMs <= diff < (r.days + 1) * DayMs
    ensures r.Hours? ==> 1 <= r.hours <= 23 && r.hours * HourMs <= diff < (r.hours + 1) * HourMs
    ensures r.Minutes? ==> 0 <= r.minutes <= 59 && r.minutes * MinuteMs <= diff < (r.minutes + 1) * MinuteMs
  {
    if diff <= 0 then Expired
    else if diff / DayMs > 0 then Days(diff / DayMs)
    else if diff / HourMs > 0 then Hours(diff / HourMs)
    else Minutes(diff / MinuteMs)
  }

  /** The `{ isExpired, timeText }` pair shown on a post row. */
  datatype Deadline = Deadline(isExpired: bool, timeText: string)

  const ExpiredText := "마감됨"

  function DeadlineText(r: Remaining): (d: Deadline)
    ensures d.isExpired <==> r.Expired?
    ensures r.Expired? ==> d.timeText == ExpiredText
    ensures r.Days? ==> d.timeText == Strings.NatToString(r.days) + "일 남음"
    ensures r.Hours? ==> d.timeText == Strings.NatToString(r.hours) + "시간 남음"
    ensures r.Minutes? ==> d.timeText == Strings.NatToString(r.minutes) + "분 남음"
  {
    match r
    case Expired => Deadline(true, ExpiredText)
    case Days(n) => Deadline(false, Strings.NatToString(n) + "일 남음")
    case Hours(n) => Deadline(false, Strings.NatToString(n) + "시간 남음")
    case Minutes(n) => Deadline(false, Strings.NatToString(n) + "분 남음")
  }

  /** `getTimeUntilDeadline`, given the millisecond difference. */
  function TimeUntilDeadline(diff: int): (d: Deadline)
    ensures d.isExpired <==> diff <= 0
    ensures d == DeadlineText(RemainingTime(diff))
  {
    DeadlineText(RemainingTime(diff))
  }

  /** Less time left never shows more: the branch order follows the size of `diff`. */
  lemma RemainingMonotone(a: int, b: int)
    requires a <= b
    ensures RemainingTime(a).Days? ==> RemainingTime(b).Days? && RemainingTime(a).days <= RemainingTime(b).days
    ensures RemainingTime(b).Expired? ==> RemainingTime(a).Expired?
    ensures RemainingTime(b).Minutes? ==> RemainingTime(a).Expired? || RemainingTime(a).Minutes?
  {
    var ra := RemainingTime(a);
    var rb := RemainingTime(b);
    if ra.Days? {
      assert ra.days * DayMs <= b < (rb.days + 1) * DayMs;
    }
  }

  datatype User = User(id: int, name: string, email: string, reportCount: int)
  datatype AdminPost = AdminPost(id: int, title: string, author: string, reportCount: int)

  predicate UserMatches(u: User, term: string) {
    Strings.Contains(Strings.Lower(u.name), Strings.Lower(term))
      || Strings.Contains(Strings.Lower(u.email), Strings.Lower(term))
  }

  predicate PostMatches(p: AdminPost, term: string) {
    Strings.Contains(Strings.Lower(p.title), Strings.Lower(term))
      || Strings.Contains(Strings.Lower(p.author), Strings.Lower(term))
  }

  /** The test `u => UserMatches(u, term)`. */
  function UserTest(term: string): User -> bool {
    (u: User) => UserMatches(u, term)
  }

  /** The test `p => PostMatches(p, term)`. */
  function PostTest(term: string): AdminPost -> bool {
    (p: AdminPost) => PostMatches(p, term)
  }

  /** `filteredUsers`: name or email contains the search text, ignoring ASCII case; order and copies kept. */
  function FilteredUsers(users: seq<User>, term: string): (r: seq<User>)
    ensures forall i :: 0 <= i < |r| ==> r[i] in users && UserMatches(r[i], term)
    ensures forall i :: 0 <= i < |users| && UserMatches(users[i], term) ==> users[i] in r
    ensures Seqs.IsSubsequence(r, users)
    ensures Seqs.KeepsCounts(r, users, UserTest(term))
  {
    Seqs.FilterIsSubsequence(users, UserTest(term));
    Seqs.FilterCounts(users, UserTest(term));
    Seqs.Filter(users, UserTest(term))
  }

  /** `filteredPosts`: title or author contains the search text, ignoring ASCII case; order and copies kept. */
  function FilteredPosts(posts: seq<AdminPost>, term: string): (r: seq<AdminPost>)
    ensures forall i :: 0 <= i < |r| ==> r[i] in posts && PostMatches(r[i], term)
    ensures forall i :: 0 <= i < |posts| && PostMatches(posts[i], term) ==> posts[i] in r
    ensures Seqs.IsSubsequence(r, posts)
    ensures Seqs.KeepsCounts(r, posts, PostTest(term))
  {
    Seqs.FilterIsSubsequence(posts, PostTest(term));
    Seqs.FilterCounts(posts, PostTest(term));
    Seqs.Filter(posts, PostTest(term))
  }

  /** An empty search lists everyone and everything. */
  lemma EmptySearchKeepsAll(users: seq<User>, posts: seq<AdminPost>)
    ensures FilteredUsers(users, "") == users
    ensures FilteredPosts(posts, "") == posts
  {
    assert Strings.Lower("") == "";
    forall i | 0 <= i < |users| ensures UserMatches(users[i], "") {
      Strings.ContainsEmpty(Strings.Lower(users[i].name));
    }
    forall i | 0 <= i < |posts| ensures PostMatches(posts[i], "") {
      Strings.ContainsEmpty(Strings.Lower(posts[i].title));
    }
    Seqs.FilterKeepsAll(users, UserTest(""));
    Seqs.FilterKeepsAll(posts, PostTest(""));
  }

  predicate IsReported(p: AdminPost) {
    p.reportCount > 0
  }

  /** The "reported posts" tile: how many posts have at least one report. */
  function ReportedCount(posts: seq<AdminPost>): (n: nat)
    ensures n <= |posts|
    ensures n == 0 <==> forall i :: 0 <= i < |posts| ==> !IsReported(posts[i])
    ensures n == |posts| <==> forall i :: 0 <= i < |posts| ==> IsReported(posts[i])
  {
    Seqs.CountBounds(posts, IsReported);
    Seqs.Count(posts, IsReported)
  }

  /** The dashboard totals; the fallback object leaves two of them undefined. */
  datatype AdminStats = AdminStats(
    totalUsers: int,
    totalPosts: int,
    activePosts: int,
    completedPosts: Option<int>,
    totalRevenue: Option<int>,
    monthlyGrowth: int)

  /** `safeAdminStats`: the fetched totals, or zero for the four the fallback defines. */
  function SafeStats(stats: Option<AdminStats>): (s: AdminStats)
    ensures stats.Some? ==> s == stats.value
    ensures stats.None? ==> s.totalUsers == 0 && s.totalPosts == 0 && s.activePosts == 0 && s.monthlyGrowth == 0
    ensures stats.None? ==> s.completedPosts.None? && s.totalRevenue.None?
  {
    stats.GetOr(AdminStats(0, 0, 0, None, None, 0))
  }
}
