/** The stand-in stats provider: a platform-shaped snapshot with random fields for the
    two platforms it knows, and a generic "Connected" record for any other name. */
module Simulator {
  import opened Schema
  import Text

  /** Which branch of the switch on the lower-cased platform name applies. */
  datatype Kind = LeetCodeKind | GitHubKind | OtherKind

  function KindOf(platform: string): (k: Kind)
    ensures k == LeetCodeKind <==> Text.ToLower(platform) == "leetcode"
    ensures k == GitHubKind <==> Text.ToLower(platform) == "github"
    ensures k == OtherKind <==> Text.ToLower(platform) != "leetcode" && Text.ToLower(platform) != "github"
  {
    var lower := Text.ToLower(platform);
    if lower == "leetcode" then LeetCodeKind
    else if lower == "github" then GitHubKind
    else OtherKind
  }

  predicate Between(x: int, lo: int, hi: int)
  {
    lo <= x <= hi
  }

  /** `s` is a snapshot the simulator may produce for `platform` when its clock reads
      `checkTime`: the documented inclusive range for every field of a known platform,
      and the generic record stamped `checkTime` for any other name. */
  predicate Plausible(platform: string, s: Stats, checkTime: Timestamp)
  {
    match KindOf(platform)
    case LeetCodeKind =>
      && s.LeetCode?
      && Between(s.ranking, 10000, 500000)
      && Between(s.solved.easy, 10, 50)
      && Between(s.solved.medium, 5, 30)
      && Between(s.solved.hard, 0, 5)
      && Between(s.contestRating, 1400, 1800)
    case GitHubKind =>
      && s.GitHub?
      && Between(s.followers, 0, 100)
      && Between(s.publicRepos, 5, 50)
      && Between(s.totalCommits, 10, 1000)
      && Between(s.streak, 0, 14)
    case OtherKind =>
      s == Generic("Connected", checkTime)
  }

  /** `random(min, max)`: some integer from `min` to `max`, both included. */
  method Random(min: int, max: int) returns (r: int)
    requires min <= max
    ensures min <= r <= max
  {
    r :| min <= r <= max;
  }

  /** `simulateFetchStats(platform, username)`; `checkTime` is the simulator's own clock
      reading, taken for `lastCheck`. The username is not consulted. */
  method SimulateFetchStats(platform: string, username: string, checkTime: Timestamp) returns (s: Stats)
    ensures Plausible(platform, s, checkTime)
    ensures s != Empty
  {
    match KindOf(platform)
    case LeetCodeKind =>
      var ranking := Random(10000, 500000);
      var easy := Random(10, 50);
      var medium := Random(5, 30);
      var hard := Random(0, 5);
      var rating := Random(1400, 1800);
      s := LeetCode(ranking, Solved(easy, medium, hard), rating);
    case GitHubKind =>
      var followers := Random(0, 100);
      var repos := Random(5, 50);
      var commits := Random(10, 1000);
      var streak := Random(0, 14);
      s := GitHub(followers, repos, commits, streak);
    case OtherKind =>
      s := Generic("Connected", checkTime);
  }

  /** The name is matched without regard to case: names that differ only in the case
      of their letters get snapshots of the same shape and ranges. */
  lemma {:induction false} CaseInsensitive(a: string, b: string, s: Stats, checkTime: Timestamp)
    requires |a| == |b|
    requires forall i :: 0 <= i < |a| ==> Text.LowerChar(a[i]) == Text.LowerChar(b[i])
    ensures Plausible(a, s, checkTime) <==> Plausible(b, s, checkTime)
  {
    assert Text.ToLower(a) == Text.ToLower(b);
  }

  /** Some spellings as the client sends them and as users may type them. */
  lemma KnownSpellings()
    ensures KindOf("github") == GitHubKind && KindOf("GitHub") == GitHubKind
    ensures KindOf("leetcode") == LeetCodeKind && KindOf("LeetCode") == LeetCodeKind
    ensures KindOf("wakatime") == OtherKind
  {
    assert Text.ToLower("GitHub") == "github";
    assert Text.ToLower("LeetCode") == "leetcode";
    assert Text.ToLower("github") == "github";
    assert Text.ToLower("leetcode") == "leetcode";
    assert Text.ToLower("wakatime")[0] == 'w';
  }
}
