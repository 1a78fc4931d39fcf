/** The statistics counters (StatsManager.swift): games played and won,
    streaks, best time, cumulative Vegas earnings, wins per day and the
    achievement set, as a record with pure update functions. The current
    date is a parameter; persistence and the timed clearing of the
    "newly unlocked" banner are left out. */
module Statistics {
  import opened Cards

  datatype Achievement =
    | SpeedDemon | LightningRound | Perfectionist | NoHintsNeeded | StreakMaster
    | Unstoppable | CenturyClub | CardShark | HighRoller | ButlersChoice

  /** `bestTime` 0 means no best time yet; `lastWinDate` is a "yyyy-MM-dd" string or empty. */
  datatype Stats = Stats(
    gamesPlayed: int,
    gamesWon: int,
    bestTime: int,
    currentStreak: int,
    longestStreak: int,
    vegasCumulative: int,
    unlocked: set<Achievement>,
    newlyUnlocked: Option<Achievement>,
    winsToday: int,
    lastWinDate: string)

  /** What the counters always satisfy when they only change through the
      operations below. */
  predicate Consistent(s: Stats) {
    && 0 <= s.gamesWon <= s.gamesPlayed
    && 0 <= s.currentStreak <= s.longestStreak <= s.gamesWon
    && s.bestTime >= 0
    && s.winsToday >= 0
  }

  // ---------------------------------------------------------------------
  // Achievements

  /** `unlock`: add the achievement and announce it, unless it is already held. */
  function Unlock(s: Stats, a: Achievement): (r: Stats)
    ensures r.unlocked == s.unlocked + {a}
    ensures a in s.unlocked ==> r == s
    ensures a !in s.unlocked ==> r.newlyUnlocked == Some(a)
    ensures r == s.(unlocked := r.unlocked, newlyUnlocked := r.newlyUnlocked)
  {
    if a in s.unlocked then s
    else s.(unlocked := s.unlocked + {a}, newlyUnlocked := Some(a))
  }

  /** Unlocking twice is unlocking once. */
  lemma UnlockIdempotent(s: Stats, a: Achievement)
    ensures Unlock(Unlock(s, a), a) == Unlock(s, a)
  {
  }

  /** Each achievement's threshold, read off the counters after the win. */
  predicate Qualifies(a: Achievement, s: Stats, time: int, undoCount: int, hintCount: int) {
    match a
    case LightningRound => time < 60
    case SpeedDemon => time < 120
    case Perfectionist => undoCount == 0
    case NoHintsNeeded => hintCount == 0
    case StreakMaster => s.currentStreak >= 5
    case Unstoppable => s.currentStreak >= 10
    case CenturyClub => s.gamesPlayed >= 100
    case CardShark => s.gamesWon >= 50
    case HighRoller => s.vegasCumulative >= 1000
    case ButlersChoice => s.winsToday >= 10
  }

  /** The achievements a win earns. */
  ghost function Earned(s: Stats, time: int, undoCount: int, hintCount: int): set<Achievement> {
    set a: Achievement | Qualifies(a, s, time, undoCount, hintCount)
  }

  function UnlockIf(s: Stats, cond: bool, a: Achievement): (r: Stats)
    ensures r.unlocked == if cond then s.unlocked + {a} else s.unlocked
    ensures r == s.(unlocked := r.unlocked, newlyUnlocked := r.newlyUnlocked)
    ensures r.newlyUnlocked == s.newlyUnlocked || (cond && a !in s.unlocked && r.newlyUnlocked == Some(a))
    ensures cond && a !in s.unlocked ==> r.newlyUnlocked == Some(a)
  {
    if cond then Unlock(s, a) else s
  }

  /** The order in which `checkAchievements` tests the thresholds. */
  function CheckOrder(): seq<Achievement> {
    [LightningRound, SpeedDemon, Perfectionist, NoHintsNeeded, StreakMaster,
     Unstoppable, CenturyClub, CardShark, HighRoller, ButlersChoice]
  }

  lemma CheckOrderComplete(a: Achievement)
    ensures a in CheckOrder()
  {
    var order := CheckOrder();
    match a {
      case LightningRound => assert order[0] == a;
      case SpeedDemon => assert order[1] == a;
      case Perfectionist => assert order[2] == a;
      case NoHintsNeeded => assert order[3] == a;
      case StreakMaster => assert order[4] == a;
      case Unstoppable => assert order[5] == a;
      case CenturyClub => assert order[6] == a;
      case CardShark => assert order[7] == a;
      case HighRoller => assert order[8] == a;
      case ButlersChoice => assert order[9] == a;
    }
  }

  /** Test the thresholds of `order` one after another, unlocking each that is met. */
  function UnlockEach(s: Stats, order: seq<Achievement>, time: int, undoCount: int, hintCount: int): (r: Stats)
    ensures r.unlocked == s.unlocked + (set a | a in order && Qualifies(a, s, time, undoCount, hintCount))
    ensures r == s.(unlocked := r.unlocked, newlyUnlocked := r.newlyUnlocked)
    ensures r.newlyUnlocked == s.newlyUnlocked
            || (r.newlyUnlocked.Some? && r.newlyUnlocked.value in order
                && Qualifies(r.newlyUnlocked.value, s, time, undoCount, hintCount)
                && r.newlyUnlocked.value !in s.unlocked)
    decreases |order|
  {
    if |order| == 0 then s
    else
      var s1 := UnlockIf(s, Qualifies(order[0], s, time, undoCount, hintCount), order[0]);
      assert forall a :: Qualifies(a, s1, time, undoCount, hintCount) == Qualifies(a, s, time, undoCount, hintCount);
      var r := UnlockEach(s1, order[1..], time, undoCount, hintCount);
      assert forall a :: a in order <==> a == order[0] || a in order[1..];
      r
  }

  /** An achievement the win earns that was not held before. */
  predicate Fresh(a: Achievement, s: Stats, time: int, undoCount: int, hintCount: int) {
    Qualifies(a, s, time, undoCount, hintCount) && a !in s.unlocked
  }

  predicate Distinct(order: seq<Achievement>) {
    forall i, j :: 0 <= i < j < |order| ==> order[i] != order[j]
  }

  /** The banner after testing `order`: unchanged when nothing in it was
      new, otherwise the last new achievement in `order`. */
  lemma {:induction false} UnlockEachBanner(s: Stats, order: seq<Achievement>, time: int, undoCount: int, hintCount: int)
    requires Distinct(order)
    ensures (forall i :: 0 <= i < |order| ==> !Fresh(order[i], s, time, undoCount, hintCount)) ==>
              UnlockEach(s, order, time, undoCount, hintCount).newlyUnlocked == s.newlyUnlocked
    ensures forall k :: 0 <= k < |order| && Fresh(order[k], s, time, undoCount, hintCount)
                        && (forall j :: k < j < |order| ==> !Fresh(order[j], s, time, undoCount, hintCount)) ==>
              UnlockEach(s, order, time, undoCount, hintCount).newlyUnlocked == Some(order[k])
    decreases |order|
  {
    if |order| > 0 {
      var a := order[0];
      var s1 := UnlockIf(s, Qualifies(a, s, time, undoCount, hintCount), a);
      var rest := order[1..];
      assert Distinct(rest);
      UnlockEachBanner(s1, rest, time, undoCount, hintCount);
      assert UnlockEach(s, order, time, undoCount, hintCount) == UnlockEach(s1, rest, time, undoCount, hintCount);
      forall j | 0 <= j < |rest|
        ensures Fresh(rest[j], s1, time, undoCount, hintCount) == Fresh(rest[j], s, time, undoCount, hintCount)
      {
        assert rest[j] == order[j + 1] && order[j + 1] != a;
        assert Qualifies(rest[j], s1, time, undoCount, hintCount) == Qualifies(rest[j], s, time, undoCount, hintCount);
      }
      forall k | 0 <= k < |order| && Fresh(order[k], s, time, undoCount, hintCount)
                 && (forall j :: k < j < |order| ==> !Fresh(order[j], s, time, undoCount, hintCount))
        ensures UnlockEach(s, order, time, undoCount, hintCount).newlyUnlocked == Some(order[k])
      {
        if k > 0 {
          assert rest[k - 1] == order[k];
          assert forall j :: k - 1 < j < |rest| ==> rest[j] == order[j + 1];
        } else {
          assert forall j :: 0 <= j < |rest| ==> rest[j] == order[j + 1];
        }
      }
    }
  }

  /** The order of the checks, read as a position. */
  function Position(a: Achievement): (i: nat)
    ensures i < |CheckOrder()| && CheckOrder()[i] == a
  {
    match a
    case LightningRound => 0
    case SpeedDemon => 1
    case Perfectionist => 2
    case NoHintsNeeded => 3
    case StreakMaster => 4
    case Unstoppable => 5
    case CenturyClub => 6
    case CardShark => 7
    case HighRoller => 8
    case ButlersChoice => 9
  }

  lemma CheckOrderDistinct()
    ensures Distinct(CheckOrder())
  {
    var order := CheckOrder();
    forall i, j | 0 <= i < j < |order|
      ensures order[i] != order[j]
    {
      assert Position(order[i]) == i && Position(order[j]) == j;
    }
  }

  /** `checkAchievements`: the ten threshold checks in check order.
      Every earned achievement ends up held, nothing else is added, and the
      banner shows one that was new, if any was. */
  function CheckAchievements(s: Stats, time: int, undoCount: int, hintCount: int): (r: Stats)
    ensures r.unlocked == s.unlocked + Earned(s, time, undoCount, hintCount)
    ensures r == s.(unlocked := r.unlocked, newlyUnlocked := r.newlyUnlocked)
    ensures r.newlyUnlocked == s.newlyUnlocked
            || (r.newlyUnlocked.Some? && r.newlyUnlocked.value in Earned(s, time, undoCount, hintCount) - s.unlocked)
    ensures (forall i :: 0 <= i < |CheckOrder()| ==> !Fresh(CheckOrder()[i], s, time, undoCount, hintCount)) ==>
              r.newlyUnlocked == s.newlyUnlocked
    ensures forall k :: && 0 <= k < |CheckOrder()| && Fresh(CheckOrder()[k], s, time, undoCount, hintCount)
                        && (forall j :: k < j < |CheckOrder()| ==> !Fresh(CheckOrder()[j], s, time, undoCount, hintCount)) ==>
              r.newlyUnlocked == Some(CheckOrder()[k])
  {
    EarnedInOrder(s, time, undoCount, hintCount);
    CheckOrderBanner(s, time, undoCount, hintCount);
    UnlockEach(s, CheckOrder(), time, undoCount, hintCount)
  }

  /** `UnlockEachBanner` for the check order, whose entries are distinct. */
  lemma CheckOrderBanner(s: Stats, time: int, undoCount: int, hintCount: int)
    ensures (forall i :: 0 <= i < |CheckOrder()| ==> !Fresh(CheckOrder()[i], s, time, undoCount, hintCount)) ==>
              UnlockEach(s, CheckOrder(), time, undoCount, hintCount).newlyUnlocked == s.newlyUnlocked
    ensures forall k :: && 0 <= k < |CheckOrder()| && Fresh(CheckOrder()[k], s, time, undoCount, hintCount)
                        && (forall j :: k < j < |CheckOrder()| ==> !Fresh(CheckOrder()[j], s, time, undoCount, hintCount)) ==>
              UnlockEach(s, CheckOrder(), time, undoCount, hintCount).newlyUnlocked == Some(CheckOrder()[k])
  {
    CheckOrderDistinct();
    UnlockEachBanner(s, CheckOrder(), time, undoCount, hintCount);
  }

  lemma EarnedInOrder(s: Stats, time: int, undoCount: int, hintCount: int)
    ensures (set a | a in CheckOrder() && Qualifies(a, s, time, undoCount, hintCount))
            == Earned(s, time, undoCount, hintCount)
  {
    forall a: Achievement {
      CheckOrderComplete(a);
    }
  }

  // ---------------------------------------------------------------------
  // Game end

  /** The counters `recordWin` updates before it checks the achievements. */
  function TallyWin(s: Stats, time: int, vegasScore: int, today: string): (r: Stats)
    ensures r.gamesPlayed == s.gamesPlayed + 1 && r.gamesWon == s.gamesWon + 1
    ensures r.currentStreak == s.currentStreak + 1
    ensures r.longestStreak >= r.currentStreak && r.longestStreak >= s.longestStreak
    ensures r.longestStreak == s.longestStreak || r.longestStreak == r.currentStreak
    ensures s.bestTime == 0 ==> r.bestTime == time
    ensures s.bestTime != 0 ==> r.bestTime == (if time < s.bestTime then time else s.bestTime)
    ensures r.vegasCumulative == s.vegasCumulative + vegasScore
    ensures r.lastWinDate == today
    ensures r.winsToday == (if s.lastWinDate == today then s.winsToday + 1 else 1)
    ensures r.unlocked == s.unlocked
  {
    var streak := s.currentStreak + 1;
    var counted := s.(gamesPlayed := s.gamesPlayed + 1,
                      gamesWon := s.gamesWon + 1,
                      currentStreak := streak,
                      longestStreak := if streak > s.longestStreak then streak else s.longestStreak,
                      bestTime := if s.bestTime == 0 || time < s.bestTime then time else s.bestTime,
                      vegasCumulative := if vegasScore != 0 then s.vegasCumulative + vegasScore else s.vegasCumulative);
    if s.lastWinDate == today then counted.(winsToday := s.winsToday + 1)
    else counted.(winsToday := 1, lastWinDate := today)
  }

  /** `recordWin`, with the day's date passed in as `today`. */
  function RecordWin(s: Stats, time: int, undoCount: int, hintCount: int, vegasScore: int, today: string): (r: Stats)
    ensures r.gamesPlayed == s.gamesPlayed + 1 && r.gamesWon == s.gamesWon + 1
    ensures r.currentStreak == s.currentStreak + 1
    ensures r.longestStreak >= r.currentStreak && r.longestStreak >= s.longestStreak
    ensures r.longestStreak == s.longestStreak || r.longestStreak == r.currentStreak
    ensures s.bestTime == 0 ==> r.bestTime == time
    ensures s.bestTime != 0 ==> r.bestTime == (if time < s.bestTime then time else s.bestTime)
    ensures r.vegasCumulative == s.vegasCumulative + vegasScore
    ensures r.lastWinDate == today
    ensures r.winsToday == (if s.lastWinDate == today then s.winsToday + 1 else 1)
    ensures s.unlocked <= r.unlocked
    ensures r.unlocked == s.unlocked + Earned(TallyWin(s, time, vegasScore, today), time, undoCount, hintCount)
  {
    CheckAchievements(TallyWin(s, time, vegasScore, today), time, undoCount, hintCount)
  }

  /** `recordLoss`: one more game played, the streak broken, and the
      hundred-games achievement once it is due. */
  function RecordLoss(s: Stats): (r: Stats)
    ensures r.gamesPlayed == s.gamesPlayed + 1 && r.currentStreak == 0
    ensures r.gamesWon == s.gamesWon && r.bestTime == s.bestTime
    ensures r.longestStreak == s.longestStreak && r.vegasCumulative == s.vegasCumulative
    ensures r.winsToday == s.winsToday && r.lastWinDate == s.lastWinDate
    ensures r.unlocked == s.unlocked + (if r.gamesPlayed >= 100 then {CenturyClub} else {})
    ensures r.gamesPlayed >= 100 && CenturyClub !in s.unlocked ==> r.newlyUnlocked == Some(CenturyClub)
    ensures r.unlocked == s.unlocked ==> r.newlyUnlocked == s.newlyUnlocked
  {
    var counted := s.(gamesPlayed := s.gamesPlayed + 1, currentStreak := 0);
    if counted.gamesPlayed >= 100 && CenturyClub !in counted.unlocked then Unlock(counted, CenturyClub)
    else counted
  }

  /** `resetStats`: every counter back to zero, no last win date, no achievements. */
  function ResetStats(s: Stats): (r: Stats)
    ensures Consistent(r) && r.unlocked == {} && r.lastWinDate == []
    ensures r.gamesPlayed == 0 && r.bestTime == 0 && r.vegasCumulative == 0 && r.winsToday == 0
    ensures r.newlyUnlocked == s.newlyUnlocked
  {
    s.(gamesPlayed := 0, gamesWon := 0, bestTime := 0, currentStreak := 0, longestStreak := 0,
       vegasCumulative := 0, winsToday := 0, lastWinDate := [], unlocked := {})
  }

  /** Wins and losses keep the counters consistent (wins never outnumber
      games, the current streak never exceeds the longest), provided a win
      time is never negative. */
  lemma RecordKeepsConsistent(s: Stats, time: int, undoCount: int, hintCount: int, vegasScore: int, today: string)
    requires Consistent(s) && time >= 0
    ensures Consistent(RecordWin(s, time, undoCount, hintCount, vegasScore, today))
    ensures Consistent(RecordLoss(s))
  {
  }

  // ---------------------------------------------------------------------
  // Histories of wins

  /** A run of wins with the given times, all on day `today`. */
  function RecordWins(s: Stats, times: seq<int>, today: string): (r: Stats)
    ensures r.gamesWon == s.gamesWon + |times|
    decreases |times|
  {
    if |times| == 0 then s
    else RecordWins(RecordWin(s, times[0], 1, 1, 0, today), times[1..], today)
  }

  /** The best-time rule of `recordWin` folded over a run of win times. */
  function BestAfter(best: int, times: seq<int>): int
    decreases |times|
  {
    if |times| == 0 then best
    else BestAfter(if best == 0 || times[0] < best then times[0] else best, times[1..])
  }

  lemma {:induction false} RecordWinsBest(s: Stats, times: seq<int>, today: string)
    ensures RecordWins(s, times, today).bestTime == BestAfter(s.bestTime, times)
    decreases |times|
  {
    if |times| > 0 {
      var w := RecordWin(s, times[0], 1, 1, 0, today);
      assert w.bestTime == if s.bestTime == 0 || times[0] < s.bestTime then times[0] else s.bestTime;
      RecordWinsBest(w, times[1..], today);
      assert RecordWins(s, times, today) == RecordWins(w, times[1..], today);
    }
  }

  lemma {:induction false} BestAfterIsMin(best: int, times: seq<int>)
    requires best >= 0 && forall i :: 0 <= i < |times| ==> times[i] > 0
    ensures var b := BestAfter(best, times);
            && (forall i :: 0 <= i < |times| ==> b <= times[i])
            && (best > 0 ==> b <= best)
            && (b in times || b == best)
            && (best == 0 && |times| > 0 ==> b in times)
    decreases |times|
  {
    if |times| > 0 {
      var best1 := if best == 0 || times[0] < best then times[0] else best;
      var rest := times[1..];
      BestAfterIsMin(best1, rest);
      var b := BestAfter(best, times);
      forall i | 0 <= i < |times|
        ensures b <= times[i]
      {
        if i > 0 {
          assert times[i] == rest[i - 1];
        }
      }
      assert b in rest ==> b in times;
    }
  }

  /** Starting from a non-negative best time, the best time after a run of
      positive win times is the fastest of them, or the earlier best time if
      that was faster (a zero time would read as "no best time"). */
  lemma BestTimeIsFastest(s: Stats, times: seq<int>, today: string)
    requires s.bestTime >= 0 && forall i :: 0 <= i < |times| ==> times[i] > 0
    ensures var b := RecordWins(s, times, today).bestTime;
            && (forall i :: 0 <= i < |times| ==> b <= times[i])
            && (s.bestTime > 0 ==> b <= s.bestTime)
            && (b in times || b == s.bestTime)
            && (s.bestTime == 0 && |times| > 0 ==> b in times)
  {
    RecordWinsBest(s, times, today);
    BestAfterIsMin(s.bestTime, times);
  }

  /** A run of wins all on one new day counts up from one. */
  lemma {:induction false} WinsOnOneDay(s: Stats, times: seq<int>, today: string)
    requires |times| > 0 && s.lastWinDate != today
    ensures RecordWins(s, times, today).winsToday == |times|
    ensures RecordWins(s, times, today).lastWinDate == today
    decreases |times|
  {
    var s1 := RecordWin(s, times[0], 1, 1, 0, today);
    if |times| > 1 {
      SameDayWins(s1, times[1..], today);
    }
  }

  lemma {:induction false} SameDayWins(s: Stats, times: seq<int>, today: string)
    requires s.lastWinDate == today
    ensures RecordWins(s, times, today).winsToday == s.winsToday + |times|
    ensures RecordWins(s, times, today).lastWinDate == today
    decreases |times|
  {
    if |times| > 0 {
      SameDayWins(RecordWin(s, times[0], 1, 1, 0, today), times[1..], today);
    }
  }

  // ---------------------------------------------------------------------
  // Formatting

  function DigitChar(d: nat): char
    requires d < 10
  {
    "0123456789"[d]
  }

  predicate IsDigit(c: char) {
    '0' as int <= c as int <= '9' as int
  }

  /** The decimal digits of `n`, as Swift's string interpolation prints it. */
  function Decimal(n: nat): (r: string)
    ensures |r| > 0 && forall i :: 0 <= i < |r| ==> IsDigit(r[i])
    decreases n
  {
    if n < 10 then [DigitChar(n)] else Decimal(n / 10) + [DigitChar(n % 10)]
  }

  /** Read a string of digits back as a number. */
  function ParseDecimal(s: string): nat
    requires forall i :: 0 <= i < |s| ==> IsDigit(s[i])
  {
    if |s| == 0 then 0
    else
      assert IsDigit(s[|s| - 1]);
      ParseDecimal(s[..|s| - 1]) * 10 + ((s[|s| - 1] as int) - ('0' as int))
  }

  lemma {:induction false} DecimalRoundTrip(n: nat)
    ensures ParseDecimal(Decimal(n)) == n
    decreases n
  {
    if n >= 10 {
      DecimalRoundTrip(n / 10);
      var r := Decimal(n);
      assert r[..|r| - 1] == Decimal(n / 10);
    }
  }

  /** `formattedVegasCumulative`: "+$n" for n >= 0, "-$|n|" below. */
  function FormattedVegasCumulative(n: int): (r: string)
    ensures |r| >= 3 && r[1] == '$'
    ensures r[0] == '+' <==> n >= 0
    ensures r[0] == '+' || r[0] == '-'
  {
    if n >= 0 then "+$" + Decimal(n) else "-$" + Decimal(-n)
  }

  /** Read a formatted Vegas amount back. */
  function ParseVegas(r: string): int
    requires |r| >= 2 && forall i :: 2 <= i < |r| ==> IsDigit(r[i])
  {
    var magnitude: int := ParseDecimal(r[2..]);
    if r[0] == '-' then -magnitude else magnitude
  }

  /** The formatted amount reads back as the amount. */
  lemma VegasRoundTrip(n: int)
    ensures ParseVegas(FormattedVegasCumulative(n)) == n
  {
    var r := FormattedVegasCumulative(n);
    if n >= 0 {
      assert r[2..] == Decimal(n);
      DecimalRoundTrip(n);
    } else {
      assert r[2..] == Decimal(-n);
      DecimalRoundTrip(-n);
    }
  }

  /** `formattedBestTime`: "--:--" with no best time, otherwise minutes, a
      colon and two-digit seconds ("%d:%02d"). */
  function FormattedBestTime(bestTime: int): (r: string)
    ensures bestTime <= 0 ==> r == "--:--"
    ensures bestTime > 0 ==> |r| >= 4 && r[|r| - 3] == ':'
  {
    if bestTime <= 0 then "--:--"
    else
      var m, sec := bestTime / 60, bestTime % 60;
      Decimal(m) + [':', DigitChar(sec / 10), DigitChar(sec % 10)]
  }

  /** Read "m:ss" back as seconds. */
  function ParseTime(r: string): int
    requires |r| >= 4
    requires forall i :: 0 <= i < |r| - 3 ==> IsDigit(r[i])
    requires IsDigit(r[|r| - 2]) && IsDigit(r[|r| - 1])
  {
    ParseDecimal(r[..|r| - 3]) * 60 + ParseDecimal(r[|r| - 2..])
  }

  /** A best time formats to a string that reads back as the same number of
      seconds, and never to the no-time placeholder. */
  lemma BestTimeRoundTrip(bestTime: int)
    requires bestTime > 0
    ensures var r := FormattedBestTime(bestTime);
            && (forall i :: 0 <= i < |r| - 3 ==> IsDigit(r[i]))
            && IsDigit(r[|r| - 2]) && IsDigit(r[|r| - 1])
            && '0' <= r[|r| - 2] <= '5'
            && ParseTime(r) == bestTime
  {
    var r := FormattedBestTime(bestTime);
    var m, sec := bestTime / 60, bestTime % 60;
    assert r[..|r| - 3] == Decimal(m);
    DecimalRoundTrip(m);
    var two := r[|r| - 2..];
    assert two == [DigitChar(sec / 10), DigitChar(sec % 10)];
    assert two[..1] == [DigitChar(sec / 10)];
    assert ParseDecimal(two[..1]) == sec / 10;
  }
}
