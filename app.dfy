/**
 * The application shell (App.tsx): which screen is showing, the logged-in
 * student, the last result, and the top-ten leaderboard.
 */
module App {
  import opened Types
  import opened Wrappers
  import Sorting

  /** How many entries the leaderboard keeps. */
  const LeaderboardSize: nat := 10

  /**
   * The leaderboard comparator: `a` may stay ahead of `b` when its score is
   * higher, or equal with no more time taken.
   */
  predicate RanksAhead(a: LeaderboardEntry, b: LeaderboardEntry) {
    a.score > b.score || (a.score == b.score && a.timeTaken <= b.timeTaken)
  }

  /** `a` ranks strictly ahead of `b`: a higher score, or the same score in less time. */
  predicate StrictlyAhead(a: LeaderboardEntry, b: LeaderboardEntry) {
    a.score > b.score || (a.score == b.score && a.timeTaken < b.timeTaken)
  }

  lemma RanksAheadIsTotalPreorder()
    ensures Sorting.TotalPreorder(RanksAhead)
  {
  }

  /** The entry recorded for a finished attempt: the result's fields with the student's name and group and the date. */
  function NewEntry(result: BuildingResult, student: StudentInfo, date: string): (e: LeaderboardEntry)
    ensures e.protons == result.protons && e.neutrons == result.neutrons && e.electrons == result.electrons
    ensures e.score == result.score && e.timeTaken == result.timeTaken && e.elementName == result.elementName
    ensures e.studentName == student.studentName && e.group == student.group && e.date == date
  {
    LeaderboardEntry(result.protons, result.neutrons, result.electrons, result.score, result.timeTaken,
      result.elementName, student.studentName, student.group, date)
  }

  /** The new entry put in front of the old board, stably sorted best first, cut to the top ten. */
  function UpdatedLeaderboard(board: seq<LeaderboardEntry>, entry: LeaderboardEntry): (r: seq<LeaderboardEntry>)
    ensures |r| == if |board| + 1 <= LeaderboardSize then |board| + 1 else LeaderboardSize
    ensures forall i, j :: 0 <= i < j < |r| ==>
      r[i].score >= r[j].score && (r[i].score == r[j].score ==> r[i].timeTaken <= r[j].timeTaken)
    ensures multiset(r) <= multiset([entry] + board)
  {
    var sorted := Sorting.Sort(RanksAhead, [entry] + board);
    RanksAheadIsTotalPreorder();
    Sorting.SortSorted(RanksAhead, [entry] + board);
    var keep := if |sorted| <= LeaderboardSize then |sorted| else LeaderboardSize;
    assert sorted == sorted[..keep] + sorted[keep..];
    sorted[..keep]
  }

  /** Only the lowest-ranked entries are dropped: every kept entry ranks at least as high as every dropped one. */
  lemma KeepsBestEntries(board: seq<LeaderboardEntry>, entry: LeaderboardEntry)
    ensures var r := UpdatedLeaderboard(board, entry);
      forall x, y :: x in r && y in multiset([entry] + board) - multiset(r) ==> RanksAhead(x, y)
  {
    var all := [entry] + board;
    var sorted := Sorting.Sort(RanksAhead, all);
    var r := UpdatedLeaderboard(board, entry);
    RanksAheadIsTotalPreorder();
    Sorting.SortSorted(RanksAhead, all);
    var keep := |r|;
    assert r == sorted[..keep];
    assert sorted == r + sorted[keep..];
    assert multiset(all) - multiset(r) == multiset(sorted[keep..]) by {
      assert multiset(all) == multiset(r) + multiset(sorted[keep..]);
    }
    Sorting.SortedSplit(RanksAhead, sorted, keep);
  }

  /** Everything the stable insertion puts ahead of a new entry ranks strictly ahead of it. */
  lemma InsertedBehindStrictlyAhead(ranked: seq<LeaderboardEntry>, entry: LeaderboardEntry)
    ensures forall j :: 0 <= j < Sorting.InsertPos(RanksAhead, entry, ranked) ==> StrictlyAhead(ranked[j], entry)
  {
    var p := Sorting.InsertPos(RanksAhead, entry, ranked);
    forall j | 0 <= j < p
      ensures StrictlyAhead(ranked[j], entry)
    {
      assert !RanksAhead(entry, ranked[j]);
    }
  }

  /** The board after an update is the old board ranked, with the entry inserted, cut to ten. */
  lemma UpdatedIsInsertion(board: seq<LeaderboardEntry>, entry: LeaderboardEntry)
    ensures var ranked := Sorting.Sort(RanksAhead, board);
      UpdatedLeaderboard(board, entry) == Sorting.Insert(RanksAhead, entry, ranked)[..|UpdatedLeaderboard(board, entry)|]
  {
    var all := [entry] + board;
    assert all[0] == entry && all[1..] == board;
  }

  /**
   * The new entry is ranked behind only entries strictly ahead of it, so it goes
   * in front of every old entry with the same score and time; or it is cut
   * because ten entries strictly ahead of it fill the board.
   */
  lemma NewEntryAheadOfTies(board: seq<LeaderboardEntry>, entry: LeaderboardEntry)
    ensures var r := UpdatedLeaderboard(board, entry);
      || (exists p :: 0 <= p < |r| && r[p] == entry && forall j :: 0 <= j < p ==> StrictlyAhead(r[j], entry))
      || (|r| == LeaderboardSize && forall j :: 0 <= j < |r| ==> StrictlyAhead(r[j], entry))
  {
    var ranked := Sorting.Sort(RanksAhead, board);
    var p := Sorting.InsertPos(RanksAhead, entry, ranked);
    var r := UpdatedLeaderboard(board, entry);
    UpdatedIsInsertion(board, entry);
    InsertedBehindStrictlyAhead(ranked, entry);
    CutInsertion(ranked, entry, p, |r|);
    if p < |r| {
      assert r[p] == entry;
    } else {
      assert |r| == LeaderboardSize;
    }
  }

  /** Cutting `ranked` with `entry` inserted at `p` keeps `entry` behind strictly-ahead entries only, or drops it. */
  lemma CutInsertion(ranked: seq<LeaderboardEntry>, entry: LeaderboardEntry, p: nat, n: nat)
    requires p <= |ranked| && n <= |ranked| + 1
    requires forall j :: 0 <= j < p ==> StrictlyAhead(ranked[j], entry)
    ensures var r := (ranked[..p] + [entry] + ranked[p..])[..n];
      && (p < n ==> r[p] == entry)
      && forall j :: 0 <= j < p && j < n ==> StrictlyAhead(r[j], entry)
  {
    var inserted := ranked[..p] + [entry] + ranked[p..];
    forall j | 0 <= j < p && j < n
      ensures StrictlyAhead(inserted[..n][j], entry)
    {
      assert inserted[..n][j] == inserted[j] == ranked[j];
    }
  }

  /** The screen App renders: a view is shown only when the data it needs is present. */
  datatype Screen = LoginScreen | BuilderScreen(student: StudentInfo) | ResultsScreen(student: StudentInfo, result: BuildingResult) | Blank

  class AppState {
    var currentView: View
    var student: Option<StudentInfo>
    var buildingResult: Option<BuildingResult>
    var leaderboard: seq<LeaderboardEntry>

    /** The app starts on the login screen with no student, no result and the board read back from storage (if any). */
    constructor (saved: Option<seq<LeaderboardEntry>>)
      ensures currentView == Login && student == None && buildingResult == None
      ensures leaderboard == saved.GetOr([])
    {
      currentView := Login;
      student := None;
      buildingResult := None;
      leaderboard := saved.GetOr([]);
    }

    function CurrentScreen(): (s: Screen)
      reads this
      ensures s.BuilderScreen? ==> currentView == Builder && student == Some(s.student)
      ensures s.ResultsScreen? ==> currentView == Results && student == Some(s.student) && buildingResult == Some(s.result)
      ensures s == LoginScreen <==> currentView == Login
      ensures currentView == Builder && student.Some? ==> s == BuilderScreen(student.value)
      ensures currentView == Results && student.Some? && buildingResult.Some? ==>
        s == ResultsScreen(student.value, buildingResult.value)
      ensures s == Blank <==>
        || (currentView == Builder && student.None?)
        || (currentView == Results && (student.None? || buildingResult.None?))
    {
      match currentView
      case Login => LoginScreen
      case Builder => if student.Some? then BuilderScreen(student.value) else Blank
      case Results =>
        if student.Some? && buildingResult.Some? then ResultsScreen(student.value, buildingResult.value) else Blank
    }

    /** Logging in records the student and opens the builder. */
    method HandleLogin(info: StudentInfo)
      modifies this
      ensures student == Some(info) && currentView == Builder
      ensures buildingResult == old(buildingResult) && leaderboard == old(leaderboard)
      ensures CurrentScreen() == BuilderScreen(info)
    {
      student := Some(info);
      currentView := Builder;
    }

    /**
     * Finishing stores the result and shows it; with a student logged in it also
     * enters the attempt on the leaderboard, which otherwise stays as it was.
     * `date` is the formatted current date.
     */
    method HandleFinish(result: BuildingResult, date: string)
      modifies this
      ensures buildingResult == Some(result) && currentView == Results && student == old(student)
      ensures old(student).Some? ==>
        leaderboard == UpdatedLeaderboard(old(leaderboard), NewEntry(result, old(student).value, date))
      ensures old(student).None? ==> leaderboard == old(leaderboard)
      ensures old(student).Some? ==> CurrentScreen() == ResultsScreen(old(student).value, result)
    {
      buildingResult := Some(result);
      if student.Some? {
        var entry := NewEntry(result, student.value, date);
        leaderboard := UpdatedLeaderboard(leaderboard, entry);
      }
      currentView := Results;
    }

    /** Playing again goes back to the builder; student, result and board stay. */
    method HandleRestart()
      modifies this
      ensures currentView == Builder
      ensures student == old(student) && buildingResult == old(buildingResult) && leaderboard == old(leaderboard)
    {
      currentView := Builder;
    }

    /** Logging out forgets the student and the result and returns to login; the board stays. */
    method HandleLogout()
      modifies this
      ensures student == None && buildingResult == None && currentView == Login
      ensures leaderboard == old(leaderboard)
      ensures CurrentScreen() == LoginScreen
    {
      student := None;
      buildingResult := None;
      currentView := Login;
    }
  }
}
